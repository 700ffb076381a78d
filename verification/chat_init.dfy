/**
 * The `project-chat-init` function: seeds a project's chat with a welcome
 * message from the project owner, then marks the application accepted if it
 * is not already.
 */
module ChatInit {
  import opened Common
  import opened Text
  import opened Backend
  import opened Http

  /** The JSON body: the two ids (None: absent). */
  datatype Body = Body(applicationId: Option<string>, applicantId: Option<string>)

  /** The request; a body that is not JSON is `None`. Any method but OPTIONS is served. */
  datatype Request = Request(verb: string, body: Option<Body>)

  /** Which backend calls fail. */
  datatype Faults = Faults(applicationLookup: bool, projectLookup: bool, insert: bool, update: bool)

  const NoFaults := Faults(false, false, false, false)

  const WelcomeText := "Welcome to the project! I've accepted your application. Let's discuss how you can contribute."

  const Json := Some("application/json")
  const MissingParameters := Response(400, ErrorJson("Missing required parameters"), true, Json)
  const ApplicationNotFound := Response(404, ErrorJson("Application not found"), true, Json)
  const ProjectNotFound := Response(404, ErrorJson("Project not found"), true, Json)
  const ChatFailed := Response(500, ErrorJson("Failed to initialize chat"), true, Json)
  const Initialized := Response(200, SuccessJson(true), true, Json)

  /** Both ids are present and non-empty. */
  predicate WellFormed(req: Request) {
    req.body.Some? && Present(req.body.value.applicationId) && Present(req.body.value.applicantId)
  }

  /** The welcome message the owner of `project` posts into its chat. */
  function Welcome(s: Store, id: Id): (m: ChatMessage)
    requires id in s.applications && s.applications[id].projectId in s.projects
    ensures m.projectId == s.applications[id].projectId
    ensures m.senderId == s.projects[m.projectId].creatorId
    ensures m.content == WelcomeText
  {
    var pid := s.applications[id].projectId;
    ChatMessage(pid, s.projects[pid].creatorId, WelcomeText)
  }

  /** The handler. The applicant id is checked for presence and then not used. */
  function Handle(req: Request, s: Store, f: Faults): (r: (Response, Store))
    ensures req.verb == "OPTIONS" ==> r == (Preflight, s)
    ensures req.verb != "OPTIONS" && req.body.None? ==> r == (Response(500, Thrown, true, Json), s)
    ensures req.verb != "OPTIONS" && req.body.Some? && !WellFormed(req) ==> r == (MissingParameters, s)
    ensures r.0.cors && r.1.outbox == s.outbox
    // only the chat and the applications can change
    ensures r.1.projects == s.projects && r.1.details == s.details && r.1.accounts == s.accounts
    // nothing is written unless the application and its project were both found
    ensures (req.verb != "OPTIONS" && WellFormed(req) &&
             (f.applicationLookup || req.body.value.applicationId.value !in s.applications))
            ==> r == (ApplicationNotFound, s)
    ensures (req.verb != "OPTIONS" && WellFormed(req) && !f.applicationLookup
             && req.body.value.applicationId.value in s.applications
             && (f.projectLookup || s.applications[req.body.value.applicationId.value].projectId !in s.projects))
            ==> r == (ProjectNotFound, s)
    // once both are found, the insert decides between a 500 and success
    ensures (req.verb != "OPTIONS" && WellFormed(req) && !f.applicationLookup
             && req.body.value.applicationId.value in s.applications && !f.projectLookup
             && s.applications[req.body.value.applicationId.value].projectId in s.projects)
            ==> (f.insert ==> r == (ChatFailed, s)) && (!f.insert ==> r.0 == Initialized)
    // a failed insert leaves the store, status included, as it was
    ensures f.insert ==> r.1 == s
    // success: exactly one welcome message, then the status is accepted unless the write failed
    ensures Succeeded(r.0) && req.verb != "OPTIONS" ==>
              && r.0 == Initialized
              && WellFormed(req)
              && var id := req.body.value.applicationId.value;
              && id in s.applications && s.applications[id].projectId in s.projects
              && r.1.chat == s.chat + [Welcome(s, id)]
              && (f.update ==> r.1.applications == s.applications)
              && (!f.update ==> r.1.applications == s.applications[id := s.applications[id].(status := Accepted)])
    ensures r.1.chat == s.chat || |r.1.chat| == |s.chat| + 1
    ensures !Succeeded(r.0) ==> r.1 == s
  {
    if req.verb == "OPTIONS" then (Preflight, s)
    else if req.body.None? then (Response(500, Thrown, true, Json), s)
    else if !WellFormed(req) then (MissingParameters, s)
    else
      var id := req.body.value.applicationId.value;
      if f.applicationLookup || id !in s.applications then (ApplicationNotFound, s)
      else
        var app := s.applications[id];
        if f.projectLookup || app.projectId !in s.projects then (ProjectNotFound, s)
        else if f.insert then (ChatFailed, s)
        else
          var s1 := s.(chat := s.chat + [Welcome(s, id)]);
          // the status-update error is logged and ignored
          var s2 := if app.status != Accepted && !f.update then SetStatus(s1, id, Accepted, None) else s1;
          (Initialized, s2)
  }

  /** A rejected application is turned into an accepted one: the function never checks for pending. */
  lemma AcceptsRejected(s: Store, id: Id, applicant: Id)
    requires id != "" && applicant != ""
    requires id in s.applications && s.applications[id].projectId in s.projects
    requires s.applications[id].status == Rejected
    ensures Handle(Request("POST", Some(Body(Some(id), Some(applicant)))), s, NoFaults).1.applications[id].status == Accepted
  {
  }

  /**
   * Calling the function twice leaves the same status as calling it once,
   * but posts the welcome message twice: its side effect is not idempotent.
   */
  lemma {:induction false} RepeatPostsTwice(s: Store, id: Id, applicant: Id)
    requires id != "" && applicant != ""
    requires id in s.applications && s.applications[id].projectId in s.projects
    ensures var req := Request("POST", Some(Body(Some(id), Some(applicant))));
            var once := Handle(req, s, NoFaults).1;
            var twice := Handle(req, once, NoFaults).1;
            && twice.applications == once.applications
            && twice.chat == s.chat + [Welcome(s, id), Welcome(s, id)]
  {
    var req := Request("POST", Some(Body(Some(id), Some(applicant))));
    var once := Handle(req, s, NoFaults).1;
    assert once.applications[id].status == Accepted;
    assert once.projects == s.projects;
    assert once.applications[id].projectId == s.applications[id].projectId;
    assert Welcome(once, id) == Welcome(s, id);
  }
}
