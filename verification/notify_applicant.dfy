/**
 * The `notify-applicant` function: e-mails an applicant the decision on
 * their application. The site URL (the backend URL with `.supabase.co`
 * replaced by `.lovable.app`) comes from the environment and is a parameter.
 */
module NotifyApplicant {
  import opened Common
  import opened Text
  import opened Backend
  import opened Http

  /** The JSON body: application id and the status text (None: absent). */
  datatype Body = Body(applicationId: Option<string>, status: Option<string>)

  /** The request; a body that is not JSON is `None`. */
  datatype Request = Request(verb: string, body: Option<Body>)

  /** Which backend calls fail. A failed owner lookup is ignored like a missing owner. */
  datatype Faults = Faults(applicationLookup: bool, emailLookup: bool, ownerLookup: bool)

  const NoFaults := Faults(false, false, false)

  const MethodNotAllowed := Response(405, ErrorJson("Method not allowed"), true, None)
  const MissingFields := Response(400, ErrorJson("Missing required fields"), true, None)
  const ApplicationFailed := Response(500, ErrorJson("Failed to fetch application details"), true, None)
  const EmailFailed := Response(500, ErrorJson("Failed to fetch applicant email"), true, None)
  const Sent := Response(200, SuccessJson(false), true, Some("application/json"))

  /**
   * The owner as the e-mail names them: "first last" trimmed when a profile
   * exists. The name never starts or ends with white space, it is empty
   * exactly when both names are blank, and two unpadded names come out
   * joined by one space.
   */
  function OwnerName(profile: Option<Person>): (name: string)
    ensures profile.None? ==> name == "The project owner"
    ensures profile.Some? ==> name == Trim(profile.value.firstName.GetOr("") + " " + profile.value.lastName.GetOr(""))
    ensures Unpadded(name)
    ensures profile.Some? ==>
              (name == "" <==> IsBlank(profile.value.firstName.GetOr("")) && IsBlank(profile.value.lastName.GetOr("")))
    ensures profile.Some? && Present(profile.value.firstName) && Present(profile.value.lastName)
            && Unpadded(profile.value.firstName.value) && Unpadded(profile.value.lastName.value)
            ==> name == profile.value.firstName.value + " " + profile.value.lastName.value
  {
    match profile
    case None => "The project owner"
    case Some(p) =>
      var first := p.firstName.GetOr("");
      var last := p.lastName.GetOr("");
      TrimJoined(first, last);
      Trim(first + " " + last)
  }

  /** Only the exact text "accepted" counts as an acceptance. */
  predicate IsAcceptance(status: string) {
    status == "accepted"
  }

  /** The word the e-mail uses for the decision. */
  function Decision(status: string): (word: string)
    ensures word == "accepted" <==> IsAcceptance(status)
    ensures word == "accepted" || word == "rejected"
  {
    if IsAcceptance(status) then "accepted" else "rejected"
  }

  function Subject(title: string, status: string): string {
    "Your application for \"" + title + "\" has been " + Decision(status)
  }

  /** The one link in the e-mail: the project page when accepted, the project list otherwise. */
  function Link(site: string, projectId: Id, status: string): string {
    if IsAcceptance(status) then site + "/projects/" + projectId else site + "/projects"
  }

  /** The e-mail for an application found in the store. */
  function Notice(s: Store, id: Id, status: string, site: string, owner: Option<Person>): (e: Email)
    requires id in s.applications && s.applications[id].projectId in s.projects
    requires s.applications[id].applicantId in s.accounts && Present(s.accounts[s.applications[id].applicantId].email)
    ensures e.to == s.accounts[s.applications[id].applicantId].email.value && e.to != ""
    ensures e.subject == Subject(s.projects[s.applications[id].projectId].title, status)
    ensures e.links == [Link(site, s.applications[id].projectId, status)]
  {
    var app := s.applications[id];
    Email(s.accounts[app.applicantId].email.value,
          Subject(s.projects[app.projectId].title, status),
          [Link(site, app.projectId, status)],
          OwnerName(owner))
  }

  /** The owner profile the lookup returns, if any. */
  function OwnerProfile(s: Store, creator: Id, f: Faults): Option<Person> {
    if !f.ownerLookup && creator in s.details then Some(s.details[creator]) else None
  }

  /** The applicant's address, when the lookup succeeds and it is non-empty. */
  predicate HasAddress(s: Store, applicant: Id, f: Faults) {
    !f.emailLookup && applicant in s.accounts && Present(s.accounts[applicant].email)
  }

  /**
   * The handler. The application is read joined with its project; a
   * missing joined project makes the owner lookup throw, which the handler
   * turns into a 500 before anything is sent.
   */
  function Handle(req: Request, s: Store, site: string, f: Faults): (r: (Response, Store))
    ensures req.verb == "OPTIONS" ==> r == (Preflight, s)
    ensures req.verb != "OPTIONS" && req.verb != "POST" ==> r == (MethodNotAllowed, s)
    ensures (req.verb == "POST" && req.body.Some? &&
             (!Present(req.body.value.applicationId) || !Present(req.body.value.status))) ==> r == (MissingFields, s)
    ensures r.0.cors
    // only the outbox changes, and only by one e-mail to the applicant
    ensures r.1.(outbox := s.outbox) == s
    ensures r.1.outbox == s.outbox || (
              && r.0 == Sent
              && req.verb == "POST" && req.body.Some?
              && Present(req.body.value.applicationId) && Present(req.body.value.status)
              && var id := req.body.value.applicationId.value;
              && id in s.applications && s.applications[id].projectId in s.projects
              && HasAddress(s, s.applications[id].applicantId, f)
              && r.1.outbox == s.outbox + [Notice(s, id, req.body.value.status.value, site,
                                                  OwnerProfile(s, s.projects[s.applications[id].projectId].creatorId, f))])
    // no application, or no address: a 500 and no e-mail
    ensures (req.verb == "POST" && req.body.Some? && Present(req.body.value.applicationId) && Present(req.body.value.status)
             && (f.applicationLookup || req.body.value.applicationId.value !in s.applications))
            ==> r == (ApplicationFailed, s)
    ensures (req.verb == "POST" && req.body.Some? && Present(req.body.value.applicationId) && Present(req.body.value.status)
             && !f.applicationLookup && req.body.value.applicationId.value in s.applications
             && !HasAddress(s, s.applications[req.body.value.applicationId.value].applicantId, f))
            ==> r == (EmailFailed, s)
    ensures r.0 == Sent <==> r.1.outbox != s.outbox
  {
    if req.verb == "OPTIONS" then (Preflight, s)
    else if req.verb != "POST" then (MethodNotAllowed, s)
    else if req.body.None? then (Response(500, Thrown, true, None), s)
    else if !Present(req.body.value.applicationId) || !Present(req.body.value.status) then (MissingFields, s)
    else
      var id := req.body.value.applicationId.value;
      var status := req.body.value.status.value;
      if f.applicationLookup || id !in s.applications then (ApplicationFailed, s)
      else
        var app := s.applications[id];
        if !HasAddress(s, app.applicantId, f) then (EmailFailed, s)
        else if app.projectId !in s.projects then (Response(500, Thrown, true, None), s)
        else
          var owner := OwnerProfile(s, s.projects[app.projectId].creatorId, f);
          (Sent, s.(outbox := s.outbox + [Notice(s, id, status, site, owner)]))
  }

  /**
   * The subject and link follow the status: "accepted" gives the acceptance
   * subject and the project page; any other text gives the rejection subject
   * and the project list.
   */
  lemma DecisionWording(title: string, site: string, projectId: Id, status: string)
    ensures status == "accepted" ==>
              && Subject(title, status) == "Your application for \"" + title + "\" has been accepted"
              && Link(site, projectId, status) == site + "/projects/" + projectId
    ensures status != "accepted" ==>
              && Subject(title, status) == "Your application for \"" + title + "\" has been rejected"
              && Link(site, projectId, status) == site + "/projects"
  {
  }

  /** With a profile, the owner's name is the trimmed full name; a profile with no names gives "". */
  lemma OwnerNameFallback(first: string, last: string)
    ensures OwnerName(Some(NamedPerson(Some(first), Some(last)))) == Trim(first + " " + last)
    ensures OwnerName(Some(NamedPerson(None, None))) == ""
    ensures OwnerName(None) == "The project owner"
  {
    assert IsSpace(' ');
    assert "" + " " + "" == " ";
  }
}
