/**
 * The `respond-to-application` function: a GET endpoint that takes
 * `applicationId` and `action` from the query string and overwrites the
 * application's status, without looking at its current value.
 */
module RespondFunction {
  import opened Common
  import opened Text
  import opened Backend
  import opened Http

  /** The request: method and the two query parameters (None: absent). */
  datatype Request = Request(verb: string, applicationId: Option<string>, action: Option<string>)

  /** Which backend calls fail. */
  datatype Faults = Faults(lookup: bool, update: bool)

  const MethodNotAllowed := Response(405, ErrorJson("Method not allowed"), true, None)
  const MissingParameters := Response(400, ErrorJson("Missing parameters"), true, None)
  const InvalidAction := Response(400, ErrorJson("Invalid action"), true, None)
  const LookupFailed := Response(500, ErrorJson("Failed to fetch application details"), true, None)
  const UpdateFailed := Response(500, ErrorJson("Failed to update application status"), true, None)

  /** The status an action requests; only the two valid actions reach it. */
  function TargetStatus(action: string): (st: Status)
    requires action == "accept" || action == "reject"
    ensures action == "accept" <==> st == Accepted
    ensures action == "reject" <==> st == Rejected
  {
    if action == "accept" then Accepted else Rejected
  }

  /** The headline of the confirmation page. */
  function Headline(st: Status): string {
    if st == Accepted then "You have accepted the application." else "You have rejected the application."
  }

  /**
   * The handler. The application is looked up (joined with its project)
   * before the update; a missing joined project makes the page rendering
   * throw after the update, which the handler turns into a 500.
   */
  function Handle(req: Request, s: Store, now: Timestamp, f: Faults): (r: (Response, Store))
    ensures req.verb == "OPTIONS" ==> r == (Preflight, s)
    ensures req.verb != "OPTIONS" && req.verb != "GET" ==> r == (MethodNotAllowed, s)
    ensures req.verb == "GET" && (!Present(req.applicationId) || !Present(req.action)) ==> r == (MissingParameters, s)
    ensures (&& req.verb == "GET" && Present(req.applicationId) && Present(req.action)
             && req.action.value != "accept" && req.action.value != "reject") ==> r == (InvalidAction, s)
    ensures r.0.cors
    ensures r.0.status == 200 <==>
              && req.verb in {"OPTIONS", "GET"}
              && (req.verb == "GET" ==>
                    && Present(req.applicationId) && Present(req.action)
                    && req.action.value in {"accept", "reject"}
                    && !f.lookup && !f.update
                    && req.applicationId.value in s.applications
                    && s.applications[req.applicationId.value].projectId in s.projects)
    // the store changes only through one status write, whatever the current status
    ensures r.1 == s || (
              && req.verb == "GET" && Present(req.applicationId) && Present(req.action)
              && req.action.value in {"accept", "reject"} && !f.lookup && !f.update
              && req.applicationId.value in s.applications
              && r.1 == SetStatus(s, req.applicationId.value, TargetStatus(req.action.value), Some(now)))
    ensures r.1.chat == s.chat && r.1.outbox == s.outbox
  {
    if req.verb == "OPTIONS" then (Preflight, s)
    else if req.verb != "GET" then (MethodNotAllowed, s)
    else if !Present(req.applicationId) || !Present(req.action) then (MissingParameters, s)
    else if req.action.value != "accept" && req.action.value != "reject" then (InvalidAction, s)
    else
      var id := req.applicationId.value;
      var st := TargetStatus(req.action.value);
      if f.lookup || id !in s.applications then (LookupFailed, s)
      else if f.update then (UpdateFailed, s)
      else
        var s' := SetStatus(s, id, st, Some(now));
        var pid := s.applications[id].projectId;
        if pid !in s.projects then (Response(500, Thrown, true, None), s')
        else (Response(200, HtmlPage(Headline(st), s.projects[pid].title), true, Some("text/html")), s')
  }

  /** A successful answer's headline names the status that was written. */
  lemma SuccessHeadlineMatchesStatus(req: Request, s: Store, now: Timestamp, f: Faults)
    requires req.verb == "GET"
    requires Handle(req, s, now, f).0.status == 200
    ensures req.action == Some("accept") || req.action == Some("reject")
    ensures req.applicationId.Some? && req.applicationId.value in s.applications
    ensures var st := TargetStatus(req.action.value);
            && Handle(req, s, now, f).0.body == HtmlPage(Headline(st), s.projects[s.applications[req.applicationId.value].projectId].title)
            && Handle(req, s, now, f).1.applications[req.applicationId.value].status == st
            && Handle(req, s, now, f).1.applications[req.applicationId.value].updatedAt == now
  {
  }

  /**
   * The function has no pending check: a decision already taken is
   * overwritten by a later request with the other action.
   */
  lemma OverwritesEarlierDecision(s: Store, id: Id, now: Timestamp)
    requires id != "" && id in s.applications && s.applications[id].status == Accepted
    ensures Handle(Request("GET", Some(id), Some("reject")), s, now, Faults(false, false)).1.applications[id].status == Rejected
  {
  }
}
