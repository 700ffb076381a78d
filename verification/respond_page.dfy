/**
 * The page an owner reaches from the e-mailed accept/reject links
 * (`/applications/respond?applicationId=…&action=…`). On load it checks the
 * parameters and that the application is still pending; its one button
 * writes the status and then asks `notify-applicant` to e-mail the
 * applicant, ignoring that function's answer.
 */
module RespondPage {
  import opened Common
  import opened Text
  import opened Backend
  import opened Http
  import NotifyApplicant

  /** The two query parameters as `searchParams.get` returns them (None: absent). */
  datatype Params = Params(applicationId: Option<string>, action: Option<string>)

  /** The page's state: spinner, button spinner, error text and success text ("" when unset). */
  datatype Page = Page(loading: bool, processing: bool, error: string, success: string)

  /** Which backend calls fail; the notification has faults of its own. */
  datatype Faults = Faults(lookup: bool, update: bool, notify: NotifyApplicant.Faults)

  const Initial := Page(true, false, "", "")

  const InvalidParameters := "Invalid parameters provided. Please check your link and try again."
  const CheckFailed := "An error occurred while checking the application."
  const NotFound := "Application not found. It may have been deleted."

  /** An id is present and the action is one of the two the page knows. */
  predicate Valid(p: Params) {
    Present(p.applicationId) && (p.action == Some("accept") || p.action == Some("reject"))
  }

  /** The accept/reject controls are offered: loaded, and neither an error nor a success to show. */
  predicate ShowsActions(page: Page) {
    !page.loading && page.error == "" && page.success == ""
  }

  /** The error for an application that is no longer pending. */
  function AlreadyDecided(st: Status): string {
    "This application has already been " + st.Name() + "."
  }

  /**
   * The load-time check. Invalid parameters are reported before any lookup,
   * so the answer then depends on neither the store nor the faults.
   */
  function Load(p: Params, s: Store, f: Faults): (page: Page)
    ensures !page.loading && !page.processing && page.success == ""
    ensures !Valid(p) ==> page.error == InvalidParameters
    ensures ShowsActions(page) <==> Valid(p) && !f.lookup && IsPending(s, p.applicationId.value)
    ensures Valid(p) && f.lookup ==> page.error == CheckFailed
    ensures Valid(p) && !f.lookup && p.applicationId.value !in s.applications ==> page.error == NotFound
    ensures Valid(p) && !f.lookup && p.applicationId.value in s.applications && !IsPending(s, p.applicationId.value)
            ==> page.error == AlreadyDecided(s.applications[p.applicationId.value].status)
  {
    if !Valid(p) then Page(false, false, InvalidParameters, "")
    else if f.lookup then Page(false, false, CheckFailed, "")
    else
      var id := p.applicationId.value;
      if id !in s.applications then Page(false, false, NotFound, "")
      else if s.applications[id].status != Pending then Page(false, false, AlreadyDecided(s.applications[id].status), "")
      else Page(false, false, "", "")
  }

  /** The status an action writes: "accept" accepts and anything else rejects. */
  function ActionStatus(action: string): (st: Status)
    ensures st == Accepted <==> action == "accept"
    ensures st != Pending
  {
    if action == "accept" then Accepted else Rejected
  }

  /** The page's notification request to `notify-applicant`. */
  function NotifyRequest(id: Id, st: Status): NotifyApplicant.Request {
    NotifyApplicant.Request("POST", Some(NotifyApplicant.Body(Some(id), Some(st.Name()))))
  }

  /**
   * `handleAction`: update the row (status and `updated_at`), then invoke
   * `notify-applicant` with the same id and status. The update is not
   * guarded by a pending check; that check happened at load time only.
   */
  function HandleAction(page: Page, p: Params, s: Store, now: Timestamp, site: string, f: Faults): (r: (Page, Store))
    // with no id or no action nothing happens
    ensures !Present(p.applicationId) || !Present(p.action) ==> r == (page, s)
    ensures Present(p.applicationId) && Present(p.action) ==> !r.0.processing && !r.0.loading == !page.loading
    // a failed update: an error, no success, no write, no e-mail
    ensures Present(p.applicationId) && Present(p.action) && f.update ==>
              && r.0.error == "Failed to " + p.action.value + " the application. Please try again."
              && r.0.success == page.success
              && r.1 == s
    // a successful update: the status is written, then the applicant may be e-mailed about it
    ensures Present(p.applicationId) && Present(p.action) && !f.update ==>
              && var id := p.applicationId.value;
              && var st := ActionStatus(p.action.value);
              && var written := SetStatus(s, id, st, Some(now));
              && r.0.success == "You have successfully " + st.Name() + " the application."
              && r.0.error == page.error
              && r.1 == NotifyApplicant.Handle(NotifyRequest(id, st), written, site, f.notify).1
              && r.1.(outbox := s.outbox) == written
    // e-mail only after a successful write
    ensures r.1.outbox != s.outbox ==> Present(p.applicationId) && Present(p.action) && !f.update
  {
    if !Present(p.applicationId) || !Present(p.action) then (page, s)
    else
      var id := p.applicationId.value;
      var action := p.action.value;
      var st := ActionStatus(action);
      if f.update then
        (page.(processing := false, error := "Failed to " + action + " the application. Please try again."), s)
      else
        var written := SetStatus(s, id, st, Some(now));
        var notified := NotifyApplicant.Handle(NotifyRequest(id, st), written, site, f.notify).1;
        (page.(processing := false, success := "You have successfully " + st.Name() + " the application."), notified)
  }

  /** One visit: load, then press the button if it is offered. */
  function Visit(p: Params, s: Store, now: Timestamp, site: string, f: Faults): (r: (Page, Store))
    ensures !ShowsActions(Load(p, s, f)) ==> r == (Load(p, s, f), s)
    ensures ShowsActions(Load(p, s, f)) ==> r == HandleAction(Load(p, s, f), p, s, now, site, f)
  {
    var page := Load(p, s, f);
    if ShowsActions(page) then HandleAction(page, p, s, now, site, f) else (page, s)
  }

  /** After the button is pressed the controls are gone: the page offers one action. */
  lemma {:induction false} ActsOnce(p: Params, s: Store, now: Timestamp, site: string, f: Faults)
    requires ShowsActions(Load(p, s, f))
    ensures !ShowsActions(HandleAction(Load(p, s, f), p, s, now, site, f).0)
  {
    assert Valid(p);
    var action := p.action.value;
    if f.update {
      assert ("Failed to " + action + " the application. Please try again.")[0] == 'F';
    } else {
      var st := ActionStatus(action);
      assert ("You have successfully " + st.Name() + " the application.")[0] == 'Y';
    }
  }

  /**
   * A stale link does nothing: when the application is missing or already
   * decided at load time, the visit writes nothing and sends nothing.
   */
  lemma StaleLinkHarmless(p: Params, s: Store, now: Timestamp, site: string, f: Faults)
    requires Valid(p) && !IsPending(s, p.applicationId.value)
    ensures Visit(p, s, now, site, f).1 == s
    ensures Visit(p, s, now, site, f).0.error != ""
  {
  }

  /**
   * A visit to a pending application with working backend calls writes the
   * link's decision, stamps it, and e-mails the applicant with it when the
   * applicant has an address and the project exists.
   */
  lemma {:induction false} VisitDecides(p: Params, s: Store, now: Timestamp, site: string, f: Faults)
    requires Valid(p) && !f.lookup && !f.update && IsPending(s, p.applicationId.value)
    ensures var id := p.applicationId.value;
            var r := Visit(p, s, now, site, f);
            && r.1.applications[id].status == ActionStatus(p.action.value)
            && r.1.applications[id].updatedAt == now
            && r.0.success != "" && r.0.error == ""
    ensures var id := p.applicationId.value;
            var r := Visit(p, s, now, site, f);
            (&& !f.notify.applicationLookup
             && s.applications[id].projectId in s.projects
             && NotifyApplicant.HasAddress(s, s.applications[id].applicantId, f.notify))
            ==> |r.1.outbox| == |s.outbox| + 1
                && r.1.outbox[|s.outbox|].subject
                   == NotifyApplicant.Subject(s.projects[s.applications[id].projectId].title, ActionStatus(p.action.value).Name())
  {
    var id := p.applicationId.value;
    var st := ActionStatus(p.action.value);
    var written := SetStatus(s, id, st, Some(now));
    assert written.accounts == s.accounts && written.projects == s.projects;
    assert written.applications[id].projectId == s.applications[id].projectId;
    assert written.applications[id].applicantId == s.applications[id].applicantId;
    var r := NotifyApplicant.Handle(NotifyRequest(id, st), written, site, f.notify);
    assert st.Name() != "";
    assert r.1.(outbox := written.outbox) == written;
  }
}
