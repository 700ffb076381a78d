/**
 * The application lifecycle across its entry points. An owner can decide a
 * pending application from the e-mailed link's page, through the
 * `respond-to-application` function, through `project-chat-init`, from the
 * pending-applications panel, or from the notifications list. All of them
 * end with the same status, but they differ in the side effects that
 * come with it. This module states those differences side by side.
 */
module Workflow {
  import opened Common
  import opened Text
  import opened Url
  import opened Backend
  import ApplicationEmail
  import RespondPage
  import RespondFunction
  import ChatInit
  import NotifyApplicant
  import PendingPanel
  import Notifications

  /** After `s'`, the row `id` has status `st`, and `updated_at` is `stamp` or, without one, as it was in `s`. */
  predicate Decided(s: Store, s': Store, id: Id, st: Status, stamp: Option<Timestamp>)
    requires id in s.applications
  {
    && s'.applications.Keys == s.applications.Keys
    && s'.applications[id].status == st
    && s'.applications[id].updatedAt == stamp.GetOr(s.applications[id].updatedAt)
    && (forall k :: k in s.applications && k != id ==> s'.applications[k] == s.applications[k])
  }

  /** The application `id` is pending and its project exists. */
  predicate Open(s: Store, id: Id) {
    id != "" && id in s.applications && s.applications[id].status == Pending
    && s.applications[id].projectId in s.projects
  }

  /** The e-mailed link's page accepts and stamps; it posts no chat message. */
  lemma {:induction false} AcceptByLink(s: Store, id: Id, now: Timestamp, site: string, notify: NotifyApplicant.Faults)
    requires Open(s, id)
    ensures var r := RespondPage.Visit(RespondPage.Params(Some(id), Some("accept")), s, now, site,
                                       RespondPage.Faults(false, false, notify)).1;
            Decided(s, r, id, Accepted, Some(now)) && r.chat == s.chat
  {
    var p := RespondPage.Params(Some(id), Some("accept"));
    var f := RespondPage.Faults(false, false, notify);
    RespondPage.VisitDecides(p, s, now, site, f);
    assert RespondPage.ShowsActions(RespondPage.Load(p, s, f));
    var written := SetStatus(s, id, Accepted, Some(now));
    assert RespondPage.Visit(p, s, now, site, f).1.(outbox := s.outbox) == written;
  }

  /** The function accepts and stamps; it posts no chat message and sends no e-mail. */
  lemma AcceptByFunction(s: Store, id: Id, now: Timestamp)
    requires Open(s, id)
    ensures var r := RespondFunction.Handle(RespondFunction.Request("GET", Some(id), Some("accept")), s, now,
                                            RespondFunction.Faults(false, false)).1;
            Decided(s, r, id, Accepted, Some(now)) && r.chat == s.chat && r.outbox == s.outbox
  {
  }

  /** The chat function posts the welcome message and accepts, leaving `updated_at` alone. */
  lemma AcceptByChatInit(s: Store, id: Id, applicant: Id)
    requires Open(s, id) && applicant != ""
    ensures var r := ChatInit.Handle(ChatInit.Request("POST", Some(ChatInit.Body(Some(id), Some(applicant)))), s,
                                     ChatInit.NoFaults).1;
            Decided(s, r, id, Accepted, None) && r.chat == s.chat + [ChatInit.Welcome(s, id)] && r.outbox == s.outbox
  {
  }

  /** The panel goes through the chat function and then writes the status again, without a stamp. */
  lemma {:induction false} AcceptByPanel(s: Store, id: Id, applicant: Id, processing: set<Id>)
    requires Open(s, id) && applicant != ""
    ensures var r := PendingPanel.Accept(processing, id, applicant, s, PendingPanel.Faults(ChatInit.NoFaults, false));
            Decided(s, r.store, id, Accepted, None) && r.store.chat == s.chat + [ChatInit.Welcome(s, id)]
            && r.store.outbox == s.outbox && r.updated
  {
    PendingPanel.AcceptWritesTwice(processing, id, applicant, s, ChatInit.NoFaults);
  }

  /** The notifications list accepts and stamps; it posts no message and sends no e-mail. */
  lemma AcceptByNotifications(entries: seq<Notifications.Entry>, s: Store, id: Id, now: Timestamp)
    requires Open(s, id)
    ensures var r := Notifications.UpdateStatus(entries, s, id, Accepted, now, false).1;
            Decided(s, r, id, Accepted, Some(now)) && r.chat == s.chat && r.outbox == s.outbox
  {
  }

  /**
   * Rejections: the link's page, the function, the panel and the list all
   * end with the row rejected and post no chat message; only the page and
   * the function and the list stamp `updated_at`.
   */
  lemma {:induction false} RejectPaths(s: Store, id: Id, now: Timestamp, site: string, entries: seq<Notifications.Entry>, processing: set<Id>)
    requires Open(s, id)
    ensures var f := RespondPage.Faults(false, false, NotifyApplicant.NoFaults);
            var r := RespondPage.Visit(RespondPage.Params(Some(id), Some("reject")), s, now, site, f).1;
            Decided(s, r, id, Rejected, Some(now)) && r.chat == s.chat
    ensures var r := RespondFunction.Handle(RespondFunction.Request("GET", Some(id), Some("reject")), s, now,
                                            RespondFunction.Faults(false, false)).1;
            Decided(s, r, id, Rejected, Some(now)) && r.chat == s.chat && r.outbox == s.outbox
    ensures var r := PendingPanel.Reject(processing, id, s, false).store;
            Decided(s, r, id, Rejected, None) && r.chat == s.chat && r.outbox == s.outbox
    ensures var r := Notifications.UpdateStatus(entries, s, id, Rejected, now, false).1;
            Decided(s, r, id, Rejected, Some(now)) && r.chat == s.chat && r.outbox == s.outbox
  {
    var p := RespondPage.Params(Some(id), Some("reject"));
    var f := RespondPage.Faults(false, false, NotifyApplicant.NoFaults);
    RespondPage.VisitDecides(p, s, now, site, f);
    assert RespondPage.ShowsActions(RespondPage.Load(p, s, f));
    var written := SetStatus(s, id, Rejected, Some(now));
    assert RespondPage.Visit(p, s, now, site, f).1.(outbox := s.outbox) == written;
  }

  /**
   * Of all the entry points only the link's page e-mails the applicant: it
   * sends the decision when the applicant has an address.
   */
  lemma {:induction false} OnlyPageEmails(s: Store, id: Id, now: Timestamp, site: string)
    requires Open(s, id)
    requires NotifyApplicant.HasAddress(s, s.applications[id].applicantId, NotifyApplicant.NoFaults)
    ensures var f := RespondPage.Faults(false, false, NotifyApplicant.NoFaults);
            var r := RespondPage.Visit(RespondPage.Params(Some(id), Some("accept")), s, now, site, f).1;
            |r.outbox| == |s.outbox| + 1
            && r.outbox[|s.outbox|].subject == NotifyApplicant.Subject(s.projects[s.applications[id].projectId].title, "accepted")
  {
    var p := RespondPage.Params(Some(id), Some("accept"));
    var f := RespondPage.Faults(false, false, NotifyApplicant.NoFaults);
    RespondPage.VisitDecides(p, s, now, site, f);
  }

  /**
   * The e-mailed accept link works end to end: the page reads back the id
   * and the action, and a visit to a pending application accepts it.
   */
  lemma {:induction false} EmailedLinkAccepts(baseUrl: string, s: Store, id: Id, now: Timestamp, site: string)
    requires '?' !in baseUrl
    requires '&' !in id && '#' !in id && '%' !in id && '+' !in id
    requires Open(s, id)
    ensures var link := ApplicationEmail.AcceptLink(baseUrl, id);
            var p := RespondPage.Params(Param(link, "applicationId"), Param(link, "action"));
            var r := RespondPage.Visit(p, s, now, site, RespondPage.Faults(false, false, NotifyApplicant.NoFaults));
            r.1.applications[id].status == Accepted && r.0.success != ""
  {
    assert '&' !in "accept";
    var link := ApplicationEmail.ActionLink(baseUrl, id, "accept");
    assert Param(link, "applicationId") == Some(id) && Param(link, "action") == Some("accept");
    var p := RespondPage.Params(Param(link, "applicationId"), Param(link, "action"));
    RespondPage.VisitDecides(p, s, now, site, RespondPage.Faults(false, false, NotifyApplicant.NoFaults));
  }

  /**
   * A second click on the link after a decision is harmless on the page but
   * not through the function: the function overwrites the earlier decision.
   */
  lemma {:induction false} SecondClick(s: Store, id: Id, now: Timestamp, later: Timestamp, site: string)
    requires Open(s, id)
    ensures var f := RespondPage.Faults(false, false, NotifyApplicant.NoFaults);
            var first := RespondPage.Visit(RespondPage.Params(Some(id), Some("accept")), s, now, site, f).1;
            RespondPage.Visit(RespondPage.Params(Some(id), Some("reject")), first, later, site, f).1 == first
    ensures var first := RespondFunction.Handle(RespondFunction.Request("GET", Some(id), Some("accept")), s, now,
                                                RespondFunction.Faults(false, false)).1;
            RespondFunction.Handle(RespondFunction.Request("GET", Some(id), Some("reject")), first, later,
                                   RespondFunction.Faults(false, false)).1.applications[id].status == Rejected
  {
    var f := RespondPage.Faults(false, false, NotifyApplicant.NoFaults);
    AcceptByLink(s, id, now, site, NotifyApplicant.NoFaults);
    var first := RespondPage.Visit(RespondPage.Params(Some(id), Some("accept")), s, now, site, f).1;
    RespondPage.StaleLinkHarmless(RespondPage.Params(Some(id), Some("reject")), first, later, site, f);
    AcceptByFunction(s, id, now);
  }
}
