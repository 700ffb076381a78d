/**
 * The project owner's pending-applications panel. Accepting first invokes
 * `project-chat-init` and only then writes the status; rejecting writes the
 * status alone. Neither touches `updated_at` nor sends an e-mail. The ids
 * being processed form a set that hides that application's buttons.
 */
module PendingPanel {
  import opened Common
  import opened Backend
  import opened Http
  import ChatInit

  /** Which backend calls fail: those inside the chat function, and the panel's own update. */
  datatype Faults = Faults(chat: ChatInit.Faults, update: bool)

  /** What a handler leaves behind: the store, the processing set, and whether `onApplicationUpdate` ran. */
  datatype Outcome = Outcome(store: Store, processing: set<Id>, updated: bool)

  /** The processing set while a handler for `id` is awaiting the backend. */
  function InFlight(processing: set<Id>, id: Id): (p: set<Id>)
    ensures id in p && forall k :: k != id ==> (k in p <==> k in processing)
  {
    processing + {id}
  }

  /** The set once the handler's `finally` has run. */
  function Done(processing: set<Id>, id: Id): (p: set<Id>)
    ensures id !in p && forall k :: k != id ==> (k in p <==> k in processing)
  {
    processing - {id}
  }

  /** An application's accept/reject buttons are shown only while its id is not processing. */
  predicate ShowsControls(processing: set<Id>, id: Id) {
    id !in processing
  }

  /** The chat function's request from the panel. */
  function ChatRequest(id: Id, applicant: Id): ChatInit.Request {
    ChatInit.Request("POST", Some(ChatInit.Body(Some(id), Some(applicant))))
  }

  /** `handleAccept`: chat first, then the status; an error from either stops the handler there. */
  function Accept(processing: set<Id>, id: Id, applicant: Id, s: Store, f: Faults): (r: Outcome)
    ensures r.processing == Done(processing, id)
    ensures r.store.outbox == s.outbox
    ensures r.store.projects == s.projects && r.store.details == s.details && r.store.accounts == s.accounts
    // an error from the chat function skips the update and leaves the store as it was
    ensures !Succeeded(ChatInit.Handle(ChatRequest(id, applicant), s, f.chat).0) ==> r.store == s && !r.updated
    // otherwise one welcome message was posted
    ensures Succeeded(ChatInit.Handle(ChatRequest(id, applicant), s, f.chat).0) ==>
              && id in s.applications && s.applications[id].projectId in s.projects
              && r.store.chat == s.chat + [ChatInit.Welcome(s, id)]
    // `onApplicationUpdate` runs only when both steps succeeded, and then the row is accepted
    ensures r.updated <==> Succeeded(ChatInit.Handle(ChatRequest(id, applicant), s, f.chat).0) && !f.update
    // a failed panel update leaves what the chat function wrote, its own status write included
    ensures Succeeded(ChatInit.Handle(ChatRequest(id, applicant), s, f.chat).0) && f.update ==>
              r.store == ChatInit.Handle(ChatRequest(id, applicant), s, f.chat).1
    ensures r.updated ==>
              && r.store.applications.Keys == s.applications.Keys
              && r.store.applications[id] == s.applications[id].(status := Accepted)
              && forall k :: k in s.applications && k != id ==> r.store.applications[k] == s.applications[k]
  {
    var chat := ChatInit.Handle(ChatRequest(id, applicant), s, f.chat);
    if !Succeeded(chat.0) then Outcome(chat.1, Done(processing, id), false)
    else if f.update then Outcome(chat.1, Done(processing, id), false)
    else Outcome(SetStatus(chat.1, id, Accepted, None), Done(processing, id), true)
  }

  /** `handleReject`: the status alone; no chat message, no e-mail, `updated_at` untouched. */
  function Reject(processing: set<Id>, id: Id, s: Store, update: bool): (r: Outcome)
    ensures r.processing == Done(processing, id)
    ensures r.store.chat == s.chat && r.store.outbox == s.outbox
    ensures r.store.projects == s.projects && r.store.details == s.details && r.store.accounts == s.accounts
    ensures r.updated <==> !update
    ensures update ==> r.store == s
    ensures !update ==>
              && r.store.applications.Keys == s.applications.Keys
              && (id in s.applications ==> r.store.applications[id] == s.applications[id].(status := Rejected))
              && forall k :: k in s.applications && k != id ==> r.store.applications[k] == s.applications[k]
  {
    if update then Outcome(s, Done(processing, id), false)
    else Outcome(SetStatus(s, id, Rejected, None), Done(processing, id), true)
  }

  /**
   * The panel's accept ends with the row accepted even when the chat
   * function's own status write failed: the panel writes it again.
   */
  lemma {:induction false} AcceptWritesTwice(processing: set<Id>, id: Id, applicant: Id, s: Store, chatFaults: ChatInit.Faults)
    requires id != "" && applicant != ""
    requires id in s.applications && s.applications[id].projectId in s.projects
    requires !chatFaults.applicationLookup && !chatFaults.projectLookup && !chatFaults.insert
    ensures var r := Accept(processing, id, applicant, s, Faults(chatFaults, false));
            && r.updated
            && r.store.applications[id].status == Accepted
            && r.store.applications[id].updatedAt == s.applications[id].updatedAt
            && |r.store.chat| == |s.chat| + 1
  {
    var chat := ChatInit.Handle(ChatRequest(id, applicant), s, chatFaults);
    assert chat.0 == ChatInit.Initialized;
  }

  /** While one application is processing its buttons are hidden; the others keep theirs. */
  lemma ProcessingHidesControls(processing: set<Id>, id: Id, other: Id)
    requires other != id
    ensures !ShowsControls(InFlight(processing, id), id)
    ensures ShowsControls(InFlight(processing, id), other) == ShowsControls(processing, other)
    ensures ShowsControls(Done(InFlight(processing, id), id), id)
  {
  }
}
