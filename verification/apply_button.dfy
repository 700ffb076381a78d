/**
 * The project page's "Contact Project Owner" button. It is hidden from
 * visitors who are signed out and from the project's own creator; sending
 * stores one chat message from the visitor to the project.
 */
module ApplyButton {
  import opened Common
  import opened Text
  import opened Backend
  import ProjectView
  import DirectMessage

  /** The button's state: its dialog (whose `open` is the button's `showModal`) and the sending flag. */
  datatype Button = Button(modal: DirectMessage.Modal, submitting: bool)

  /** The button renders for a signed-in visitor on a loaded project that the visitor did not create. */
  predicate Visible(user: Option<Id>, project: Option<ProjectView.Loaded>) {
    user.Some? && project.Some? && user.value != project.value.project.creatorId
  }

  /** The button is shown exactly to signed-in visitors who are not the project's owner. */
  lemma VisibleUnlessOwner(user: Option<Id>, project: Option<ProjectView.Loaded>)
    ensures Visible(user, project) <==> user.Some? && project.Some? && !ProjectView.IsOwner(user, project)
  {
  }

  /**
   * `handleSendMessage` as written: a successful insert closes the dialog by
   * setting `showModal` directly, which bypasses the dialog's clearing
   * handler, so the draft stays; a failed insert keeps the dialog open.
   */
  function SendAsWritten(b: Button, projectId: Id, sender: Id, message: string, s: Store, fails: bool): (r: (Button, Store))
    ensures !r.0.submitting
    ensures r.0.modal.draft == b.modal.draft
    ensures fails ==> r.1 == s && r.0.modal == b.modal
    ensures !fails ==> r.1 == s.(chat := s.chat + [ChatMessage(projectId, sender, message)]) && !r.0.modal.open
  {
    if fails then (b.(submitting := false), s)
    else (Button(b.modal.(open := false), false), s.(chat := s.chat + [ChatMessage(projectId, sender, message)]))
  }

  /**
   * The send with the draft cleared once the insert succeeds, as the
   * dialog's own comment intends: success closes the dialog the way its
   * handler does.
   */
  function Send(b: Button, projectId: Id, sender: Id, message: string, s: Store, fails: bool): (r: (Button, Store))
    ensures !r.0.submitting
    ensures fails ==> r.1 == s && r.0.modal == b.modal
    ensures !fails ==> r.1 == s.(chat := s.chat + [ChatMessage(projectId, sender, message)])
                       && r.0.modal == DirectMessage.OpenChange(b.modal, false)
    ensures !fails ==> !r.0.modal.open && r.0.modal.draft == ""
  {
    if fails then (b.(submitting := false), s)
    else (Button(DirectMessage.OpenChange(b.modal, false), false), s.(chat := s.chat + [ChatMessage(projectId, sender, message)]))
  }

  /** Pressing the button again sets `showModal`; the dialog keeps whatever draft it holds. */
  function Reopen(b: Button): (r: Button)
    ensures r.modal.open && r.modal.draft == b.modal.draft && r.submitting == b.submitting
  {
    b.(modal := b.modal.(open := true))
  }

  /**
   * Contacting the owner from the dialog as written: the dialog's submit
   * gate, then `handleSendMessage`. A blank draft sends nothing; otherwise
   * the draft is stored exactly as typed, untrimmed, and a successful send
   * closes the dialog with the draft still in it.
   */
  function ContactAsWritten(b: Button, projectId: Id, sender: Id, s: Store, fails: bool): (r: (Button, Store))
    ensures IsBlank(b.modal.draft) ==> r == (b, s)
    ensures !IsBlank(b.modal.draft) ==> r == SendAsWritten(b, projectId, sender, b.modal.draft, s, fails)
    ensures r.1.chat == s.chat || (!IsBlank(b.modal.draft) && r.1.chat == s.chat + [ChatMessage(projectId, sender, b.modal.draft)])
    ensures r.0.modal.draft == b.modal.draft
  {
    var (m, sent) := DirectMessage.Submit(b.modal);
    if sent.None? then (b, s) else SendAsWritten(b, projectId, sender, sent.value, s, fails)
  }

  /**
   * The corrected flow: the same gate, then the send that clears the draft
   * on success. A blank draft sends nothing; otherwise the draft is stored
   * exactly as typed, untrimmed, from the visitor to the project.
   */
  function Contact(b: Button, projectId: Id, sender: Id, s: Store, fails: bool): (r: (Button, Store))
    ensures IsBlank(b.modal.draft) ==> r == (b, s)
    ensures !IsBlank(b.modal.draft) ==> r == Send(b, projectId, sender, b.modal.draft, s, fails)
    ensures r.1.chat == s.chat || (!IsBlank(b.modal.draft) && r.1.chat == s.chat + [ChatMessage(projectId, sender, b.modal.draft)])
  {
    var (m, sent) := DirectMessage.Submit(b.modal);
    if sent.None? then (b, s) else Send(b, projectId, sender, sent.value, s, fails)
  }

  /**
   * As written, a message sent successfully is still in the box when the
   * dialog is opened again: sending "Hello" and reopening shows "Hello".
   */
  lemma StaleDraftAsWritten(b: Button, projectId: Id, sender: Id, s: Store)
    requires !IsBlank(b.modal.draft)
    ensures var r := ContactAsWritten(b, projectId, sender, s, false);
            && r.1.chat == s.chat + [ChatMessage(projectId, sender, b.modal.draft)]
            && Reopen(r.0).modal.draft == b.modal.draft != ""
    ensures var hello := Button(DirectMessage.Modal(true, "Hello"), true);
            Reopen(ContactAsWritten(hello, projectId, sender, s, false).0).modal.draft == "Hello"
  {
    assert !IsSpace('H');
  }

  /** With the draft cleared on success, the dialog opens empty after any successful send. */
  lemma DraftClearedAfterSend(b: Button, projectId: Id, sender: Id, s: Store)
    ensures Reopen(Contact(b, projectId, sender, s, false).0).modal.draft == ""
            || IsBlank(b.modal.draft)
  {
  }

  /** A failed send keeps the dialog open with the draft, so the visitor can retry, as written and corrected alike. */
  lemma FailedSendKeepsDraft(b: Button, projectId: Id, sender: Id, s: Store)
    requires b.modal.open && !IsBlank(b.modal.draft)
    ensures var r := ContactAsWritten(b, projectId, sender, s, true);
            r.0.modal == b.modal && r.1 == s
    ensures Contact(b, projectId, sender, s, true) == ContactAsWritten(b, projectId, sender, s, true)
  {
  }
}
