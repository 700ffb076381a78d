/**
 * The dialog for writing to a project's owner. It hands the draft to its
 * caller only when the draft has non-blank text, never clears the draft on
 * submit, and clears it when the dialog is closed through its own handler.
 */
module DirectMessage {
  import opened Common
  import opened Text

  /** The parent's `open` flag and the dialog's own draft text. */
  datatype Modal = Modal(open: bool, draft: string)

  /** `handleSubmit`: the dialog unchanged, and the text passed to `onSubmit` (`None`: not called). */
  function Submit(m: Modal): (r: (Modal, Option<string>))
    ensures r.0 == m
    ensures r.1.Some? <==> !IsBlank(m.draft)
    ensures r.1.Some? ==> r.1.value == m.draft
  {
    if Trim(m.draft) != "" then (m, Some(m.draft)) else (m, None)
  }

  /** `handleOpenChange`: closing clears the draft, opening keeps it. */
  function OpenChange(m: Modal, open: bool): (r: Modal)
    ensures r.open == open
    ensures !open ==> r.draft == ""
    ensures open ==> r.draft == m.draft
  {
    if open then m.(open := true) else Modal(false, "")
  }

  /** The send button is disabled while sending or while the draft is blank. */
  predicate SendDisabled(m: Modal, loading: bool) {
    loading || Trim(m.draft) == ""
  }

  /** The hint under the box shows only for an empty draft. */
  predicate ShowsHint(m: Modal) {
    |m.draft| == 0
  }

  /**
   * The button and the handler agree: when not sending, the button is
   * enabled exactly when submitting would call `onSubmit`. A draft of spaces
   * shows no hint yet cannot be sent.
   */
  lemma ButtonMatchesHandler(m: Modal)
    ensures !SendDisabled(m, false) <==> Submit(m).1.Some?
    ensures ShowsHint(m) ==> SendDisabled(m, false)
    ensures m.draft == " " ==> !ShowsHint(m) && SendDisabled(m, false)
  {
    assert IsSpace(' ');
  }
}
