/**
 * The application form: two free-text questions, every answer required
 * (non-blank), the answers handed on untrimmed, and the form emptied once
 * the submission has been handled, whatever its outcome.
 */
module ApplicationModal {
  import opened Common
  import opened Text

  /** The question ids, in the form's order. */
  const Questions: seq<string> := ["why", "experience"]

  /** The form: answers by question id, and whether "Please answer all questions." shows. */
  datatype Form = Form(answers: map<string, string>, showError: bool)

  /** What `onSubmit` receives. */
  datatype Answers = Answers(why: string, experience: string)

  const Empty := Form(map[], false)

  /** `handleChange`: record one answer and hide the error. */
  function HandleChange(form: Form, question: string, value: string): (r: Form)
    ensures question in r.answers && r.answers[question] == value
    ensures forall q :: q != question ==> (q in r.answers <==> q in form.answers)
    ensures forall q :: q != question && q in form.answers ==> r.answers[q] == form.answers[q]
    ensures !r.showError
  {
    Form(form.answers[question := value], false)
  }

  /** The answer to `q` is given and is not all whitespace (`!a || !a.trim()` is false). */
  predicate Answered(answers: map<string, string>, q: string) {
    q in answers && answers[q] != "" && Trim(answers[q]) != ""
  }

  /**
   * The browser's check of the `required` fields: every field holds some
   * text. A field shows `answers[q] || ""`, so a missing answer is empty.
   */
  predicate Filled(form: Form) {
    forall i :: 0 <= i < |Questions| ==> Questions[i] in form.answers && form.answers[Questions[i]] != ""
  }

  /**
   * The validation in `handleSubmit`: a missing or blank answer shows the
   * error and submits nothing; otherwise the raw answers are submitted.
   */
  function Validate(form: Form): (r: (Form, Option<Answers>))
    ensures r.1.Some? <==> forall i :: 0 <= i < |Questions| ==> Questions[i] in form.answers && !IsBlank(form.answers[Questions[i]])
    ensures r.1.Some? ==> && "why" in form.answers && "experience" in form.answers
                          && r.1.value == Answers(form.answers["why"], form.answers["experience"])
    ensures r.1.None? ==> r.0 == form.(showError := true)
    ensures r.1.Some? ==> r.0 == form && Filled(form)
  {
    if exists i :: 0 <= i < |Questions| && !Answered(form.answers, Questions[i]) then (form.(showError := true), None)
    else
      assert Answered(form.answers, Questions[0]) && Answered(form.answers, Questions[1]);
      (form, Some(Answers(form.answers["why"], form.answers["experience"])))
  }

  /**
   * Pressing "Submit Application": an empty field stops the browser's
   * `required` check before `handleSubmit` runs, so nothing changes and the
   * in-form error stays as it was. Only a filled form reaches the
   * validation, whose error is therefore shown only for a whitespace-only
   * answer.
   */
  function Press(form: Form): (r: (Form, Option<Answers>))
    ensures !Filled(form) ==> r == (form, None)
    ensures Filled(form) ==> r == Validate(form)
    ensures r.1.Some? <==> forall i :: 0 <= i < |Questions| ==> Questions[i] in form.answers && !IsBlank(form.answers[Questions[i]])
    ensures r.0.showError != form.showError ==>
              && Filled(form)
              && exists i :: 0 <= i < |Questions| && IsBlank(form.answers[Questions[i]])
  {
    if Filled(form) then Validate(form) else (form, None)
  }

  /** The form after `onSubmit` has resolved: the answers are cleared, success or not. */
  function Resolved(form: Form): (r: Form)
    ensures r.answers == map[] && r.showError == form.showError
  {
    form.(answers := map[])
  }

  /** The submit button is disabled while the parent is submitting. */
  predicate SubmitDisabled(loading: bool) {
    loading
  }

  /** Typing both answers into an empty form, with text that is not blank, makes it valid. */
  lemma {:induction false} FilledFormValid(why: string, experience: string)
    requires !IsBlank(why) && !IsBlank(experience)
    ensures Validate(HandleChange(HandleChange(Empty, "why", why), "experience", experience)).1
            == Some(Answers(why, experience))
  {
    var form := HandleChange(HandleChange(Empty, "why", why), "experience", experience);
    assert form.answers["why"] == why && form.answers["experience"] == experience;
  }

  /** The untouched form is stopped by the browser: nothing is submitted and the in-form error stays hidden. */
  lemma EmptyFormBlocked()
    ensures Press(Empty) == (Empty, None)
    ensures !Press(Empty).0.showError
  {
    assert Questions[0] !in Empty.answers;
  }

  /** A whitespace-only answer passes the browser's check and is refused by the validation. */
  lemma BlankRefused(experience: string)
    ensures Validate(HandleChange(HandleChange(Empty, "why", "  "), "experience", experience)).1.None?
    ensures Validate(HandleChange(HandleChange(Empty, "why", "  "), "experience", experience)).0.showError
    ensures experience != "" ==> Press(HandleChange(HandleChange(Empty, "why", "  "), "experience", experience)).0.showError
  {
    var form := HandleChange(HandleChange(Empty, "why", "  "), "experience", experience);
    assert form.answers["why"] == "  ";
    assert IsSpace(' ');
    assert IsBlank("  ");
    assert !Answered(form.answers, Questions[0]);
  }
}
