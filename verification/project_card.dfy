/**
 * A project card: the apply flow (the application form, then one insert
 * into `project_applications`), the match badge, and the apply button's
 * gate. The card never checks who owns the project.
 */
module ProjectCard {
  import opened Common
  import opened Text
  import opened Url
  import opened Backend
  import opened ApplicationModal

  /** The card's own state: whether the form is open and whether an insert is in flight. */
  datatype Card = Card(showModal: bool, submitting: bool)

  /** The stored application text built from the two answers. */
  function Message(why: string, experience: string): string {
    "Why: " + why + "\nExperience: " + experience
  }

  /**
   * `handleApply`: insert a pending application from the signed-in user.
   * The insert fails on a backend error, without a user (the applicant
   * column is required), or when the new key is taken.
   */
  function HandleApply(card: Card, projectId: Id, user: Option<Id>, a: Answers, s: Store,
                       newId: Id, now: Timestamp, fails: bool): (r: (Card, Store))
    ensures !r.0.submitting
    ensures r.1 != s <==> user.Some? && !fails && newId !in s.applications
    // success: exactly one new pending row, and the form closes
    ensures r.1 != s ==>
              && r.1 == s.(applications := s.applications[newId := Application(projectId, user.value, Message(a.why, a.experience), Pending, now)])
              && !r.0.showModal
    // failure: nothing stored and the form stays as it was
    ensures r.1 == s ==> r.0 == card.(submitting := false)
  {
    if user.None? || fails || newId in s.applications then (card.(submitting := false), s)
    else
      var row := Application(projectId, user.value, Message(a.why, a.experience), Pending, now);
      assert newId in s.(applications := s.applications[newId := row]).applications;
      (Card(false, false), s.(applications := s.applications[newId := row]))
  }

  /** The apply button is enabled exactly when someone is signed in. */
  predicate ApplyEnabled(user: Option<Id>) {
    user.Some?
  }

  /** `{matchScore && …}`: the badge shows only for a present, non-zero score. */
  predicate ShowsMatch(score: Option<int>) {
    score.Some? && score.value != 0
  }

  /**
   * Submitting the form from the card: the browser's `required` check, the
   * validation, then the insert, then the form is emptied once the insert
   * has been handled.
   */
  function Submit(form: Form, card: Card, projectId: Id, user: Option<Id>, s: Store,
                  newId: Id, now: Timestamp, fails: bool): (r: (Form, Card, Store))
    ensures !Filled(form) ==> r == (form, card, s)
    ensures Filled(form) && Validate(form).1.None? ==> r == (form.(showError := true), card, s)
    ensures Validate(form).1.Some? ==>
              && r.0.answers == map[]
              && (r.1, r.2) == HandleApply(card, projectId, user, Validate(form).1.value, s, newId, now, fails)
    ensures r.2 != s ==> Validate(form).1.Some?
  {
    var (checked, answers) := Press(form);
    if answers.None? then (checked, card, s)
    else
      var (card', s') := HandleApply(card, projectId, user, answers.value, s, newId, now, fails);
      (Resolved(checked), card', s')
  }

  /** A failed insert keeps the form open but has already thrown the answers away. */
  lemma FailedApplyLosesAnswers(form: Form, projectId: Id, user: Option<Id>, s: Store, newId: Id, now: Timestamp)
    requires Validate(form).1.Some?
    ensures var r := Submit(form, Card(true, true), projectId, user, s, newId, now, true);
            r.1.showModal && r.2 == s && r.0.answers == map[]
  {
  }

  /**
   * The card does not stop a project's creator from applying to it: the
   * insert goes through for any signed-in user.
   */
  lemma CreatorCanApply(card: Card, s: Store, projectId: Id, a: Answers, newId: Id, now: Timestamp)
    requires projectId in s.projects && newId !in s.applications
    ensures var r := HandleApply(card, projectId, Some(s.projects[projectId].creatorId), a, s, newId, now, false);
            && newId in r.1.applications
            && r.1.applications[newId].applicantId == s.projects[projectId].creatorId
            && r.1.applications[newId].status == Pending
  {
  }

  /** The answers can be read back from the message when the first one is a single line. */
  lemma {:induction false} MessageDecodes(why1: string, exp1: string, why2: string, exp2: string)
    requires '\n' !in why1 && '\n' !in why2
    requires Message(why1, exp1) == Message(why2, exp2)
    ensures why1 == why2 && exp1 == exp2
  {
    var m := Message(why1, exp1);
    assert m == ("Why: " + why1) + ['\n'] + ("Experience: " + exp1);
    assert m == ("Why: " + why2) + ['\n'] + ("Experience: " + exp2);
    IndexOfAfter("Why: " + why1, '\n', "Experience: " + exp1);
    IndexOfAfter("Why: " + why2, '\n', "Experience: " + exp2);
    assert |why1| == |why2|;
    assert why1 == m[5..5 + |why1|];
    assert why2 == m[5..5 + |why2|];
    assert exp1 == m[5 + |why1| + 13..];
    assert exp2 == m[5 + |why2| + 13..];
  }

  /** Without that condition two different pairs of answers are stored as the same message. */
  lemma MessageAmbiguous()
    ensures Message("a\nExperience: b", "c") == Message("a", "b\nExperience: c")
    ensures Answers("a\nExperience: b", "c") != Answers("a", "b\nExperience: c")
  {
    assert "a\nExperience: b" != "a";
  }
}
