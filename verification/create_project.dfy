/**
 * The project creation form: four required fields with minimum lengths,
 * the stage offered as one of four choices, and a signed-out user stopped
 * with an error before anything is submitted.
 */
module CreateProject {
  import opened Forms
  import Stages

  const Rules: seq<Rule> := [
    Rule("title", 5, "Title must be at least 5 characters"),
    Rule("description", 20, "Description must be at least 20 characters"),
    Rule("category", 1, "Please select a category"),
    Rule("stage", 1, "Please select a project stage")]

  /** The form's values pass exactly when the four length rules hold. */
  lemma RulesMeaning(v: Values)
    ensures Errors(Rules, v) == [] <==>
              && |Value(v, "title")| >= 5 && |Value(v, "description")| >= 20
              && Value(v, "category") != "" && Value(v, "stage") != ""
  {
    assert Satisfies(v, Rules[2]) == (Value(v, "category") != "");
    assert Satisfies(v, Rules[3]) == (Value(v, "stage") != "");
  }

  /** The untouched form (every field "") is refused with all four messages, in order. */
  lemma DefaultsRefused(signedIn: bool)
    ensures Submit(Rules, signedIn, map[]) == Invalid([Rules[0].message, Rules[1].message, Rules[2].message, Rules[3].message])
  {
    assert Errors(Rules[3..], map[]) == [Rules[3].message];
    assert Rules[2..][1..] == Rules[3..];
    assert Rules[1..][1..] == Rules[2..];
  }

  /** With valid values, a signed-out user gets the login error and nothing is saved. */
  lemma SignedOutStopped(v: Values)
    requires Errors(Rules, v) == []
    ensures Submit(Rules, false, v) == SignedOut
  {
  }

  /** Whichever stage is chosen from the list satisfies the stage rule and gets a colour of its own. */
  lemma ChoicesSatisfyStageRule(v: Values, i: nat)
    requires i < |Stages.Choices|
    ensures Satisfies(v["stage" := Stages.Choices[i]], Rules[3])
    ensures Stages.StageColor(Stages.Choices[i]) != Stages.DefaultColor
  {
    Stages.ChoicesColored();
  }
}
