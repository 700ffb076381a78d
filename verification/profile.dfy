/**
 * The profile page: the skills editor (a list kept free of duplicates and
 * blanks) and the form's length rules. Submitting only logs the values, so
 * the model records whether the success path is taken (`Forms.Submit`).
 */
module ProfilePage {
  import opened Common
  import opened Text
  import opened Forms

  /** The skills list and the text in the "add a skill" box. */
  datatype SkillEditor = SkillEditor(skills: seq<string>, input: string)

  /** The invariant the editor keeps: no duplicates, no blank or untrimmed entries. */
  predicate Valid(skills: seq<string>) {
    Distinct(skills) && forall i :: 0 <= i < |skills| ==> Clean(skills[i])
  }

  /** An entry as `addSkill` stores it: non-empty and already trimmed. */
  predicate Clean(skill: string) {
    skill != "" && Trim(skill) == skill
  }

  /** `addSkill`: append the trimmed input when it is non-empty and new, then clear the box. */
  function AddSkill(e: SkillEditor): (r: SkillEditor)
    ensures Trim(e.input) != "" && Trim(e.input) !in e.skills ==> r == SkillEditor(e.skills + [Trim(e.input)], "")
    ensures Trim(e.input) == "" || Trim(e.input) in e.skills ==> r == e
    ensures Valid(e.skills) ==> Valid(r.skills)
  {
    var t := Trim(e.input);
    if t != "" && t !in e.skills then
      TrimIdempotent(e.input);
      AppendKeepsValid(e.skills, t);
      SkillEditor(e.skills + [t], "")
    else e
  }

  /** Appending a clean, new entry keeps the list valid. */
  lemma AppendKeepsValid(skills: seq<string>, t: string)
    requires Clean(t) && t !in skills
    ensures Valid(skills) ==> Valid(skills + [t])
  {
    var r := skills + [t];
    if Valid(skills) {
      forall i | 0 <= i < |r| ensures Clean(r[i]) {
        if i < |skills| { assert r[i] == skills[i]; }
      }
      forall i, j | 0 <= i < j < |r| ensures r[i] != r[j] {
        if j == |skills| { assert r[i] == skills[i] && skills[i] in skills; }
      }
    }
  }

  /** `removeSkill`: drop every entry equal to the argument, keeping the rest in order. */
  function RemoveSkill(e: SkillEditor, skill: string): (r: SkillEditor)
    ensures r.input == e.input
    ensures skill !in r.skills
    ensures forall s :: s in r.skills <==> s in e.skills && s != skill
    ensures Subsequence(r.skills, e.skills)
    ensures Valid(e.skills) ==> Valid(r.skills)
  {
    var kept := Filter(e.skills, (s: string) => s != skill);
    FilterKeepsValid(e.skills, (s: string) => s != skill);
    FilterCounts(e.skills, (s: string) => s != skill);
    SkillEditor(kept, e.input)
  }

  /** Filtering a valid list leaves it valid. */
  lemma FilterKeepsValid(skills: seq<string>, keep: string -> bool)
    ensures Valid(skills) ==> Valid(Filter(skills, keep))
  {
    if Valid(skills) {
      var r := Filter(skills, keep);
      FilterKeepsDistinct(skills, keep);
      FilterCounts(skills, keep);
      forall i | 0 <= i < |r| ensures Clean(r[i]) {
        assert r[i] in skills;
      }
    }
  }

  /**
   * `handleKeyDown`: Enter with a non-blank box stops the form submitting
   * and adds the skill; any other key does nothing. The result's flag says
   * whether the default action was prevented.
   */
  function KeyDown(e: SkillEditor, key: string): (r: (SkillEditor, bool))
    ensures r.1 <==> key == "Enter" && Trim(e.input) != ""
    ensures r.1 ==> r.0 == AddSkill(e)
    ensures !r.1 ==> r.0 == e
  {
    if key == "Enter" && Trim(e.input) != "" then (AddSkill(e), true) else (e, false)
  }

  /** Removing a skill just added restores the list it was added to. */
  lemma AddThenRemove(e: SkillEditor)
    requires Trim(e.input) != "" && Trim(e.input) !in e.skills
    ensures RemoveSkill(AddSkill(e), Trim(e.input)).skills == e.skills
  {
    var t := Trim(e.input);
    var added := AddSkill(e).skills;
    assert added == e.skills + [t];
    FilterDropsLast(e.skills, t);
  }

  /** Filtering `xs + [x]` with `!= x` gives `xs` when `x` is not in `xs`. */
  lemma {:induction false} FilterDropsLast(xs: seq<string>, x: string)
    requires x !in xs
    ensures Filter(xs + [x], (s: string) => s != x) == xs
    decreases |xs|
  {
    if |xs| == 0 {
      assert [x] == [x] + [];
      FilterCons(x, [], (s: string) => s != x);
    } else {
      assert xs + [x] == [xs[0]] + (xs[1..] + [x]);
      FilterCons(xs[0], xs[1..] + [x], (s: string) => s != x);
      FilterDropsLast(xs[1..], x);
    }
  }

  /** The profile form's rules. */
  const Rules: seq<Rule> := [
    Rule("firstName", 2, "First name must be at least 2 characters"),
    Rule("lastName", 2, "Last name must be at least 2 characters"),
    Rule("title", 3, "Professional title must be at least 3 characters"),
    Rule("bio", 20, "Bio must be at least 20 characters")]

  /** The form's values pass exactly when the four length rules hold. */
  lemma RulesMeaning(v: Values)
    ensures Errors(Rules, v) == [] <==>
              && |Value(v, "firstName")| >= 2 && |Value(v, "lastName")| >= 2
              && |Value(v, "title")| >= 3 && |Value(v, "bio")| >= 20
  {
    assert Satisfies(v, Rules[0]) == (|Value(v, "firstName")| >= 2);
    assert Satisfies(v, Rules[3]) == (|Value(v, "bio")| >= 20);
  }
}
