/**
 * The minimum-length rules the profile and project forms declare
 * (`z.string().min(n, message)`), checked field by field in order.
 */
module Forms {

  /** A rule: the field must have at least `min` characters, else `message` is shown. */
  datatype Rule = Rule(field: string, min: nat, message: string)

  /** The form's values by field name; a field never edited keeps its default "". */
  type Values = map<string, string>

  function Value(values: Values, field: string): string {
    if field in values then values[field] else ""
  }

  predicate Satisfies(values: Values, r: Rule) {
    |Value(values, r.field)| >= r.min
  }

  /** The messages of the failing rules, in the rules' order. */
  function Errors(rules: seq<Rule>, values: Values): (errors: seq<string>)
    ensures |errors| <= |rules|
    ensures errors == [] <==> forall i :: 0 <= i < |rules| ==> Satisfies(values, rules[i])
    ensures forall m :: m in errors ==> exists i :: 0 <= i < |rules| && rules[i].message == m && !Satisfies(values, rules[i])
    decreases |rules|
  {
    if |rules| == 0 then []
    else
      var rest := Errors(rules[1..], values);
      assert forall i :: 1 <= i < |rules| ==> rules[i] == rules[1..][i - 1];
      if Satisfies(values, rules[0]) then rest else [rules[0].message] + rest
  }

  /** A failing rule's message is reported. */
  lemma {:induction false} FailingRuleReported(rules: seq<Rule>, values: Values, i: nat)
    requires i < |rules| && !Satisfies(values, rules[i])
    ensures rules[i].message in Errors(rules, values)
    decreases i
  {
    if i > 0 {
      assert rules[1..][i - 1] == rules[i];
      FailingRuleReported(rules[1..], values, i - 1);
    }
  }

  /** What submitting a form does: the rules first, then the signed-in check, then the save path. */
  datatype Outcome = Invalid(errors: seq<string>) | SignedOut | Saved

  function Submit(rules: seq<Rule>, signedIn: bool, values: Values): (r: Outcome)
    ensures r.Invalid? <==> exists i :: 0 <= i < |rules| && !Satisfies(values, rules[i])
    ensures r.Invalid? ==> r.errors == Errors(rules, values) && |r.errors| > 0
    ensures r == Saved <==> signedIn && forall i :: 0 <= i < |rules| ==> Satisfies(values, rules[i])
  {
    if Errors(rules, values) != [] then Invalid(Errors(rules, values))
    else if !signedIn then SignedOut
    else Saved
  }
}
