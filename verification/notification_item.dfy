/**
 * One entry of the owner's application notifications: the headline naming
 * the applicant and the project, and the footer that offers accept/reject
 * unless the entry is being processed.
 */
module NotificationItem {
  import opened Common
  import opened Text
  import opened Backend
  import opened Notifications

  /**
   * `first && last ? "first last" : "A user"`: never empty, and when both
   * names are present and free of spaces, splitting the result on the space
   * gives back exactly the two names.
   */
  function ApplicantName(a: Applicant): (name: string)
    ensures Present(a.firstName) && Present(a.lastName) ==> name == a.firstName.value + " " + a.lastName.value
    ensures !(Present(a.firstName) && Present(a.lastName)) ==> name == "A user"
    ensures name != ""
    ensures Present(a.firstName) && Present(a.lastName) && ' ' !in a.firstName.value && ' ' !in a.lastName.value
            ==> Split(name, ' ') == [a.firstName.value, a.lastName.value]
  {
    if Present(a.firstName) && Present(a.lastName) then
      var first, last := a.firstName.value, a.lastName.value;
      var name := first + " " + last;
      if ' ' !in first && ' ' !in last then
        assert Join([first, last], [' ']) == name by {
          assert Join([first, last][1..], [' ']) == last;
        }
        SplitJoin([first, last], ' ');
        name
      else name
    else "A user"
  }

  /** The card title, `<name> applied to "<project title>"`: it names both the applicant and the project. */
  function Headline(e: Entry): (t: string)
    ensures OccursAt(t, ApplicantName(e.applicant), 0)
    ensures OccursAt(t, e.title, |ApplicantName(e.applicant)| + 13)
    ensures |t| == |ApplicantName(e.applicant)| + |e.title| + 14
  {
    var name := ApplicantName(e.applicant);
    var t := name + " applied to \"" + e.title + "\"";
    assert t[..|name|] == name;
    assert t[|name| + 13..|name| + 13 + |e.title|] == e.title;
    t
  }

  /** The footer: a disabled "Wait..." button, or the two choices. */
  datatype Controls = Waiting | Choices

  /** `isProcessing` as the caller passes it; an omitted prop (`None`) defaults to false. */
  function Footer(isProcessing: Option<bool>): (f: Controls)
    ensures f == Choices <==> isProcessing != Some(true)
  {
    if isProcessing.GetOr(false) then Waiting else Choices
  }

  /**
   * On a fetched entry the name falls back to "A user" exactly when the
   * applicant's profile lookup fails, finds no profile, or finds one that
   * lacks a non-empty first or last name.
   */
  lemma FetchedName(s: Store, lk: Lookups, id: Id)
    requires id in s.applications
    ensures var who := s.applications[id].applicantId;
            var e := Decorate(s, lk, id);
            var found := id !in lk.profile && who in s.details;
            && (found && Present(s.details[who].firstName) && Present(s.details[who].lastName)
                ==> ApplicantName(e.applicant) == s.details[who].firstName.value + " " + s.details[who].lastName.value)
            && (!(found && Present(s.details[who].firstName) && Present(s.details[who].lastName))
                ==> ApplicantName(e.applicant) == "A user")
  {
  }
}
