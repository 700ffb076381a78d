/**
 * The people directory: profiles at least 70% complete, searched
 * case-insensitively by name, skills and location.
 */
module Discover {
  import opened Common
  import opened Text
  import opened Backend

  /** A `profile_details` row with its key. */
  datatype Profile = Profile(id: Id, person: Person)

  /** 1 for a truthy text field, 0 otherwise. */
  function Count(field: Option<string>): (n: nat)
    ensures n == 1 <==> Present(field)
    ensures n <= 1
  {
    if Present(field) then 1 else 0
  }

  /** How many of the nine profile fields are filled; skills count only when the list is non-empty. */
  function Filled(p: Person): (n: nat)
    ensures n <= 9
    ensures n == 0 <==> (&& !Present(p.firstName) && !Present(p.lastName) && !Present(p.title)
                         && !Present(p.location) && (p.skills.None? || |p.skills.value| == 0)
                         && !Present(p.industry) && !Present(p.education) && !Present(p.experience)
                         && !Present(p.bio))
  {
    Count(p.firstName) + Count(p.lastName) + Count(p.title) + Count(p.location)
    + (if p.skills.Some? && |p.skills.value| > 0 then 1 else 0)
    + Count(p.industry) + Count(p.education) + Count(p.experience) + Count(p.bio)
  }

  /**
   * `Math.round(filled / 9 * 100)` in integers: round-half-up of 100n/9 is
   * the floor of (200n + 9) / 18. No n in 0..9 puts 100n/9 on a half.
   */
  function Score(n: nat): (pct: nat)
    requires n <= 9
    ensures pct <= 100
    ensures n == 0 ==> pct == 0
    ensures n == 9 ==> pct == 100
    ensures 18 * pct <= 200 * n + 9 < 18 * pct + 18
  {
    (200 * n + 9) / 18
  }

  /** `getProfileCompletion`. */
  function Completion(p: Person): (pct: nat)
    ensures pct <= 100
  {
    Score(Filled(p))
  }

  /** A higher count never scores lower. */
  lemma ScoreMonotone(m: nat, n: nat)
    requires m <= n <= 9
    ensures Score(m) <= Score(n)
  {
  }

  /** The 70% bar is the same as at least seven filled fields. */
  lemma ThresholdIsSeven(n: nat)
    requires n <= 9
    ensures Score(n) >= 70 <==> n >= 7
  {
    assert Score(6) == 67 && Score(7) == 78;
    if n < 7 { ScoreMonotone(n, 6); } else { ScoreMonotone(7, n); }
  }

  /** The profiles the page lists, in the order the query returned them. */
  function Eligible(rows: seq<Profile>): (users: seq<Profile>)
    ensures Subsequence(users, rows)
    ensures forall u :: u in users <==> u in rows && Filled(u.person) >= 7
  {
    var users := Filter(rows, (u: Profile) => Completion(u.person) >= 70);
    FilterCounts(rows, (u: Profile) => Completion(u.person) >= 70);
    forall u: Profile ensures Completion(u.person) >= 70 <==> Filled(u.person) >= 7 {
      ThresholdIsSeven(Filled(u.person));
    }
    users
  }

  /** `fetchUsers`: a failed query keeps the list it had. */
  function FetchUsers(prev: seq<Profile>, rows: seq<Profile>, fails: bool): (users: seq<Profile>)
    ensures fails ==> users == prev
    ensures !fails ==> users == Eligible(rows)
  {
    if fails then prev else Eligible(rows)
  }

  /** `` `${first ?? ""} ${last ?? ""}`.trim() ``. */
  function FullName(p: Person): string {
    Trim(p.firstName.GetOr("") + " " + p.lastName.GetOr(""))
  }

  /** The skills as one space-separated text ("" without a list). */
  function SkillsText(p: Person): string {
    if p.skills.Some? then Join(p.skills.value, " ") else ""
  }

  /** The search test: the lower-cased query occurs in the lower-cased name, skills or location. */
  predicate Matches(u: Profile, query: string) {
    var q := Lower(query);
    || Includes(Lower(FullName(u.person)), q)
    || Includes(Lower(SkillsText(u.person)), q)
    || Includes(Lower(u.person.location.GetOr("")), q)
  }

  /** `filteredUsers`. */
  function Search(users: seq<Profile>, query: string): (found: seq<Profile>)
    ensures Subsequence(found, users)
    ensures forall u :: u in found <==> u in users && Matches(u, query)
  {
    FilterCounts(users, (u: Profile) => Matches(u, query));
    Filter(users, (u: Profile) => Matches(u, query))
  }

  /** An empty query keeps every user, in order. */
  lemma EmptyQueryKeepsAll(users: seq<Profile>)
    ensures Search(users, "") == users
  {
    forall u: Profile ensures Matches(u, "") {
      IncludesEmpty(Lower(FullName(u.person)));
    }
  }

  /** The search ignores the query's case: upper-casing it changes nothing. */
  lemma {:induction false} SearchIgnoresCase(users: seq<Profile>, query: string)
    ensures Search(users, Upper(query)) == Search(users, query)
    ensures Search(users, Lower(query)) == Search(users, query)
  {
    LowerOfUpper(query);
    LowerIdempotent(query);
    FilterSameKeep(users, (u: Profile) => Matches(u, Upper(query)), (u: Profile) => Matches(u, query));
    FilterSameKeep(users, (u: Profile) => Matches(u, Lower(query)), (u: Profile) => Matches(u, query));
  }

  /**
   * The name on the card: the full name, or "Anonymous" when it is empty,
   * which happens exactly when both names are missing or blank.
   */
  function DisplayName(p: Person): (name: string)
    ensures name == "Anonymous" || name == FullName(p)
    ensures name != ""
    ensures FullName(p) != "" ==> name == FullName(p)
    ensures FullName(p) == "" ==> name == "Anonymous"
    ensures IsBlank(p.firstName.GetOr("")) && IsBlank(p.lastName.GetOr("")) ==> name == "Anonymous"
    ensures !(IsBlank(p.firstName.GetOr("")) && IsBlank(p.lastName.GetOr(""))) ==> name == FullName(p) != ""
  {
    TrimJoined(p.firstName.GetOr(""), p.lastName.GetOr(""));
    Or(FullName(p), "Anonymous")
  }

  /** A profile without names is shown as "Anonymous"; one with a first name only shows that name. */
  lemma {:induction false} DisplayNameFallback(p: Person, first: string)
    ensures p.firstName.None? && p.lastName.None? ==> DisplayName(p) == "Anonymous"
    ensures first != "" && !IsSpace(first[0]) && !IsSpace(first[|first| - 1])
            ==> DisplayName(p.(firstName := Some(first), lastName := None)) == first
  {
    assert IsSpace(' ');
    assert IsBlank("" + " " + "");
    var q := p.(firstName := Some(first), lastName := None);
    assert q.firstName.GetOr("") + " " + q.lastName.GetOr("") == first + " ";
    if first != "" && !IsSpace(first[0]) && !IsSpace(first[|first| - 1]) {
      TrimTrailingSpace(first);
    }
  }

  /** Trimming `s + " "` gives `s` when `s` has no space at either end. */
  lemma TrimTrailingSpace(s: string)
    requires s != "" && !IsSpace(s[0]) && !IsSpace(s[|s| - 1])
    ensures Trim(s + " ") == s
  {
    var padded := s + " ";
    assert padded[0] == s[0];
    assert TrimStart(padded) == padded;
    assert IsSpace(padded[|padded| - 1]) && padded[..|padded| - 1] == s;
    assert TrimEnd(padded) == TrimEnd(s) == s;
  }
}
