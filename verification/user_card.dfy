/**
 * A person's card on the discovery page: avatar initials taken from the
 * space-separated parts of the name, the first few skills with a "+N more"
 * counter, the optional location line and the match badge.
 */
module UserCard {
  import opened Common
  import opened Text
  import Overflow
  import ProjectCard

  /** The parts that are not empty, in order. */
  function NonEmptyParts(parts: seq<string>): seq<string> {
    Filter(parts, (p: string) => p != "")
  }

  /** The words of a name: the non-empty pieces between its spaces. */
  function Words(name: string): seq<string> {
    NonEmptyParts(Split(name, ' '))
  }

  /** Keeping the non-empty parts of a sequence with a known first part. */
  lemma NonEmptyCons(x: string, xs: seq<string>)
    ensures NonEmptyParts([x] + xs) == (if x != "" then [x] else []) + NonEmptyParts(xs)
  {
    FilterCons(x, xs, (p: string) => p != "");
  }

  /**
   * `parts.map(part => part[0]).join('')`: the first character of every
   * part. An empty part yields `undefined`, which `join` writes as nothing,
   * so there is one character per non-empty part, in order.
   */
  function Firsts(parts: seq<string>): (r: string)
    ensures |r| <= |parts|
    ensures |r| == |NonEmptyParts(parts)|
    ensures forall i :: 0 <= i < |r| ==> r[i] == NonEmptyParts(parts)[i][0]
    ensures (forall i :: 0 <= i < |parts| ==> parts[i] != "") ==>
              |r| == |parts| && forall i :: 0 <= i < |parts| ==> r[i] == parts[i][0]
    ensures (forall i :: 0 <= i < |parts| ==> parts[i] == "") ==> r == ""
    decreases |parts|
  {
    if |parts| == 0 then ""
    else
      var rest := Firsts(parts[1..]);
      assert parts == [parts[0]] + parts[1..];
      NonEmptyCons(parts[0], parts[1..]);
      if parts[0] == "" then
        rest
      else
        var r := [parts[0][0]] + rest;
        assert forall i :: 1 <= i < |r| ==> r[i] == rest[i - 1];
        r
  }

  /**
   * The avatar fallback: one upper-cased letter per word of the name, in
   * order; extra spaces add nothing.
   */
  function Initials(name: string): (r: string)
    ensures |r| == |Firsts(Split(name, ' '))| <= |Split(name, ' ')|
    ensures forall i :: 0 <= i < |r| ==> r[i] == UpperChar(Firsts(Split(name, ' '))[i])
    ensures |r| == |Words(name)|
    ensures forall i :: 0 <= i < |r| ==> r[i] == UpperChar(Words(name)[i][0])
  {
    Upper(Firsts(Split(name, ' ')))
  }

  /** A name written as words separated by single spaces has one initial per word, in order. */
  lemma {:induction false} InitialsOfWords(words: seq<string>)
    requires |words| >= 1
    requires forall i :: 0 <= i < |words| ==> words[i] != "" && ' ' !in words[i]
    ensures |Initials(Join(words, " "))| == |words|
    ensures forall i :: 0 <= i < |words| ==> Initials(Join(words, " "))[i] == UpperChar(words[i][0])
  {
    SplitJoin(words, ' ');
    assert [' '] == " ";
  }

  /** "first last" gives the two upper-cased first letters. */
  lemma {:induction false} InitialsOfFullName(first: string, last: string)
    requires first != "" && last != "" && ' ' !in first && ' ' !in last
    ensures Initials(first + " " + last) == [UpperChar(first[0]), UpperChar(last[0])]
  {
    var words := [first, last];
    assert Join(words[1..], " ") == last;
    assert Join(words, " ") == first + " " + last;
    InitialsOfWords(words);
  }

  /** An extra space before the name adds an empty part, which adds no initial. */
  lemma {:induction false} LeadingSpaceIgnored(name: string)
    ensures Initials(" " + name) == Initials(name)
  {
    SplitAfterSeparator(name, ' ');
    assert [' '] + name == " " + name;
    var parts := Split(name, ' ');
    assert ([""] + parts)[1..] == parts;
  }

  /** What the card shows besides the name and title. */
  datatype View = View(initials: string, skills: seq<string>, more: nat, location: Option<string>, badge: bool)

  /** The card for one person. */
  function Render(name: string, skills: seq<string>, location: Option<string>, matchScore: Option<int>): (v: View)
    ensures |v.initials| <= |Split(name, ' ')|
    ensures |v.skills| + v.more == |skills|
    ensures |v.skills| <= Overflow.SkillLimit && v.skills == skills[..|v.skills|]
    ensures v.more > 0 <==> |skills| > Overflow.SkillLimit
    ensures v.location.Some? <==> Present(location)
    ensures v.location.Some? ==> v.location == location
    ensures v.badge <==> matchScore.Some? && matchScore.value != 0
  {
    Overflow.Accounts(skills, Overflow.SkillLimit);
    View(Initials(name),
         Overflow.Shown(skills, Overflow.SkillLimit),
         Overflow.More(skills, Overflow.SkillLimit),
         if Present(location) then location else None,
         ProjectCard.ShowsMatch(matchScore))
  }
}
