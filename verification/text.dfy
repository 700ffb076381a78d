/**
 * The JavaScript string operations the application relies on: `trim`,
 * truthiness, ASCII case mapping, `includes`, `split` on one character and
 * `join`.
 */
module Text {
  import opened Common

  /** The characters `String.prototype.trim` removes (ECMAScript WhiteSpace and LineTerminator). */
  predicate IsSpace(c: char) {
    var n := c as int;
    n == 0x09 || n == 0x0A || n == 0x0B || n == 0x0C || n == 0x0D || n == 0x20
    || n == 0xA0 || n == 0x1680 || (0x2000 <= n <= 0x200A) || n == 0x2028 || n == 0x2029
    || n == 0x202F || n == 0x205F || n == 0x3000 || n == 0xFEFF
  }

  /** Every character of `s` is white space (the empty string included). */
  predicate IsBlank(s: string) {
    forall i :: 0 <= i < |s| ==> IsSpace(s[i])
  }

  /** `s` with its leading white space removed. */
  function TrimStart(s: string): (r: string)
    ensures |r| <= |s| && r == s[|s| - |r|..]
    ensures IsBlank(s[..|s| - |r|])
    ensures r == [] || !IsSpace(r[0])
  {
    if |s| > 0 && IsSpace(s[0]) then
      var t := s[1..];
      var r := TrimStart(t);
      var k := |s| - |r|;
      DropFirst(s, k);
      assert r == s[k..];
      assert IsBlank([s[0]]);
      BlankAppend([s[0]], t[..k - 1]);
      assert IsBlank(s[..k]);
      r
    else s
  }

  /** `s` with its trailing white space removed. */
  function TrimEnd(s: string): (r: string)
    ensures |r| <= |s| && r == s[..|r|]
    ensures IsBlank(s[|r|..])
    ensures r == [] || !IsSpace(r[|r| - 1])
  {
    if |s| > 0 && IsSpace(s[|s| - 1]) then
      var r := TrimEnd(s[..|s| - 1]);
      DropLast(s, |r|);
      BlankAppend(s[..|s| - 1][|r|..], [s[|s| - 1]]);
      r
    else s
  }

  /** Slices of `s` seen through `s[1..]`, for a cut `k` past the first element. */
  lemma DropFirst<T>(s: seq<T>, k: nat)
    requires 1 <= k <= |s|
    ensures s[1..][k - 1..] == s[k..] && s[..k] == [s[0]] + s[1..][..k - 1]
  {
  }

  /** Slices of `s` seen through `s[..|s| - 1]`, for a cut `k` before the last element. */
  lemma DropLast<T>(s: seq<T>, k: nat)
    requires k < |s|
    ensures s[..|s| - 1][..k] == s[..k] && s[k..] == s[..|s| - 1][k..] + [s[|s| - 1]]
  {
  }

  /** Two blank strings join into a blank string. */
  lemma BlankAppend(a: string, b: string)
    requires IsBlank(a) && IsBlank(b)
    ensures IsBlank(a + b)
  {
  }

  /**
   * `String.prototype.trim`: what is left of `s` after removing the white
   * space at both ends.
   */
  function Trim(s: string): (r: string)
    ensures |r| <= |s|
    ensures r == [] <==> IsBlank(s)
    ensures r == [] || (!IsSpace(r[0]) && !IsSpace(r[|r| - 1]))
  {
    var t := TrimStart(s);
    BlankIffTrimStartEmpty(s);
    TrimEnd(t)
  }

  /** Only a blank string loses all its characters to `TrimStart`. */
  lemma BlankIffTrimStartEmpty(s: string)
    ensures TrimStart(s) == [] <==> IsBlank(s)
  {
    var t := TrimStart(s);
    if t == [] {
      assert s[..|s|] == s;
    }
  }

  /** `s` has no white space at either end. */
  predicate Unpadded(s: string) {
    s == [] || (!IsSpace(s[0]) && !IsSpace(s[|s| - 1]))
  }

  /** A string with no white space at either end is its own trim. */
  lemma TrimOfTrimmed(s: string)
    requires Unpadded(s)
    ensures Trim(s) == s
  {
  }

  /** Two words joined by a space are blank exactly when both words are. */
  lemma BlankJoined(a: string, b: string)
    ensures IsBlank(a + " " + b) <==> IsBlank(a) && IsBlank(b)
  {
    var s := a + " " + b;
    assert forall i :: 0 <= i < |a| ==> s[i] == a[i];
    assert forall j :: 0 <= j < |b| ==> s[|a| + 1 + j] == b[j];
    assert s[|a|] == ' ' && IsSpace(' ');
    if IsBlank(a) && IsBlank(b) {
      forall i | 0 <= i < |s|
        ensures IsSpace(s[i])
      {
        if i > |a| {
          assert s[i] == b[i - |a| - 1];
        }
      }
    }
  }

  /**
   * Trimming "a b": empty exactly when both words are blank, and the words
   * themselves, joined by the space, when neither is empty nor padded.
   */
  lemma TrimJoined(a: string, b: string)
    ensures Trim(a + " " + b) == [] <==> IsBlank(a) && IsBlank(b)
    ensures a != [] && b != [] && Unpadded(a) && Unpadded(b) ==> Trim(a + " " + b) == a + " " + b
  {
    var s := a + " " + b;
    BlankJoined(a, b);
    if a != [] && b != [] && Unpadded(a) && Unpadded(b) {
      assert s[0] == a[0] && s[|s| - 1] == b[|b| - 1];
      TrimOfTrimmed(s);
    }
  }

  /** Trimming is idempotent. */
  lemma TrimIdempotent(s: string)
    ensures Trim(Trim(s)) == Trim(s)
  {
    TrimOfTrimmed(Trim(s));
  }

  /** JavaScript truthiness of a string: it is non-empty. */
  predicate Truthy(s: string) {
    s != ""
  }

  /** JavaScript truthiness of a nullable string. */
  predicate Present(o: Option<string>) {
    o.Some? && o.value != ""
  }

  /** JavaScript's `a || b` on strings. */
  function Or(a: string, b: string): (r: string)
    ensures Truthy(a) ==> r == a
    ensures !Truthy(a) ==> r == b
  {
    if a != "" then a else b
  }

  /** `String.prototype.toLowerCase` on one character, for the ASCII letters. */
  function LowerChar(c: char): char {
    if 'A' <= c <= 'Z' then (c as int + 32) as char else c
  }

  /** `String.prototype.toUpperCase` on one character, for the ASCII letters. */
  function UpperChar(c: char): char {
    if 'a' <= c <= 'z' then (c as int - 32) as char else c
  }

  /** `String.prototype.toLowerCase` (ASCII letters only). */
  function Lower(s: string): (r: string)
    ensures |r| == |s|
    ensures forall i :: 0 <= i < |s| ==> r[i] == LowerChar(s[i])
  {
    seq(|s|, i requires 0 <= i < |s| => LowerChar(s[i]))
  }

  /** `String.prototype.toUpperCase` (ASCII letters only). */
  function Upper(s: string): (r: string)
    ensures |r| == |s|
    ensures forall i :: 0 <= i < |s| ==> r[i] == UpperChar(s[i])
  {
    seq(|s|, i requires 0 <= i < |s| => UpperChar(s[i]))
  }

  /** Lower-casing an upper-cased text gives the lower-cased text. */
  lemma LowerOfUpper(s: string)
    ensures Lower(Upper(s)) == Lower(s)
  {
  }

  /** Lower-casing twice is lower-casing once. */
  lemma LowerIdempotent(s: string)
    ensures Lower(Lower(s)) == Lower(s)
  {
  }

  /** `p` occurs in `s` starting at offset `k`. */
  predicate OccursAt(s: string, p: string, k: int) {
    0 <= k && k + |p| <= |s| && s[k..k + |p|] == p
  }

  /** `String.prototype.includes`. */
  predicate Includes(s: string, p: string) {
    exists k :: 0 <= k <= |s| - |p| && OccursAt(s, p, k)
  }

  /** The empty string is included in every string. */
  lemma IncludesEmpty(s: string)
    ensures Includes(s, "")
  {
    assert OccursAt(s, "", 0);
  }

  /** `Array.prototype.join(sep)` on strings. */
  function Join(parts: seq<string>, sep: string): string
    decreases |parts|
  {
    if |parts| == 0 then ""
    else if |parts| == 1 then parts[0]
    else parts[0] + sep + Join(parts[1..], sep)
  }

  /**
   * `String.prototype.split(c)` for a one-character separator: the maximal
   * pieces between occurrences of `c`, which always number at least one.
   */
  function Split(s: string, c: char): (parts: seq<string>)
    ensures |parts| >= 1
    ensures forall i :: 0 <= i < |parts| ==> c !in parts[i]
    ensures Join(parts, [c]) == s
    decreases |s|
  {
    if |s| == 0 then [""]
    else
      var rest := Split(s[1..], c);
      assert s == [s[0]] + s[1..];
      if s[0] == c then
        assert ([""] + rest)[1..] == rest;
        [""] + rest
      else
        var parts := [[s[0]] + rest[0]] + rest[1..];
        assert parts[1..] == rest[1..];
        assert forall i :: 1 <= i < |parts| ==> parts[i] == rest[i];
        parts
  }

  /** Splitting a text whose first piece is `p` yields `p` followed by the pieces of the rest. */
  lemma {:induction false} SplitPrefix(p: string, t: string, c: char)
    requires c !in p
    ensures Split(p + t, c) == [p + Split(t, c)[0]] + Split(t, c)[1..]
    decreases |p|
  {
    if |p| > 0 {
      var s := p + t;
      assert s[0] == p[0] && s[1..] == p[1..] + t;
      SplitPrefix(p[1..], t, c);
      assert [p[0]] + (p[1..] + Split(t, c)[0]) == p + Split(t, c)[0];
    } else {
      assert p + t == t;
      assert p + Split(t, c)[0] == Split(t, c)[0];
      assert Split(t, c) == [Split(t, c)[0]] + Split(t, c)[1..];
    }
  }

  /** A text that starts with the separator splits into an empty piece followed by the pieces of the rest. */
  lemma SplitAfterSeparator(t: string, c: char)
    ensures Split([c] + t, c) == [""] + Split(t, c)
  {
    assert ([c] + t)[1..] == t;
  }

  /** Splitting undoes joining, as long as no piece contains the separator. */
  lemma {:induction false} SplitJoin(parts: seq<string>, c: char)
    requires |parts| >= 1
    requires forall i :: 0 <= i < |parts| ==> c !in parts[i]
    ensures Split(Join(parts, [c]), c) == parts
    decreases |parts|
  {
    var p := parts[0];
    if |parts| == 1 {
      SplitPrefix(p, "", c);
      assert p + "" == p;
    } else {
      var rest := parts[1..];
      SplitJoin(rest, c);
      var t := Join(rest, [c]);
      assert Join(parts, [c]) == p + ([c] + t);
      SplitPrefix(p, [c] + t, c);
      SplitAfterSeparator(t, c);
      var pieces := [""] + rest;
      assert pieces[0] == "" && pieces[1..] == rest;
      assert p + "" == p;
      assert parts == [p] + rest;
    }
  }
}
