/** String operations the source takes from JavaScript's `String.prototype`,
    on `seq<char>`. */
module Strings {
  import opened Wrappers

  /** JavaScript truthiness of an optional string: present and non-empty. */
  predicate Truthy(o: Option<string>) {
    o.Some? && o.value != ""
  }

  /** `o || d` for an optional string. */
  function OrElse(o: Option<string>, d: string): (r: string)
    ensures Truthy(o) ==> r == o.value
    ensures !Truthy(o) ==> r == d
  {
    if Truthy(o) then o.value else d
  }

  predicate StartsWith(s: string, p: string) {
    |p| <= |s| && s[..|p|] == p
  }

  predicate EndsWith(s: string, p: string) {
    |p| <= |s| && s[|s| - |p|..] == p
  }

  /** `s.includes(p)`. */
  predicate Contains(s: string, p: string)
    decreases |s|
  {
    StartsWith(s, p) || (|s| > 0 && Contains(s[1..], p))
  }

  /** `s.indexOf(p)`: the first position at which `p` occurs. */
  function IndexOf(s: string, p: string): (r: Option<nat>)
    decreases |s|
    ensures r.Some? ==> r.value + |p| <= |s| && s[r.value..r.value + |p|] == p
    ensures r.None? <==> !Contains(s, p)
    ensures r.Some? ==> forall j :: 0 <= j < r.value ==> !StartsWith(s[j..], p)
  {
    if StartsWith(s, p) then Some(0)
    else if s == [] then None
    else match IndexOf(s[1..], p)
      case None => None
      case Some(i) =>
        assert forall j :: 1 <= j <= i ==> s[j..] == s[1..][j - 1..];
        Some(i + 1)
  }

  /** `s.split("::").pop()`: the piece after the last separator found by a
      left-to-right scan (so `"a:::b"` gives `":b"`). */
  function LastSegment(s: string): string
    decreases |s|
  {
    match IndexOf(s, "::")
    case None => s
    case Some(i) => LastSegment(s[i + 2..])
  }

  /** The last segment is a suffix of the input and contains no separator.
      A string without a separator is its own last segment; otherwise the
      last segment is everything after a "::" of the input. */
  lemma LastSegmentProps(s: string)
    ensures EndsWith(s, LastSegment(s))
    ensures !Contains(LastSegment(s), "::")
    ensures !Contains(s, "::") ==> LastSegment(s) == s
    ensures Contains(s, "::") ==>
      var n := |s| - |LastSegment(s)|;
      n >= 2 && s[n - 2] == ':' && s[n - 1] == ':'
  {
    LastSegmentSuffix(s);
    if IndexOf(s, "::").Some? {
      LastSegmentAfterSeparator(s);
    }
  }

  lemma {:induction false} LastSegmentSuffix(s: string)
    ensures EndsWith(s, LastSegment(s))
    ensures !Contains(LastSegment(s), "::")
    decreases |s|
  {
    var o := IndexOf(s, "::");
    if o.Some? {
      var rest := s[o.value + 2..];
      assert LastSegment(s) == LastSegment(rest);
      LastSegmentSuffix(rest);
      SuffixOfSuffix(s, o.value + 2, LastSegment(rest));
    }
  }

  /** `seg` is the end of `s` and is preceded there by "::". */
  predicate AfterSeparator(s: string, seg: string) {
    |seg| + 2 <= |s| && s[|s| - |seg| - 2] == ':' && s[|s| - |seg| - 1] == ':'
  }

  lemma {:induction false} LastSegmentAfterSeparator(s: string)
    requires IndexOf(s, "::").Some?
    ensures AfterSeparator(s, LastSegment(s))
    decreases |s|
  {
    var i := IndexOf(s, "::").value;
    var rest := s[i + 2..];
    LastSegmentSuffix(rest);
    var seg := LastSegment(rest);
    assert LastSegment(s) == seg;
    if IndexOf(rest, "::").Some? {
      LastSegmentAfterSeparator(rest);
      SeparatorLift(s, i + 2, seg);
    } else {
      assert seg == rest;
      assert s[i..i + 2][0] == ':' && s[i..i + 2][1] == ':';
    }
  }

  lemma SeparatorLift(s: string, off: nat, seg: string)
    requires off <= |s| && AfterSeparator(s[off..], seg)
    ensures AfterSeparator(s, seg)
  {
    var m := |s[off..]| - |seg|;
    assert s[off..][m - 2] == s[off + m - 2];
    assert s[off..][m - 1] == s[off + m - 1];
  }

  lemma SuffixOfSuffix(s: string, k: nat, t: string)
    requires k <= |s| && EndsWith(s[k..], t)
    ensures EndsWith(s, t)
  {
    assert s[k..][|s[k..]| - |t|..] == s[|s| - |t|..];
  }

  /** ASCII lower-casing of one character. */
  function LowerChar(c: char): char {
    if 'A' <= c <= 'Z' then (c as int + 32) as char else c
  }

  predicate IsLower(s: string) {
    forall i :: 0 <= i < |s| ==> !('A' <= s[i] <= 'Z')
  }

  /** `s.toLowerCase()` on ASCII letters. */
  function ToLower(s: string): (r: string)
    ensures |r| == |s| && IsLower(r)
    ensures forall i :: 0 <= i < |s| && !('A' <= s[i] <= 'Z') ==> r[i] == s[i]
    ensures forall i :: 0 <= i < |s| && 'A' <= s[i] <= 'Z' ==> r[i] as int == s[i] as int + 32
  {
    seq(|s|, i requires 0 <= i < |s| => LowerChar(s[i]))
  }

  /** `s.padStart(n, c)`: prefixes copies of `c` up to length `n`; never
      truncates. */
  function PadStart(s: string, n: nat, c: char): (r: string)
    ensures |r| == if |s| >= n then |s| else n
    ensures EndsWith(r, s)
    ensures forall i :: 0 <= i < |r| - |s| ==> r[i] == c
  {
    if |s| >= n then s else seq(n - |s|, _ => c) + s
  }
}
