/**
  The few Python string built-ins the pipeline relies on: `str.isspace` on one
  character, `str.strip()` with no argument, `str.startswith` and `str.join`,
  plus a substring predicate used to say what a prompt embeds.
 */
module Text {

  /** Python's `str.isspace` for a single character: the characters that
      `str.strip()` with no argument removes. */
  predicate IsSpace(c: char) {
    var n := c as int;
    (0x09 <= n <= 0x0D) || (0x1C <= n <= 0x20) || n == 0x85 || n == 0xA0 ||
    n == 0x1680 || (0x2000 <= n <= 0x200A) || n == 0x2028 || n == 0x2029 ||
    n == 0x202F || n == 0x205F || n == 0x3000
  }

  /** The ASCII whitespace characters are all whitespace, and every
      whitespace character lies between U+0009 and U+3000. */
  lemma SpaceRange(c: char)
    ensures c == ' ' || c == '\t' || c == '\n' || c == '\r' || c as int == 0x0B || c as int == 0x0C ==> IsSpace(c)
    ensures IsSpace(c) ==> 0x09 <= c as int <= 0x3000
  {
  }

  /** Every character of `s` at an index in `[lo, hi)` is whitespace. */
  predicate SpaceBetween(s: string, lo: int, hi: int)
    requires 0 <= lo <= hi <= |s|
  {
    forall i :: lo <= i < hi ==> IsSpace(s[i])
  }

  /** Neither the first nor the last character of `s` is whitespace. */
  predicate NoSurroundingSpace(s: string) {
    s == [] || (!IsSpace(s[0]) && !IsSpace(s[|s| - 1]))
  }

  /** `r` is the slice of `s` starting at `k`, and only whitespace lies
      before and after it. */
  predicate TrimWindow(r: string, s: string, k: int) {
    0 <= k && k + |r| <= |s| && s[k..k + |r|] == r &&
    SpaceBetween(s, 0, k) && SpaceBetween(s, k + |r|, |s|)
  }

  /** `r` is what is left of `s` once every leading and every trailing
      whitespace character is cut off: a contiguous slice of `s`, only
      whitespace around it, and no whitespace at either of its ends. */
  ghost predicate IsTrimOf(r: string, s: string) {
    NoSurroundingSpace(r) && exists k :: TrimWindow(r, s, k)
  }

  /** `s` without its leading whitespace. */
  function TrimStart(s: string): (r: string)
    ensures |r| <= |s| && r == s[|s| - |r|..]
    ensures SpaceBetween(s, 0, |s| - |r|)
    ensures r == [] || !IsSpace(r[0])
  {
    if s != [] && IsSpace(s[0]) then TrimStart(s[1..]) else s
  }

  /** `s` without its trailing whitespace. */
  function TrimEnd(s: string): (r: string)
    ensures |r| <= |s| && r == s[..|r|]
    ensures SpaceBetween(s, |r|, |s|)
    ensures r == [] || !IsSpace(r[|r| - 1])
  {
    if s != [] && IsSpace(s[|s| - 1]) then TrimEnd(s[..|s| - 1]) else s
  }

  /** Python's `s.strip()`. */
  function Strip(s: string): (r: string)
    ensures IsTrimOf(r, s)
  {
    TrimmedWindow(s, TrimStart(s), TrimEnd(TrimStart(s)));
    TrimEnd(TrimStart(s))
  }

  /** Cutting whitespace off the front of `s` (giving `t`) and then off the
      back of `t` (giving `r`) leaves a window of `s` that starts where the
      leading whitespace ends. */
  lemma TrimmedWindow(s: string, t: string, r: string)
    requires |t| <= |s| && t == s[|s| - |t|..] && SpaceBetween(s, 0, |s| - |t|)
    requires t == [] || !IsSpace(t[0])
    requires |r| <= |t| && r == t[..|r|] && SpaceBetween(t, |r|, |t|)
    requires r == [] || !IsSpace(r[|r| - 1])
    ensures NoSurroundingSpace(r) && TrimWindow(r, s, |s| - |t|)
  {
    var k := |s| - |t|;
    assert r == s[k..k + |r|] by {
      assert forall i :: 0 <= i < |r| ==> r[i] == t[i] == s[k + i];
    }
    assert r != [] ==> r[0] == t[0];
    SpaceShift(s, k, |r|, |t|);
  }

  lemma SpaceShift(s: string, k: int, lo: int, hi: int)
    requires 0 <= k <= |s| && 0 <= lo <= hi <= |s| - k
    requires SpaceBetween(s[k..], lo, hi)
    ensures SpaceBetween(s, k + lo, k + hi)
  {
    forall i | k + lo <= i < k + hi ensures IsSpace(s[i]) {
      assert s[k..][i - k] == s[i];
    }
  }

  /** The characterisation `IsTrimOf` pins the result down: `Strip` is the
      only string it admits. */
  lemma StripUnique(s: string, t: string)
    requires IsTrimOf(t, s)
    ensures t == Strip(s)
  {
    var r := Strip(s);
    var k :| TrimWindow(t, s, k);
    var j :| TrimWindow(r, s, j);
    // the first and last characters of each window are not whitespace
    assert r != [] ==> s[j] == r[0] && s[j + |r| - 1] == r[|r| - 1];
    assert t != [] ==> s[k] == t[0] && s[k + |t| - 1] == t[|t| - 1];
    if t != [] && r != [] {
      assert j == k;
      assert |r| == |t|;
    }
  }

  /** Stripping a stripped string changes nothing. */
  lemma StripIdempotent(s: string)
    ensures Strip(Strip(s)) == Strip(s)
  {
    var r := Strip(s);
    assert TrimWindow(r, r, 0);
    StripUnique(r, r);
  }

  /** Python's `s.startswith(prefix)`. */
  predicate StartsWith(s: string, prefix: string) {
    |prefix| <= |s| && s[..|prefix|] == prefix
  }

  /** Total length of the parts. */
  function TotalLength(parts: seq<string>): nat {
    if parts == [] then 0 else |parts[0]| + TotalLength(parts[1..])
  }

  /** `startswith` compares character by character. */
  lemma StartsWithPointwise(s: string, prefix: string)
    ensures StartsWith(s, prefix) <==> |prefix| <= |s| && forall i :: 0 <= i < |prefix| ==> s[i] == prefix[i]
  {
    if |prefix| <= |s| && forall i :: 0 <= i < |prefix| ==> s[i] == prefix[i] {
      assert s[..|prefix|] == prefix;
    }
  }

  /** Python's `sep.join(parts)`: the parts in order, one separator between
      each two neighbours. */
  function Join(parts: seq<string>, sep: string): (r: string)
    ensures parts == [] ==> r == ""
    ensures |parts| == 1 ==> r == parts[0]
    ensures parts != [] ==> StartsWith(r, parts[0])
    ensures |r| == TotalLength(parts) + (if parts == [] then 0 else (|parts| - 1) * |sep|)
  {
    if |parts| == 0 then ""
    else if |parts| == 1 then parts[0]
    else parts[0] + sep + Join(parts[1..], sep)
  }

  /** `Join` read from the left, as `str.join` builds its result: every part
      after the first is preceded by one separator. */
  lemma {:induction false} JoinSnoc(parts: seq<string>, p: string, sep: string)
    requires parts != []
    ensures Join(parts + [p], sep) == Join(parts, sep) + sep + p
  {
    if |parts| == 1 {
      assert (parts + [p])[1..] == [p];
    } else {
      assert (parts + [p])[1..] == parts[1..] + [p];
      JoinSnoc(parts[1..], p, sep);
    }
  }

  /** `needle` sits in `hay` starting at index `k`. */
  predicate OccursAt(needle: string, hay: string, k: int) {
    0 <= k && k + |needle| <= |hay| && hay[k..k + |needle|] == needle
  }

  /** `needle` is a contiguous substring of `hay` (Python's `needle in hay`). */
  ghost predicate Occurs(needle: string, hay: string) {
    exists k :: OccursAt(needle, hay, k)
  }

  /** A substring of `hay` stays one when text is added in front. */
  lemma OccursAfter(needle: string, pre: string, hay: string)
    requires Occurs(needle, hay)
    ensures Occurs(needle, pre + hay)
  {
    var k :| OccursAt(needle, hay, k);
    assert (pre + hay)[|pre| + k..|pre| + k + |needle|] == hay[k..k + |needle|];
    assert OccursAt(needle, pre + hay, |pre| + k);
  }

  /** A substring of `hay` stays one when text is added behind. */
  lemma OccursBefore(needle: string, hay: string, post: string)
    requires Occurs(needle, hay)
    ensures Occurs(needle, hay + post)
  {
    var k :| OccursAt(needle, hay, k);
    assert (hay + post)[k..k + |needle|] == hay[k..k + |needle|];
    assert OccursAt(needle, hay + post, k);
  }

  lemma OccursSelf(s: string)
    ensures Occurs(s, s)
  {
    assert OccursAt(s, s, 0);
  }

  /** Every part occurs in the joined string. */
  lemma {:induction false} JoinContains(parts: seq<string>, sep: string, i: int)
    requires 0 <= i < |parts|
    ensures Occurs(parts[i], Join(parts, sep))
  {
    if |parts| == 1 {
      OccursSelf(parts[0]);
    } else if i == 0 {
      OccursSelf(parts[0]);
      OccursBefore(parts[0], parts[0], sep + Join(parts[1..], sep));
      assert Join(parts, sep) == parts[0] + (sep + Join(parts[1..], sep));
    } else {
      JoinContains(parts[1..], sep, i - 1);
      OccursAfter(parts[i], parts[0] + sep, Join(parts[1..], sep));
    }
  }
}
