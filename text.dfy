/**
 * The string operations the agent relies on: substring test (`in`),
 * lower-casing (`str.lower`), whitespace trimming (`str.strip`) and
 * joining (`str.join`). Lower-casing and trimming are restricted to ASCII.
 */
module Text {

  // ---------------------------------------------------------------------
  // Substring test
  // ---------------------------------------------------------------------

  /** `needle in hay` on strings: `needle` occurs as a contiguous slice of `hay`. */
  predicate Contains(hay: string, needle: string)
    ensures needle == [] ==> Contains(hay, needle)
    ensures Contains(hay, needle) ==> |needle| <= |hay|
  {
    assert needle == [] ==> OccursAt(hay, needle, 0);
    exists i | 0 <= i <= |hay| - |needle| :: OccursAt(hay, needle, i)
  }

  /** `needle` occurs in `hay` starting at offset `i`. */
  predicate OccursAt(hay: string, needle: string, i: int) {
    0 <= i <= |hay| - |needle| && hay[i..i + |needle|] == needle
  }

  /** `hay` starts with `prefix`. */
  predicate StartsWith(hay: string, prefix: string) {
    |prefix| <= |hay| && hay[..|prefix|] == prefix
  }

  /** A witness offset establishes containment. */
  lemma ContainsAt(hay: string, needle: string, i: int)
    requires 0 <= i <= |hay| - |needle|
    requires hay[i..i + |needle|] == needle
    ensures Contains(hay, needle)
  {
    assert OccursAt(hay, needle, i);
  }

  /** Every string contains itself. */
  lemma ContainsSelf(s: string)
    ensures Contains(s, s)
  {
    ContainsAt(s, s, 0);
  }

  /** Both halves of a concatenation are contained in it. */
  lemma ContainsHalves(a: string, b: string)
    ensures Contains(a + b, a) && Contains(a + b, b)
  {
    ContainsAt(a + b, a, 0);
    ContainsAt(a + b, b, |a|);
  }

  /** In `a + b + c + d + e`: `a` is a prefix and `b` and `d` occur. */
  lemma {:induction false} FiveParts(a: string, b: string, c: string, d: string, e: string)
    ensures StartsWith(a + b + c + d + e, a)
    ensures Contains(a + b + c + d + e, b)
    ensures Contains(a + b + c + d + e, d)
  {
    var s := a + b + c + d + e;
    assert s[..|a|] == a;
    assert s[|a|..|a| + |b|] == b;
    ContainsAt(s, b, |a|);
    assert s[|a + b + c|..|a + b + c| + |d|] == d;
    ContainsAt(s, d, |a + b + c|);
  }

  /** In `a + b + c + d`: `a` is a prefix and `c` occurs. */
  lemma {:induction false} FourParts(a: string, b: string, c: string, d: string)
    ensures StartsWith(a + b + c + d, a)
    ensures Contains(a + b + c + d, c)
  {
    var s := a + b + c + d;
    assert s[..|a|] == a;
    assert s[|a + b|..|a + b| + |c|] == c;
    ContainsAt(s, c, |a + b|);
  }

  /** Containment is transitive: a slice of a slice is a slice. */
  lemma {:induction false} ContainsTransitive(a: string, b: string, c: string)
    requires Contains(a, b) && Contains(b, c)
    ensures Contains(a, c)
  {
    var i :| 0 <= i <= |a| - |b| && OccursAt(a, b, i);
    var j :| 0 <= j <= |b| - |c| && OccursAt(b, c, j);
    forall k | 0 <= k < |c|
      ensures a[i + j + k] == c[k]
    {
      assert c[k] == b[j..j + |c|][k] == b[j + k];
      assert b[j + k] == a[i..i + |b|][j + k];
    }
    assert a[i + j..i + j + |c|] == c;
    ContainsAt(a, c, i + j);
  }

  /** A needle holding a character the haystack lacks cannot occur in it. */
  lemma {:induction false} MissingCharNotContained(hay: string, needle: string, k: nat)
    requires k < |needle| && needle[k] !in hay
    ensures !Contains(hay, needle)
  {
    forall i | 0 <= i <= |hay| - |needle|
      ensures !OccursAt(hay, needle, i)
    {
      assert hay[i..i + |needle|][k] == hay[i + k];
      assert hay[i + k] in hay;
    }
  }

  // ---------------------------------------------------------------------
  // Lower-casing (ASCII)
  // ---------------------------------------------------------------------

  predicate IsUpper(c: char) {
    'A' <= c <= 'Z'
  }

  /** ASCII lower-casing of one character; every other character is kept. */
  function LowerChar(c: char): (r: char)
    ensures IsUpper(c) ==> r as int == c as int + 32
    ensures !IsUpper(c) ==> r == c
    ensures !IsUpper(r)
  {
    if IsUpper(c) then (c as int + 32) as char else c
  }

  /** `s.lower()`: every character lower-cased, length kept. */
  function Lower(s: string): (r: string)
    ensures |r| == |s|
    ensures forall i :: 0 <= i < |s| ==> r[i] == LowerChar(s[i])
  {
    if s == [] then [] else [LowerChar(s[0])] + Lower(s[1..])
  }

  /** Lower-casing twice is lower-casing once. */
  lemma {:induction false} LowerIdempotent(s: string)
    ensures Lower(Lower(s)) == Lower(s)
  {
    var once := Lower(s);
    var twice := Lower(once);
    forall i | 0 <= i < |s|
      ensures twice[i] == once[i]
    {
      assert !IsUpper(once[i]);
    }
  }

  /** A string with no upper-case letter is its own lower-cased form. */
  lemma {:induction false} LowerOfLowerCase(s: string)
    requires forall c :: c in s ==> !IsUpper(c)
    ensures Lower(s) == s
  {
    var r := Lower(s);
    forall i | 0 <= i < |s|
      ensures r[i] == s[i]
    {
      assert s[i] in s;
    }
  }

  // ---------------------------------------------------------------------
  // Trimming (ASCII whitespace)
  // ---------------------------------------------------------------------

  /** The ASCII characters Python's `str.strip()` removes: tab through carriage return, the four separators 0x1C-0x1F and space. */
  predicate IsSpace(c: char) {
    c == ' ' || '\U{09}' <= c <= '\U{0D}' || '\U{1C}' <= c <= '\U{1F}'
  }

  predicate AllSpace(s: string) {
    forall i :: 0 <= i < |s| ==> IsSpace(s[i])
  }

  /** Number of whitespace characters at the start of `s`. */
  function LeadingSpaces(s: string): (k: nat)
    ensures k <= |s|
    ensures AllSpace(s[..k])
    ensures k < |s| ==> !IsSpace(s[k])
  {
    if s == [] || !IsSpace(s[0]) then 0
    else
      var k := 1 + LeadingSpaces(s[1..]);
      assert forall i :: 1 <= i < k ==> s[..k][i] == s[1..][..k - 1][i - 1];
      k
  }

  /** Number of whitespace characters at the end of `s`. */
  function TrailingSpaces(s: string): (k: nat)
    ensures k <= |s|
    ensures AllSpace(s[|s| - k..])
    ensures k < |s| ==> !IsSpace(s[|s| - 1 - k])
  {
    if s == [] || !IsSpace(s[|s| - 1]) then 0
    else
      var init := s[..|s| - 1];
      var k := 1 + TrailingSpaces(init);
      assert s[|s| - k..] == init[|init| - (k - 1)..] + [s[|s| - 1]];
      k
  }

  /**
   * `s.strip()`: the slice of `s` left after removing leading and trailing
   * whitespace. The result is empty exactly when `s` is all whitespace, and
   * otherwise it begins and ends with a non-whitespace character.
   */
  function Trim(s: string): (r: string)
    ensures exists i :: 0 <= i <= |s| - |r| && r == s[i..i + |r|] && AllSpace(s[..i]) && AllSpace(s[i + |r|..])
    ensures r == [] <==> AllSpace(s)
    ensures r != [] ==> !IsSpace(r[0]) && !IsSpace(r[|r| - 1])
  {
    var a := LeadingSpaces(s);
    var rest := s[a..];
    var b := TrailingSpaces(rest);
    assert rest[|rest| - b..] == s[|s| - b..];
    assert b < |rest| ==> rest[|rest| - 1 - b] == s[|s| - 1 - b];
    StripBounds(s, a, b);
    s[a..|s| - b]
  }

  /** Cutting whitespace runs of lengths `a` and `b` off the two ends of `s`, which end there, leaves its stripped form. */
  lemma {:induction false} StripBounds(s: string, a: nat, b: nat)
    requires a + b <= |s|
    requires AllSpace(s[..a]) && AllSpace(s[|s| - b..])
    requires a + b < |s| ==> !IsSpace(s[a]) && !IsSpace(s[|s| - 1 - b])
    ensures var r := s[a..|s| - b];
      && (exists i :: 0 <= i <= |s| - |r| && r == s[i..i + |r|] && AllSpace(s[..i]) && AllSpace(s[i + |r|..]))
      && (r == [] <==> AllSpace(s))
      && (r != [] ==> !IsSpace(r[0]) && !IsSpace(r[|r| - 1]))
  {
    var r := s[a..|s| - b];
    assert r == s[a..a + |r|];
    assert s[a + |r|..] == s[|s| - b..];
    if r == [] {
      forall i | 0 <= i < |s| ensures IsSpace(s[i]) {
        if i < a { assert s[i] == s[..a][i]; }
        else { assert s[i] == s[|s| - b..][i - (|s| - b)]; }
      }
    } else {
      assert r[0] == s[a] && r[|r| - 1] == s[|s| - 1 - b];
      assert !IsSpace(s[a]);
    }
  }

  /** The trimmed string is a slice of the original. */
  lemma TrimIsSlice(s: string)
    ensures Contains(s, Trim(s))
  {
    var r := Trim(s);
    var i :| 0 <= i <= |s| - |r| && r == s[i..i + |r|] && AllSpace(s[..i]) && AllSpace(s[i + |r|..]);
    ContainsAt(s, r, i);
  }

  /** Trimming an already trimmed string changes nothing. */
  lemma {:induction false} TrimIdempotent(s: string)
    ensures Trim(Trim(s)) == Trim(s)
  {
    var t := Trim(s);
    if t != [] {
      assert LeadingSpaces(t) == 0;
      assert t[0..] == t;
      assert TrailingSpaces(t) == 0;
    }
  }

  // ---------------------------------------------------------------------
  // Joining
  // ---------------------------------------------------------------------

  /** `sep.join(parts)`. */
  function Join(parts: seq<string>, sep: string): (r: string)
    ensures parts == [] ==> r == []
    ensures parts != [] ==> StartsWith(r, parts[0])
    ensures |parts| > 1 ==> Contains(r, sep)
  {
    if |parts| == 0 then ""
    else if |parts| == 1 then parts[0]
    else
      var rest := Join(parts[1..], sep);
      var r := parts[0] + sep + rest;
      assert r[..|parts[0]|] == parts[0];
      assert r[|parts[0]|..|parts[0]| + |sep|] == sep;
      ContainsAt(r, sep, |parts[0]|);
      r
  }

  /** Appending a part appends the separator and that part: the parts appear in list order. */
  lemma {:induction false} JoinAppend(parts: seq<string>, p: string, sep: string)
    requires parts != []
    ensures Join(parts + [p], sep) == Join(parts, sep) + sep + p
    decreases |parts|
  {
    var longer := parts + [p];
    assert longer[0] == parts[0];
    if |parts| == 1 {
      assert longer[1..] == [p];
    } else {
      assert longer[1..] == parts[1..] + [p];
      JoinAppend(parts[1..], p, sep);
    }
  }

  /** Every part occurs in the joined string. */
  lemma {:induction false} JoinContainsEach(parts: seq<string>, sep: string, k: nat)
    requires k < |parts|
    ensures Contains(Join(parts, sep), parts[k])
  {
    if |parts| == 1 {
      ContainsSelf(parts[0]);
    } else {
      var head := parts[0] + sep;
      var tail := Join(parts[1..], sep);
      ContainsHalves(head, tail);
      if k == 0 {
        ContainsHalves(parts[0], sep);
        ContainsTransitive(head + tail, head, parts[0]);
      } else {
        JoinContainsEach(parts[1..], sep, k - 1);
        ContainsTransitive(head + tail, tail, parts[k]);
      }
    }
  }
}
