/** The parts of Python's `str` that the core relies on: `strip`, `lower` on
    ASCII letters, `startswith`/`endswith`, `in`, `replace` of one character,
    the `\s+` collapse of `re.sub`, `split`/`rsplit` at one character, `join`,
    and decimal rendering of numbers. */
module Strings {
  import opened Common

  /** `str.isspace()` for one character; `re`'s `\s` matches the same set. */
  predicate IsSpace(c: char) {
    c in SPACE_CHARS
  }

  const SPACE_CHARS: set<char> := {
    ' ', '\t', '\n', '\r', '\U{000B}', '\U{000C}', '\U{001C}', '\U{001D}', '\U{001E}', '\U{001F}',
    '\U{0085}', '\U{00A0}', '\U{1680}', '\U{2000}', '\U{2001}', '\U{2002}', '\U{2003}', '\U{2004}',
    '\U{2005}', '\U{2006}', '\U{2007}', '\U{2008}', '\U{2009}', '\U{200A}', '\U{2028}', '\U{2029}',
    '\U{202F}', '\U{205F}', '\U{3000}'
  }

  /** Printable ASCII and everything above U+3000 is not whitespace. */
  lemma NotSpace(c: char)
    requires ' ' < c < '\U{0085}' || c > '\U{3000}'
    ensures !IsSpace(c)
  {
  }

  predicate AllSpace(s: string) {
    forall i :: 0 <= i < |s| ==> IsSpace(s[i])
  }

  /** What `strip()` guarantees of its result: no whitespace at either end. */
  predicate NoEdgeSpace(s: string) {
    s == [] || (!IsSpace(s[0]) && !IsSpace(s[|s| - 1]))
  }

  /** Every two neighbouring characters include one that is not whitespace. */
  predicate NoSpaceRun(s: string) {
    forall i :: 0 <= i < |s| - 1 ==> !IsSpace(s[i]) || !IsSpace(s[i + 1])
  }

  /** Every character of `r` occurs in `s`. */
  predicate CharsFrom(r: string, s: string) {
    forall c :: c in r ==> c in s
  }

  /** The number of whitespace characters at the front of `s`. */
  function LeadingSpaces(s: string): (k: nat)
    ensures k <= |s| && forall i :: 0 <= i < k ==> IsSpace(s[i])
    ensures k < |s| ==> !IsSpace(s[k])
  {
    if s != [] && IsSpace(s[0]) then 1 + LeadingSpaces(s[1..]) else 0
  }

  /** The number of whitespace characters at the end of `s`. */
  function TrailingSpaces(s: string): (k: nat)
    ensures k <= |s| && forall i :: |s| - k <= i < |s| ==> IsSpace(s[i])
    ensures k < |s| ==> !IsSpace(s[|s| - k - 1])
  {
    if s != [] && IsSpace(s[|s| - 1]) then 1 + TrailingSpaces(s[..|s| - 1]) else 0
  }

  /** Python's `s.strip()`. */
  function Strip(s: string): (r: string)
    ensures NoEdgeSpace(r) && LeadingSpaces(s) + |r| <= |s|
    ensures r == s[LeadingSpaces(s)..LeadingSpaces(s) + |r|]
    ensures AllSpace(s[..LeadingSpaces(s)]) && AllSpace(s[LeadingSpaces(s) + |r|..])
    ensures r == [] <==> AllSpace(s)
    ensures NoEdgeSpace(s) ==> r == s
  {
    var a := LeadingSpaces(s);
    PrefixAllSpace(s, a);
    if a == |s| then
      assert s[..a] == s;
      []
    else
      var b := TrailingSpaces(s);
      assert !IsSpace(s[a]);
      SuffixAllSpace(s, b);
      TrimmedEnds(s, a, b);
      assert NoEdgeSpace(s) ==> s[a..|s| - b] == s by {
        if NoEdgeSpace(s) {
          UntrimmedCounts(s);
        }
      }
      s[a..|s| - b]
  }

  /** What lies between a non-space at `a` and a non-space just before the last
      `b` characters starts and ends with a non-space. */
  lemma TrimmedEnds(s: string, a: nat, b: nat)
    requires a < |s| - b && !IsSpace(s[a]) && !IsSpace(s[|s| - b - 1])
    ensures NoEdgeSpace(s[a..|s| - b])
  {
    var r := s[a..|s| - b];
    assert r[0] == s[a] && r[|r| - 1] == s[|s| - b - 1];
  }

  lemma PrefixAllSpace(s: string, a: nat)
    requires a <= |s| && forall i :: 0 <= i < a ==> IsSpace(s[i])
    ensures AllSpace(s[..a])
  {
    assert forall i :: 0 <= i < a ==> s[..a][i] == s[i];
  }

  lemma SuffixAllSpace(s: string, b: nat)
    requires b <= |s| && forall i :: |s| - b <= i < |s| ==> IsSpace(s[i])
    ensures AllSpace(s[|s| - b..])
  {
    var t := s[|s| - b..];
    forall i | 0 <= i < |t| ensures IsSpace(t[i]) {
      assert t[i] == s[|s| - b + i];
    }
  }

  lemma UntrimmedCounts(s: string)
    requires NoEdgeSpace(s)
    ensures LeadingSpaces(s) == 0 && TrailingSpaces(s) == 0
  {
    if s != [] {
      assert !IsSpace(s[0]) && !IsSpace(s[|s| - 1]);
    }
  }

  lemma AllSpaceConcat(a: string, b: string)
    requires AllSpace(a) && AllSpace(b)
    ensures AllSpace(a + b)
  {
    assert forall i :: 0 <= i < |a + b| ==> (a + b)[i] == if i < |a| then a[i] else b[i - |a|];
  }

  lemma LeadingSpacesPadded(a: string, x: string)
    requires AllSpace(a) && x != [] && !IsSpace(x[0])
    ensures LeadingSpaces(a + x) == |a|
    decreases |a|
  {
    if a != [] {
      assert (a + x)[1..] == a[1..] + x;
      LeadingSpacesPadded(a[1..], x);
    }
  }

  lemma TrailingSpacesPadded(x: string, b: string)
    requires AllSpace(b) && x != [] && !IsSpace(x[|x| - 1])
    ensures TrailingSpaces(x + b) == |b|
    decreases |b|
  {
    if b != [] {
      assert (x + b)[..|x + b| - 1] == x + b[..|b| - 1];
      TrailingSpacesPadded(x, b[..|b| - 1]);
    }
  }

  /** `strip()` removes exactly the whitespace padding around a stripped text. */
  lemma {:induction false} StripPadded(a: string, x: string, b: string)
    requires AllSpace(a) && AllSpace(b) && NoEdgeSpace(x)
    ensures Strip(a + x + b) == x
  {
    var s := a + x + b;
    if x == [] {
      AllSpaceConcat(a, b);
      assert s == a + b;
    } else {
      assert s == a + (x + b);
      LeadingSpacesPadded(a, x + b);
      TrailingSpacesPadded(a + x, b);
      assert s[|a|..|s| - |b|] == x;
    }
  }

  /** A character that `r` holds at position `i` lies in the infix `s[lo..hi]` of which `r` is a copy. */
  lemma InfixChars(r: string, s: string, lo: nat, hi: nat)
    requires lo <= hi <= |s| && r == s[lo..hi]
    ensures CharsFrom(r, s)
  {
    forall c | c in r ensures c in s {
      var i :| 0 <= i < |r| && r[i] == c;
      assert s[lo + i] == c;
    }
  }

  lemma StripChars(s: string)
    ensures CharsFrom(Strip(s), s)
  {
    var r := Strip(s);
    InfixChars(r, s, LeadingSpaces(s), LeadingSpaces(s) + |r|);
  }

  lemma StripKeepsNoSpaceRun(s: string)
    requires NoSpaceRun(s)
    ensures NoSpaceRun(Strip(s))
  {
    var r := Strip(s);
    var a := LeadingSpaces(s);
    assert forall i :: 0 <= i < |r| ==> r[i] == s[a + i];
  }

  /** `r` has whitespace exactly where `s` has. */
  predicate SameSpaces(r: string, s: string) {
    |r| == |s| && forall i :: 0 <= i < |s| ==> (IsSpace(r[i]) <==> IsSpace(s[i]))
  }

  lemma NoSpaceRunTransfer(r: string, s: string)
    requires SameSpaces(r, s) && NoSpaceRun(s)
    ensures NoSpaceRun(r)
  {
    forall i | 0 <= i < |r| - 1 ensures !IsSpace(r[i]) || !IsSpace(r[i + 1]) {
      assert !IsSpace(s[i]) || !IsSpace(s[i + 1]);
    }
  }

  /** Python's `re.sub(r"\s+", " ", s)`: each maximal run of whitespace becomes one space. */
  function CollapseSpace(s: string): (r: string)
    ensures NoSpaceRun(r)
    ensures forall i :: 0 <= i < |r| && IsSpace(r[i]) ==> r[i] == ' '
    ensures s == [] <==> r == []
    ensures s != [] && IsSpace(s[0]) ==> r[0] == ' '
    ensures s != [] && !IsSpace(s[0]) ==> r[0] == s[0]
    ensures forall c :: c in r && !IsSpace(c) ==> c in s
    decreases |s|
  {
    if s == [] then []
    else if IsSpace(s[0]) then
      var t := s[LeadingSpaces(s)..];
      var tail := CollapseSpace(t);
      assert forall c :: c in tail && !IsSpace(c) ==> c in s by {
        InfixChars(t, s, LeadingSpaces(s), |s|);
      }
      [' '] + tail
    else
      var tail := CollapseSpace(s[1..]);
      [s[0]] + tail
  }

  lemma CollapseEdges(s: string)
    requires NoEdgeSpace(s)
    ensures NoEdgeSpace(CollapseSpace(s))
    decreases |s|
  {
    var r := CollapseSpace(s);
    if |s| > 1 {
      if IsSpace(s[0]) {
      } else {
        CollapseLast(s[1..]);
      }
    }
  }

  /** The last character of the collapse is a space exactly when `s` ends in whitespace. */
  lemma {:induction false} CollapseLast(s: string)
    requires s != []
    ensures var r := CollapseSpace(s); IsSpace(r[|r| - 1]) <==> IsSpace(s[|s| - 1])
    decreases |s|
  {
    var r := CollapseSpace(s);
    if IsSpace(s[0]) {
      var t := s[LeadingSpaces(s)..];
      assert r == [' '] + CollapseSpace(t);
      if t != [] {
        CollapseLast(t);
        assert s[|s| - 1] == t[|t| - 1];
      } else {
        assert IsSpace(s[|s| - 1]);
      }
    } else {
      assert r == [s[0]] + CollapseSpace(s[1..]);
      if |s| > 1 {
        CollapseLast(s[1..]);
        assert s[|s| - 1] == s[1..][|s| - 2];
      }
    }
  }

  /** Text that is already collapsed is left as it is. */
  lemma {:induction false} CollapseIdentity(s: string)
    requires NoSpaceRun(s) && forall i :: 0 <= i < |s| && IsSpace(s[i]) ==> s[i] == ' '
    ensures CollapseSpace(s) == s
    decreases |s|
  {
    if s != [] {
      var t := s[1..];
      forall i | 0 <= i < |t| - 1 ensures !IsSpace(t[i]) || !IsSpace(t[i + 1]) {
        assert t[i] == s[i + 1] && t[i + 1] == s[i + 2];
      }
      forall i | 0 <= i < |t| && IsSpace(t[i]) ensures t[i] == ' ' {
        assert t[i] == s[i + 1];
      }
      CollapseIdentity(t);
      if IsSpace(s[0]) {
        assert LeadingSpaces(s) == 1 by {
          if |s| > 1 {
            assert t[0] == s[1] && !IsSpace(s[1]);
          }
        }
        assert s == [' '] + t;
      } else {
        assert s == [s[0]] + t;
      }
    }
  }

  /** The only whitespace in `s` is the plain space. */
  predicate SpacesAreBlank(s: string) {
    forall i :: 0 <= i < |s| && IsSpace(s[i]) ==> s[i] == ' '
  }

  lemma StripKeepsBlank(s: string)
    requires SpacesAreBlank(s)
    ensures SpacesAreBlank(Strip(s))
  {
    var r := Strip(s);
    var a := LeadingSpaces(s);
    assert forall i :: 0 <= i < |r| ==> r[i] == s[a + i];
  }

  lemma LowerKeepsBlank(s: string)
    requires SpacesAreBlank(s)
    ensures SpacesAreBlank(Lower(s))
  {
    LowerFacts(s);
  }

  /** Python's `s.replace(a, b)` for one character by one character. */
  function ReplaceChar(s: string, a: char, b: char): (r: string) {
    seq(|s|, i requires 0 <= i < |s| => if s[i] == a then b else s[i])
  }

  lemma {:induction false} ReplaceCharFacts(s: string, a: char, b: char)
    requires a != b
    ensures var r := ReplaceChar(s, a, b);
      |r| == |s| && a !in r && (forall c :: c in r ==> c in s || c == b)
      && (forall i :: 0 <= i < |s| ==> (IsSpace(r[i]) <==> IsSpace(s[i])) || s[i] == a)
  {
    var r := ReplaceChar(s, a, b);
    forall c | c in r ensures c != a && (c in s || c == b) {
      var i :| 0 <= i < |r| && r[i] == c;
    }
  }

  /** The string without the characters of `cs`, the rest kept in order
      (`re.sub` with a character class and an empty replacement). */
  function RemoveChars(s: string, cs: set<char>): (r: string)
    ensures |r| <= |s|
    ensures forall c :: c in r <==> c in s && c !in cs
  {
    if s == [] then []
    else if s[0] in cs then RemoveChars(s[1..], cs)
    else [s[0]] + RemoveChars(s[1..], cs)
  }

  lemma {:induction false} RemoveCharsNone(s: string, cs: set<char>)
    requires forall i :: 0 <= i < |s| ==> s[i] !in cs
    ensures RemoveChars(s, cs) == s
    decreases |s|
  {
    if s != [] {
      RemoveCharsNone(s[1..], cs);
      assert s == [s[0]] + s[1..];
    }
  }

  lemma {:induction false} RemoveCharsConcat(a: string, b: string, cs: set<char>)
    ensures RemoveChars(a + b, cs) == RemoveChars(a, cs) + RemoveChars(b, cs)
    decreases |a|
  {
    if a == [] {
      assert a + b == b;
    } else {
      assert (a + b)[0] == a[0];
      assert (a + b)[1..] == a[1..] + b;
      RemoveCharsConcat(a[1..], b, cs);
    }
  }

  predicate IsUpper(c: char) {
    'A' <= c <= 'Z'
  }

  function LowerChar(c: char): char {
    if IsUpper(c) then (c as int + 32) as char else c
  }

  /** Python's `s.lower()` restricted to ASCII letters. */
  function Lower(s: string): (r: string) {
    seq(|s|, i requires 0 <= i < |s| => LowerChar(s[i]))
  }

  lemma LowerFacts(s: string)
    ensures var r := Lower(s);
      |r| == |s| && (forall c :: c in r ==> !IsUpper(c))
      && (forall c :: c in r && c !in s ==> 'a' <= c <= 'z')
      && (forall i :: 0 <= i < |s| ==> (IsSpace(r[i]) <==> IsSpace(s[i])))
  {
    var r := Lower(s);
    forall c | c in r ensures !IsUpper(c) && (c !in s ==> 'a' <= c <= 'z') {
      var i :| 0 <= i < |r| && r[i] == c;
    }
  }

  lemma LowerIdentity(s: string)
    requires forall i :: 0 <= i < |s| ==> !IsUpper(s[i])
    ensures Lower(s) == s
  {
  }

  /** `v.lower() == w` for a word `w` of lower-case ASCII letters: each letter of
      `v` is the letter of `w` or its upper-case form. */
  lemma LowerEquals(v: string, w: string)
    requires forall i :: 0 <= i < |w| ==> 'a' <= w[i] <= 'z'
    ensures Lower(v) == w <==> |v| == |w| && forall i :: 0 <= i < |v| ==> v[i] == w[i] || v[i] as int == w[i] as int - 32
  {
    if Lower(v) == w {
      forall i | 0 <= i < |v| ensures v[i] == w[i] || v[i] as int == w[i] as int - 32 {
        assert Lower(v)[i] == LowerChar(v[i]);
      }
    }
    if |v| == |w| && forall i :: 0 <= i < |v| ==> v[i] == w[i] || v[i] as int == w[i] as int - 32 {
      forall i | 0 <= i < |v| ensures Lower(v)[i] == w[i] {
        assert Lower(v)[i] == LowerChar(v[i]);
      }
    }
  }

  predicate StartsWith(s: string, p: string) {
    |p| <= |s| && s[..|p|] == p
  }

  predicate EndsWith(s: string, p: string) {
    |p| <= |s| && s[|s| - |p|..] == p
  }

  /** `sub` occurs in `s` starting at index `i`. */
  predicate OccursAt(s: string, sub: string, i: int) {
    0 <= i && i + |sub| <= |s| && s[i..i + |sub|] == sub
  }

  /** Python's `sub in s`. */
  predicate Contains(s: string, sub: string) {
    exists i | 0 <= i <= |s| :: OccursAt(s, sub, i)
  }

  lemma ContainsInfix(s: string, sub: string, i: nat)
    requires i + |sub| <= |s| && s[i..i + |sub|] == sub
    ensures Contains(s, sub)
  {
    assert OccursAt(s, sub, i);
  }

  /** A text that lacks the first character of `sub` does not contain `sub`. */
  lemma MissingFirstChar(s: string, sub: string)
    requires sub != [] && sub[0] !in s
    ensures !Contains(s, sub)
  {
    forall i | 0 <= i <= |s| ensures !OccursAt(s, sub, i) {
      if i + |sub| <= |s| {
        assert s[i..i + |sub|][0] == s[i];
      }
    }
  }

  lemma ContainsSuffix(p: string, s: string)
    ensures Contains(p + s, s)
  {
    ContainsInfix(p + s, s, |p|);
  }

  /** The position of the first `c` in `s`, as Python's `s.find(c)` when it is found. */
  function IndexOf(s: string, c: char): (r: Option<nat>)
    ensures r.None? <==> c !in s
    ensures r.Some? ==> r.value < |s| && s[r.value] == c && c !in s[..r.value]
  {
    if s == [] then None
    else if s[0] == c then Some(0)
    else match IndexOf(s[1..], c)
      case None => None
      case Some(k) =>
        assert s[..k + 1] == [s[0]] + s[1..][..k];
        Some(k + 1)
  }

  /** The position of the last `c` in `s`, as Python's `s.rfind(c)` when it is found. */
  function LastIndexOf(s: string, c: char): (r: Option<nat>)
    ensures r.None? <==> c !in s
    ensures r.Some? ==> r.value < |s| && s[r.value] == c && c !in s[r.value + 1..]
  {
    if s == [] then None
    else if s[|s| - 1] == c then Some(|s| - 1)
    else
      var init := s[..|s| - 1];
      assert forall x :: x in s <==> x in init || x == s[|s| - 1] by {
        assert s == init + [s[|s| - 1]];
      }
      match LastIndexOf(init, c)
      case None => None
      case Some(k) =>
        assert s[k + 1..] == init[k + 1..] + [s[|s| - 1]];
        Some(k)
  }

  function Join(parts: seq<string>, sep: string): string {
    if parts == [] then ""
    else if |parts| == 1 then parts[0]
    else parts[0] + sep + Join(parts[1..], sep)
  }

  function DigitChar(d: nat): char
    requires d < 10
  {
    ('0' as int + d) as char
  }

  /** `str(n)` for a natural number. */
  function NatToString(n: nat): (r: string)
    ensures r != []
  {
    if n < 10 then [DigitChar(n)] else NatToString(n / 10) + [DigitChar(n % 10)]
  }
}
