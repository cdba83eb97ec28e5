/** The Python string built-ins the core relies on (`str.lower`, `in`, `find`,
    `rfind`, slicing, `strip`, `split`, `join`, `capitalize`, `str(int)`), restricted to
    ASCII where Python applies Unicode case rules. */
module Text {

  predicate IsUpper(c: char) { 'A' <= c <= 'Z' }

  predicate IsLowerLetter(c: char) { 'a' <= c <= 'z' }

  predicate IsDigit(c: char) { '0' <= c <= '9' }

  function LowerChar(c: char): (r: char)
    ensures IsUpper(c) ==> IsLowerLetter(r) && r as int - c as int == 32
    ensures !IsUpper(c) ==> r == c
  {
    if IsUpper(c) then (c as int + 32) as char else c
  }

  function UpperChar(c: char): (r: char)
    ensures IsLowerLetter(c) ==> IsUpper(r) && c as int - r as int == 32
    ensures !IsLowerLetter(c) ==> r == c
  {
    if IsLowerLetter(c) then (c as int - 32) as char else c
  }

  /** `s.lower()` for ASCII text. */
  function Lower(s: string): (r: string)
    ensures |r| == |s|
  {
    seq(|s|, i requires 0 <= i < |s| => LowerChar(s[i]))
  }

  /** Text without upper-case letters is its own lower-case form. */
  lemma LowerUnchanged(s: string)
    requires forall i :: 0 <= i < |s| ==> !IsUpper(s[i])
    ensures Lower(s) == s
  {
    assert forall i :: 0 <= i < |s| ==> Lower(s)[i] == s[i];
  }

  lemma LowerOfConcat(a: string, b: string)
    ensures Lower(a + b) == Lower(a) + Lower(b)
  {
    assert forall i :: 0 <= i < |a + b| ==> Lower(a + b)[i] == (Lower(a) + Lower(b))[i];
  }

  /** `pat` occurs in `s` starting at position `i`. */
  predicate OccursAt(s: string, i: nat, pat: string)
  {
    i + |pat| <= |s| && s[i..i + |pat|] == pat
  }

  /** Python's `pat in s` on strings. */
  predicate Contains(s: string, pat: string)
  {
    exists i :: 0 <= i <= |s| && OccursAt(s, i, pat)
  }

  /** `s.find(c)`: the first index of `c`, or -1. */
  function Find(s: string, c: char): (r: int)
    ensures -1 <= r < |s|
    ensures r == -1 <==> c !in s
    ensures r >= 0 ==> s[r] == c && c !in s[..r]
  {
    if s == [] then -1
    else if s[0] == c then 0
    else
      var k := Find(s[1..], c);
      assert s[1..][..k + 1] == s[1..k + 2] by { }
      if k == -1 then -1 else k + 1
  }

  /** `s.rfind(c)`: the last index of `c`, or -1. */
  function RFind(s: string, c: char): (r: int)
    ensures -1 <= r < |s|
    ensures r == -1 <==> c !in s
    ensures r >= 0 ==> s[r] == c && c !in s[r + 1..]
  {
    if s == [] then -1
    else if s[|s| - 1] == c then |s| - 1
    else
      var init := s[..|s| - 1];
      var k := RFind(init, c);
      assert s == init + [s[|s| - 1]];
      assert k >= 0 ==> s[k + 1..] == init[k + 1..] + [s[|s| - 1]];
      k
  }

  /** `s[lo:hi]` for non-negative bounds. */
  function Slice(s: string, lo: nat, hi: nat): (r: string)
    ensures hi <= lo ==> r == []
    ensures lo <= hi <= |s| ==> r == s[lo..hi]
    ensures |r| <= |s|
  {
    if hi <= lo || lo >= |s| then []
    else if hi <= |s| then s[lo..hi]
    else s[lo..]
  }

  /** `sep.join(parts)`. */
  function Join(sep: string, parts: seq<string>): string
    decreases |parts|
  {
    if parts == [] then ""
    else if |parts| == 1 then parts[0]
    else parts[0] + sep + Join(sep, parts[1..])
  }

  /** Where `parts[i]` starts inside `Join(sep, parts)`. */
  function JoinOffset(sep: string, parts: seq<string>, i: nat): nat
    requires i < |parts|
    decreases i
  {
    if i == 0 then 0 else |parts[0]| + |sep| + JoinOffset(sep, parts[1..], i - 1)
  }

  /** Every part stands verbatim in the joined text, at its offset. */
  lemma {:induction false} JoinPartAt(sep: string, parts: seq<string>, i: nat)
    requires i < |parts|
    ensures OccursAt(Join(sep, parts), JoinOffset(sep, parts, i), parts[i])
    decreases i
  {
    if |parts| == 1 {
    } else if i == 0 {
      var rest := Join(sep, parts[1..]);
      assert Join(sep, parts) == parts[0] + (sep + rest);
    } else {
      JoinPartAt(sep, parts[1..], i - 1);
      var rest := Join(sep, parts[1..]);
      var pre := parts[0] + sep;
      var off := JoinOffset(sep, parts[1..], i - 1);
      assert parts[1..][i - 1] == parts[i];
      assert Join(sep, parts) == pre + rest;
      OccursSuffix(pre, rest);
      OccursWithin(pre + rest, |pre|, rest, parts[i], off);
    }
  }

  /** Consecutive parts are one separator apart, so the parts keep their order. */
  lemma {:induction false} JoinOffsetNext(sep: string, parts: seq<string>, i: nat)
    requires 0 < i < |parts|
    ensures JoinOffset(sep, parts, i - 1) + |parts[i - 1]| + |sep| == JoinOffset(sep, parts, i)
    decreases i
  {
    if i > 1 {
      JoinOffsetNext(sep, parts[1..], i - 1);
      assert parts[1..][i - 2] == parts[i - 1];
    }
  }

  lemma OccursWithin(outer: string, at: nat, mid: string, inner: string, at2: nat)
    requires OccursAt(outer, at, mid) && OccursAt(mid, at2, inner)
    ensures OccursAt(outer, at + at2, inner)
  {
    forall k | 0 <= k < |inner|
      ensures outer[at + at2 + k] == inner[k]
    {
      assert inner[k] == mid[at2..at2 + |inner|][k] == mid[at2 + k];
      assert mid[at2 + k] == outer[at..at + |mid|][at2 + k];
    }
    assert outer[at + at2..at + at2 + |inner|] == inner;
  }

  lemma OccursSuffix(a: string, b: string)
    ensures OccursAt(a + b, |a|, b)
  {
    assert (a + b)[|a|..] == b;
  }

  lemma OccursConcat(s: string, i: nat, a: string, b: string)
    requires OccursAt(s, i, a) && OccursAt(s, i + |a|, b)
    ensures OccursAt(s, i, a + b)
  {
    assert s[i..i + |a| + |b|] == s[i..i + |a|] + s[i + |a|..i + |a| + |b|];
  }

  lemma OccursSplit(s: string, i: nat, a: string, b: string)
    requires OccursAt(s, i, a + b)
    ensures OccursAt(s, i, a) && OccursAt(s, i + |a|, b)
  {
    assert s[i..i + |a|] == s[i..i + |a| + |b|][..|a|];
    assert s[i + |a|..i + |a| + |b|] == s[i..i + |a| + |b|][|a|..];
  }

  lemma OccursIndex(s: string, i: nat, pat: string, j: nat)
    requires OccursAt(s, i, pat) && j < |pat|
    ensures s[i + j] == pat[j]
  {
    assert s[i..i + |pat|][j] == s[i + j];
  }

  lemma OccursDigits(s: string, i: nat, d: string)
    requires OccursAt(s, i, d) && AllDigits(d)
    ensures DigitsIn(s, i, i + |d|)
  {
    forall j | i <= j < i + |d| ensures IsDigit(s[j]) {
      OccursIndex(s, i, d, j - i);
    }
  }

  /** A run of digits inside an occurrence is a run of digits of the text. */
  lemma OccursDigitsIn(s: string, i: nat, pat: string, a: nat, b: nat)
    requires OccursAt(s, i, pat) && a <= b <= |pat| && DigitsIn(pat, a, b)
    ensures DigitsIn(s, i + a, i + b)
  {
    forall j | i + a <= j < i + b ensures IsDigit(s[j]) {
      OccursIndex(s, i, pat, j - i);
    }
  }

  lemma OccursContains(s: string, i: nat, pat: string)
    requires OccursAt(s, i, pat)
    ensures Contains(s, pat)
  {
  }

  /** `s.split(sep)` with a one-character separator: the maximal pieces between
      separators, at least one (possibly empty) piece. */
  function Split(s: string, sep: char): (parts: seq<string>)
    ensures |parts| >= 1
    ensures forall k :: 0 <= k < |parts| ==> sep !in parts[k]
    decreases |s|
  {
    var k := Find(s, sep);
    if k == -1 then [s] else [s[..k]] + Split(s[k + 1..], sep)
  }

  /** Splitting and re-joining with the same separator gives the text back. */
  lemma {:induction false} JoinSplit(s: string, sep: char)
    ensures Join([sep], Split(s, sep)) == s
    decreases |s|
  {
    var k := Find(s, sep);
    if k != -1 {
      var rest := Split(s[k + 1..], sep);
      JoinSplit(s[k + 1..], sep);
      var parts := [s[..k]] + rest;
      assert Split(s, sep) == parts;
      assert parts[0] == s[..k] && parts[1..] == rest && |parts| >= 2;
      assert Join([sep], parts) == s[..k] + [sep] + Join([sep], rest);
      AroundIndex(s, k);
    }
  }

  /** A text is what lies before an index, the character there, and what follows. */
  lemma AroundIndex(s: string, k: nat)
    requires k < |s|
    ensures s == s[..k] + [s[k]] + s[k + 1..]
  {
    assert s[..k] + [s[k]] == s[..k + 1];
    assert s[..k + 1] + s[k + 1..] == s;
  }

  /** Joining pieces that hold no separator and splitting again gives the pieces. */
  lemma {:induction false} SplitJoin(parts: seq<string>, sep: char)
    requires |parts| >= 1
    requires forall k :: 0 <= k < |parts| ==> sep !in parts[k]
    ensures Split(Join([sep], parts), sep) == parts
    decreases |parts|
  {
    var s := Join([sep], parts);
    if |parts| == 1 {
      assert Find(s, sep) == -1;
    } else {
      var rest := Join([sep], parts[1..]);
      assert s == parts[0] + [sep] + rest;
      FindAfterFree(parts[0], sep, rest);
      assert s[..|parts[0]|] == parts[0];
      assert s[|parts[0]| + 1..] == rest;
      SplitJoin(parts[1..], sep);
    }
  }

  lemma FindAfterFree(a: string, c: char, b: string)
    requires c !in a
    ensures Find(a + [c] + b, c) == |a|
  {
    var s := a + [c] + b;
    assert s[..|a|] == a;
    assert s[|a|] == c;
  }

  lemma RFindBeforeFree(a: string, c: char, b: string)
    requires c !in b
    ensures RFind(a + [c] + b, c) == |a|
  {
    var s := a + [c] + b;
    assert s[|a| + 1..] == b;
    assert s[|a|] == c;
  }

  /** `c.isspace()`: the white space of the ASCII range, the information
      separators, NEL, NBSP and the Unicode space separators and line and
      paragraph separators. */
  predicate IsSpace(c: char)
  {
    '\t' <= c <= '\r' || '\U{1C}' <= c <= ' ' || c == '\U{85}' || c == '\U{A0}' || c == '\U{1680}'
    || '\U{2000}' <= c <= '\U{200A}' || c == '\U{2028}' || c == '\U{2029}' || c == '\U{202F}'
    || c == '\U{205F}' || c == '\U{3000}'
  }

  /** `s.lstrip()`: a suffix of `s` that does not start with white space. */
  function StripLeft(s: string): (r: string)
    ensures |r| <= |s| && r == s[|s| - |r|..]
    ensures r == [] || !IsSpace(r[0])
    ensures forall i :: 0 <= i < |s| - |r| ==> IsSpace(s[i])
  {
    if s != [] && IsSpace(s[0]) then StripLeft(s[1..]) else s
  }

  /** `s.rstrip()`: a prefix of `s` that does not end with white space. */
  function StripRight(s: string): (r: string)
    ensures |r| <= |s| && r == s[..|r|]
    ensures r == [] || !IsSpace(r[|r| - 1])
    ensures forall i :: |r| <= i < |s| ==> IsSpace(s[i])
  {
    if s != [] && IsSpace(s[|s| - 1]) then StripRight(s[..|s| - 1]) else s
  }

  /** `s.strip()`. */
  function Strip(s: string): string
  {
    StripRight(StripLeft(s))
  }

  /** Leading white space is removed only up to the first other character. */
  lemma {:induction false} StripLeftBefore(a: string, m: string)
    requires m != [] && !IsSpace(m[0])
    ensures StripLeft(a + m) == StripLeft(a) + m
  {
    if a != [] {
      assert (a + m)[1..] == a[1..] + m;
      StripLeftBefore(a[1..], m);
    }
  }

  /** Trailing white space is removed only back to the last other character. */
  lemma {:induction false} StripRightAfter(m: string, b: string)
    requires m != [] && !IsSpace(m[|m| - 1])
    ensures StripRight(m + b) == m + StripRight(b)
    decreases |b|
  {
    if b != [] {
      assert (m + b)[..|m + b| - 1] == m + b[..|b| - 1];
      StripRightAfter(m, b[..|b| - 1]);
    }
  }

  /** Stripping text around a middle part that starts and ends with other
      characters keeps the middle part and shortens only what surrounds it. */
  lemma StripAround(a: string, m: string, b: string)
    requires m != [] && !IsSpace(m[0]) && !IsSpace(m[|m| - 1])
    ensures Strip(a + m + b) == StripLeft(a) + m + StripRight(b)
  {
    var mb := m + b;
    var left := StripLeft(a);
    var lm := left + m;
    assert mb[0] == m[0];
    assert lm[|lm| - 1] == m[|m| - 1];
    calc {
      Strip(a + m + b);
      { assert a + m + b == a + mb; }
      StripRight(StripLeft(a + mb));
      { StripLeftBefore(a, mb); }
      StripRight(left + mb);
      { assert left + mb == lm + b; }
      StripRight(lm + b);
      { StripRightAfter(lm, b); }
      lm + StripRight(b);
    }
  }

  /** `w.capitalize()`: first character upper-case, the rest lower-case. */
  function Capitalize(w: string): (r: string)
    ensures |r| == |w|
  {
    if w == [] then [] else [UpperChar(w[0])] + Lower(w[1..])
  }

  function Concat(parts: seq<string>): string
  {
    if parts == [] then "" else parts[0] + Concat(parts[1..])
  }

  function CapitalizeAll(parts: seq<string>): (r: seq<string>)
    ensures |r| == |parts|
    ensures forall k :: 0 <= k < |parts| ==> r[k] == Capitalize(parts[k])
  {
    if parts == [] then [] else [Capitalize(parts[0])] + CapitalizeAll(parts[1..])
  }

  function DigitChar(d: nat): (c: char)
    requires d < 10
    ensures IsDigit(c)
  {
    (d + '0' as int) as char
  }

  function DigitValue(c: char): (d: nat)
    requires IsDigit(c)
    ensures d < 10 && DigitChar(d) == c
  {
    c as int - '0' as int
  }

  predicate AllDigits(s: string)
  {
    forall k :: 0 <= k < |s| ==> IsDigit(s[k])
  }

  /** The number a run of decimal digits denotes (`int(s)`). */
  function DigitsValue(s: string): nat
    requires AllDigits(s)
    decreases |s|
  {
    if s == [] then 0 else 10 * DigitsValue(s[..|s| - 1]) + DigitValue(s[|s| - 1])
  }

  /** `str(n)` for a natural number. */
  function NatToString(n: nat): (r: string)
    ensures |r| >= 1 && AllDigits(r)
    decreases n
  {
    if n < 10 then [DigitChar(n)] else NatToString(n / 10) + [DigitChar(n % 10)]
  }

  /** `int(str(n)) == n`. */
  lemma {:induction false} NatToStringRoundTrip(n: nat)
    ensures DigitsValue(NatToString(n)) == n
    decreases n
  {
    var r := NatToString(n);
    if n >= 10 {
      NatToStringRoundTrip(n / 10);
      assert r[..|r| - 1] == NatToString(n / 10);
    }
  }

  /** Positions `a` .. `b - 1` of `s` hold digits. */
  predicate DigitsIn(s: string, a: nat, b: nat)
  {
    b <= |s| && forall j :: a <= j < b ==> IsDigit(s[j])
  }

  lemma DigitsInSlice(s: string, a: nat, b: nat)
    requires a <= b <= |s|
    ensures DigitsIn(s, a, b) <==> AllDigits(s[a..b])
  {
    if DigitsIn(s, a, b) {
      forall k | 0 <= k < b - a ensures IsDigit(s[a..b][k]) {
        assert s[a..b][k] == s[a + k];
      }
    }
    if AllDigits(s[a..b]) {
      forall j | a <= j < b ensures IsDigit(s[j]) {
        assert s[j] == s[a..b][j - a];
      }
    }
  }

  /** Length of the maximal run of digits starting at `i` (what a greedy `\d+`
      or `\d*` consumes). */
  function DigitRun(s: string, i: nat): (n: nat)
    ensures i <= |s| ==> DigitsIn(s, i, i + n)
    ensures i + n < |s| ==> !IsDigit(s[i + n])
    ensures i > |s| ==> n == 0
    decreases |s| - i
  {
    if i < |s| && IsDigit(s[i]) then 1 + DigitRun(s, i + 1) else 0
  }

  /** A run of `k` digits followed by a non-digit, or by the end, is the maximal run. */
  lemma {:induction false} DigitRunExact(s: string, i: nat, k: nat)
    requires DigitsIn(s, i, i + k)
    requires i + k < |s| ==> !IsDigit(s[i + k])
    ensures DigitRun(s, i) == k
    decreases k
  {
    if k > 0 {
      DigitRunExact(s, i + 1, k - 1);
    }
  }
}
