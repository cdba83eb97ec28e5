/** Classification of a failed generation call by its message, and the waits the
    two retry loops derive from it (research_agent.py:125-134, 153-163;
    app.py:118-134). Both files test lower-cased substrings; the wait hints come
    from three regular-expression searches, each modelled as a matcher at one
    start position plus the leftmost-match search of `re.search`. */
module Backoff {
  import opened Common
  import opened Text

  // ----- research_agent.py -------------------------------------------------

  /** research_agent.py:127: the tool named in the call is not accepted. */
  predicate AgentToolUnsupported(message: string)
  {
    var s := Lower(message);
    Contains(s, "not supported") || Contains(s, "unsupported") || Contains(s, "is not supported")
  }

  /** research_agent.py:131 and 154: a quota / rate-limit failure. */
  predicate AgentQuota(message: string)
  {
    var s := Lower(message);
    Contains(s, "quota") || Contains(s, "you exceeded") || Contains(s, "429")
  }

  /** The shape `\d+\.?\d*`: digits, then optionally a dot and more digits. */
  predicate DecimalToken(g: string)
  {
    exists k :: 1 <= k <= |g| && DigitsIn(g, 0, k) && (k == |g| || (g[k] == '.' && DigitsIn(g, k + 1, |g|)))
  }

  /** A match of `retry in (\d+\.?\d*)s` at position `i` of the lower-cased text
      `t`, capturing `g`. */
  ghost predicate RetryInDecimalMatch(t: string, i: nat, g: string)
  {
    OccursAt(t, i, "retry in ") && DecimalToken(g) && OccursAt(t, i + 9, g + "s")
  }

  /** The group `retry in (\d+\.?\d*)s` captures when the match starts at `i`:
      the maximal digit run, then, if a dot follows, the dot and the next maximal
      digit run; the whole must be followed by `s`. */
  function RetryInDecimalAt(t: string, i: nat): Option<string>
  {
    if !OccursAt(t, i, "retry in ") then None
    else
      var p := i + 9;
      var q := p + DigitRun(t, p);
      if q == p || q >= |t| then None
      else if t[q] == 's' then Some(t[p..q])
      else if t[q] == '.' then
        var e := q + 1 + DigitRun(t, q + 1);
        if e < |t| && t[e] == 's' then Some(t[p..e]) else None
      else None
  }

  /** Whatever the matcher captures is a real match ... */
  lemma RetryInDecimalAtSound(t: string, i: nat)
    requires RetryInDecimalAt(t, i).Some?
    ensures RetryInDecimalMatch(t, i, RetryInDecimalAt(t, i).value)
  {
    var g := RetryInDecimalAt(t, i).value;
    var p := i + 9;
    var k := DigitRun(t, p);
    var q := p + k;
    forall j | 0 <= j < k ensures IsDigit(g[j]) {
      assert g[j] == t[p + j];
    }
    if t[q] == 's' {
      assert |g| == k && DigitsIn(g, 0, k);
    } else {
      assert g[k] == t[q];
      forall j | k + 1 <= j < |g| ensures IsDigit(g[j]) {
        assert g[j] == t[p + j];
      }
      assert 1 <= k < |g| && DigitsIn(g, 0, k) && g[k] == '.' && DigitsIn(g, k + 1, |g|);
    }
    assert DecimalToken(g);
    assert t[p..p + |g| + 1] == g + "s";
  }

  /** ... and every match is found, with the same group: backtracking cannot
      produce another capture at the same position. */
  lemma RetryInDecimalAtComplete(t: string, i: nat, g: string)
    requires RetryInDecimalMatch(t, i, g)
    ensures RetryInDecimalAt(t, i) == Some(g)
  {
    var p := i + 9;
    var k :| 1 <= k <= |g| && DigitsIn(g, 0, k) && (k == |g| || (g[k] == '.' && DigitsIn(g, k + 1, |g|)));
    OccursSplit(t, p, g, "s");
    OccursIndex(t, p + |g|, "s", 0);
    OccursDigitsIn(t, p, g, 0, k);
    DigitRunExact(t, p, k);
    if k == |g| {
      RetryInDecimalAtWhole(t, i, g);
    } else {
      OccursIndex(t, p, g, k);
      OccursDigitsIn(t, p, g, k + 1, |g|);
      DigitRunExact(t, p + k + 1, |g| - k - 1);
      RetryInDecimalAtFraction(t, i, g, k);
    }
  }

  /** The matcher on a whole number of seconds. */
  lemma RetryInDecimalAtWhole(t: string, i: nat, g: string)
    requires OccursAt(t, i, "retry in ") && |g| >= 1 && OccursAt(t, i + 9, g) && DigitRun(t, i + 9) == |g|
    requires i + 9 + |g| < |t| && t[i + 9 + |g|] == 's'
    ensures RetryInDecimalAt(t, i) == Some(g)
  {
  }

  /** The matcher on a number of seconds with a fraction. */
  lemma RetryInDecimalAtFraction(t: string, i: nat, g: string, k: nat)
    requires OccursAt(t, i, "retry in ") && 1 <= k < |g| && OccursAt(t, i + 9, g) && DigitRun(t, i + 9) == k
    requires t[i + 9 + k] == '.' && DigitRun(t, i + 10 + k) == |g| - k - 1
    requires i + 9 + |g| < |t| && t[i + 9 + |g|] == 's'
    ensures RetryInDecimalAt(t, i) == Some(g)
  {
  }

  /** The number a `\d+\.?\d*` token denotes (`float(g)`, exactly). */
  function DecimalValue(g: string): real
  {
    var k := DigitRun(g, 0);
    DigitsInSlice(g, 0, k);
    var whole := DigitsValue(g[..k]) as real;
    if k < |g| && g[k] == '.' && AllDigits(g[k + 1..]) then
      whole + FractionValue(g[k + 1..])
    else whole
  }

  /** The value of the digits after the decimal point. */
  function FractionValue(f: string): real
    requires AllDigits(f)
  {
    DigitsValue(f) as real / Pow10(|f|) as real
  }

  function Pow10(n: nat): (r: nat)
    ensures r >= 1
  {
    if n == 0 then 1 else 10 * Pow10(n - 1)
  }

  /** A match of `retry_delay.*?seconds:\s*(\d+)` at position `i`: `.*?` crosses
      no newline, so `seconds:` stands on the same line as `retry_delay`; the lazy
      star takes the first such `seconds:` that is followed, past any spaces, by a
      digit, and the group is the maximal digit run there. */
  function RetryDelayAt(t: string, i: nat): Option<string>
  {
    if !OccursAt(t, i, "retry_delay") then None else SecondsFrom(t, i + 11)
  }

  function SecondsFrom(t: string, q: nat): (r: Option<string>)
    ensures r.Some? ==> |r.value| >= 1 && AllDigits(r.value)
    decreases |t| - q
  {
    if SecondsAt(t, q).Some? then SecondsAt(t, q)
    else if q < |t| && t[q] != '\n' then SecondsFrom(t, q + 1)
    else None
  }

  function SecondsAt(t: string, q: nat): (r: Option<string>)
    ensures r.Some? ==> |r.value| >= 1 && AllDigits(r.value)
  {
    if !OccursAt(t, q, "seconds:") then None
    else
      var w := q + 8 + SpaceRun(t, q + 8);
      var d := DigitRun(t, w);
      if d == 0 then None
      else
        DigitsInSlice(t, w, w + d);
        Some(t[w..w + d])
  }

  /** `\s` on ASCII text (Python also counts the separators 0x1c-0x1f). */
  predicate IsRegexSpace(c: char)
  {
    c == ' ' || c == '\t' || c == '\n' || c == '\r' || c == '\U{000b}' || c == '\U{000c}'
    || ('\U{001c}' <= c <= '\U{001f}')
  }

  /** What a greedy `\s*` consumes at `i`. */
  function SpaceRun(s: string, i: nat): (n: nat)
    ensures i <= |s| ==> SpacesIn(s, i, i + n)
    ensures i + n < |s| ==> !IsRegexSpace(s[i + n])
    decreases |s| - i
  {
    if i < |s| && IsRegexSpace(s[i]) then 1 + SpaceRun(s, i + 1) else 0
  }

  /** `s[a..b]` holds only characters `\s` matches. */
  ghost predicate SpacesIn(s: string, a: nat, b: nat)
  {
    a <= b <= |s| && forall j :: a <= j < b ==> IsRegexSpace(s[j])
  }

  /** `s[a..b]` crosses no line end, as `.` requires. */
  ghost predicate LineIn(s: string, a: nat, b: nat)
  {
    a <= b <= |s| && forall j :: a <= j < b ==> s[j] != '\n'
  }

  /** A match of `seconds:\s*(\d+)` at `q` capturing `g`: only `\s` between
      the colon and `g`, and `g` a non-empty digit run that no digit follows
      (the greedy `\d+`; giving back spaces cannot help, since no `\s` is a
      digit). */
  ghost predicate SecondsMatch(t: string, q: nat, g: string)
  {
    OccursAt(t, q, "seconds:") && |g| >= 1 && AllDigits(g)
    && exists w: nat :: SpacesIn(t, q + 8, w) && OccursAt(t, w, g) && (w + |g| < |t| ==> !IsDigit(t[w + |g|]))
  }

  /** The lazy `.*?` from `p`: the first `q` on the same line where
      `seconds:\s*(\d+)` matches, with its capture `g`. */
  ghost predicate LazySeconds(t: string, p: nat, g: string)
  {
    exists q: nat :: LineIn(t, p, q) && SecondsMatch(t, q, g)
      && forall q': nat, g': string :: p <= q' < q ==> !SecondsMatch(t, q', g')
  }

  /** A match of `retry_delay.*?seconds:\s*(\d+)` at position `i` of the
      lower-cased text `t`, capturing `g`. */
  ghost predicate RetryDelayMatch(t: string, i: nat, g: string)
  {
    OccursAt(t, i, "retry_delay") && LazySeconds(t, i + 11, g)
  }

  /** A run of `\s` followed by another character, or by the end, is what
      the greedy `\s*` takes. */
  lemma {:induction false} SpaceRunExact(s: string, a: nat, w: nat)
    requires SpacesIn(s, a, w) && (w < |s| ==> !IsRegexSpace(s[w]))
    ensures SpaceRun(s, a) == w - a
    decreases w - a
  {
    if a < w {
      SpaceRunExact(s, a + 1, w);
    }
  }

  /** `SecondsAt` captures exactly the matches of `seconds:\s*(\d+)`. */
  lemma SecondsAtExact(t: string, q: nat, g: string)
    ensures SecondsAt(t, q) == Some(g) <==> SecondsMatch(t, q, g)
  {
    if SecondsAt(t, q) == Some(g) {
      SecondsAtSound(t, q);
    }
    if SecondsMatch(t, q, g) {
      SecondsAtComplete(t, q, g);
    }
  }

  lemma SecondsAtSound(t: string, q: nat)
    requires SecondsAt(t, q).Some?
    ensures SecondsMatch(t, q, SecondsAt(t, q).value)
  {
    var g := SecondsAt(t, q).value;
    var w := q + 8 + SpaceRun(t, q + 8);
    assert g == t[w..w + DigitRun(t, w)];
    assert SpacesIn(t, q + 8, w) && OccursAt(t, w, g);
  }

  lemma SecondsAtComplete(t: string, q: nat, g: string)
    requires SecondsMatch(t, q, g)
    ensures SecondsAt(t, q) == Some(g)
  {
    var w: nat :| SpacesIn(t, q + 8, w) && OccursAt(t, w, g) && (w + |g| < |t| ==> !IsDigit(t[w + |g|]));
    OccursIndex(t, w, g, 0);
    SpaceRunExact(t, q + 8, w);
    OccursDigits(t, w, g);
    DigitRunExact(t, w, |g|);
    SecondsAtOf(t, q, w, g);
  }

  /** The matcher on `seconds:`, spaces up to `w`, and the digit run `g` at `w`. */
  lemma SecondsAtOf(t: string, q: nat, w: nat, g: string)
    requires OccursAt(t, q, "seconds:") && q + 8 <= w && SpaceRun(t, q + 8) == w - q - 8
    requires |g| >= 1 && OccursAt(t, w, g) && DigitRun(t, w) == |g|
    ensures SecondsAt(t, q) == Some(g)
  {
  }

  /** `SecondsFrom` is the lazy `.*?` followed by `seconds:\s*(\d+)`: it
      finds the capture ... */
  lemma {:induction false} SecondsFromSound(t: string, p: nat)
    requires SecondsFrom(t, p).Some?
    ensures LazySeconds(t, p, SecondsFrom(t, p).value)
    decreases |t| - p
  {
    var g := SecondsFrom(t, p).value;
    if SecondsAt(t, p).Some? {
      SecondsAtExact(t, p, g);
      assert LineIn(t, p, p) && SecondsMatch(t, p, g);
    } else {
      SecondsFromSound(t, p + 1);
      LazySecondsBack(t, p, g);
    }
  }

  /** A lazy match from the next character of the line, when nothing matches
      here, is the lazy match from here. */
  lemma LazySecondsBack(t: string, p: nat, g: string)
    requires p < |t| && t[p] != '\n' && SecondsAt(t, p).None? && LazySeconds(t, p + 1, g)
    ensures LazySeconds(t, p, g)
  {
    var q: nat :| LineIn(t, p + 1, q) && SecondsMatch(t, q, g)
      && forall q': nat, g': string :: p + 1 <= q' < q ==> !SecondsMatch(t, q', g');
    forall q', g' | p <= q' < q
      ensures !SecondsMatch(t, q', g')
    {
      if q' == p {
        SecondsAtExact(t, p, g');
      }
    }
    assert LineIn(t, p, q);
  }

  /** ... and every lazy match is found with the same capture. */
  lemma {:induction false} SecondsFromComplete(t: string, p: nat, g: string)
    requires LazySeconds(t, p, g)
    ensures SecondsFrom(t, p) == Some(g)
    decreases |t| - p
  {
    if SecondsAt(t, p).Some? {
      LazySecondsHere(t, p, g);
    } else {
      LazySecondsStep(t, p, g);
      SecondsFromComplete(t, p + 1, g);
    }
  }

  /** A lazy match where `seconds:\s*(\d+)` matches at once is that match. */
  lemma LazySecondsHere(t: string, p: nat, g: string)
    requires LazySeconds(t, p, g) && SecondsAt(t, p).Some?
    ensures SecondsAt(t, p) == Some(g)
  {
    var q: nat :| LineIn(t, p, q) && SecondsMatch(t, q, g)
      && forall q': nat, g': string :: p <= q' < q ==> !SecondsMatch(t, q', g');
    var h := SecondsAt(t, p).value;
    SecondsAtExact(t, p, h);
    assert q == p;
    SecondsAtExact(t, p, g);
  }

  /** Otherwise the lazy match goes on from the next character of the line. */
  lemma LazySecondsStep(t: string, p: nat, g: string)
    requires LazySeconds(t, p, g) && SecondsAt(t, p).None?
    ensures p < |t| && t[p] != '\n' && LazySeconds(t, p + 1, g)
  {
    var q: nat :| LineIn(t, p, q) && SecondsMatch(t, q, g)
      && forall q': nat, g': string :: p <= q' < q ==> !SecondsMatch(t, q', g');
    SecondsAtExact(t, p, g);
    assert p < q;
    assert LineIn(t, p + 1, q);
  }

  /** Whatever `RetryDelayAt` captures is a match of the pattern ... */
  lemma RetryDelayAtSound(t: string, i: nat)
    requires RetryDelayAt(t, i).Some?
    ensures RetryDelayMatch(t, i, RetryDelayAt(t, i).value)
  {
    SecondsFromSound(t, i + 11);
  }

  /** ... and every match is found, with the same group. */
  lemma RetryDelayAtComplete(t: string, i: nat, g: string)
    requires RetryDelayMatch(t, i, g)
    ensures RetryDelayAt(t, i) == Some(g)
  {
    SecondsFromComplete(t, i + 11, g);
  }

  /** `.` does not cross a line end: a `seconds:` only on a later line than
      `retry_delay` gives no match. */
  lemma RetryDelayStopsAtLineEnd(t: string, i: nat, n: nat)
    requires OccursAt(t, i, "retry_delay") && i + 11 <= n < |t| && t[n] == '\n'
    requires forall q: nat, h: string :: i + 11 <= q < n ==> !SecondsMatch(t, q, h)
    ensures RetryDelayAt(t, i).None?
  {
    forall q | i + 11 <= q < n
      ensures SecondsAt(t, q).None?
    {
      if SecondsAt(t, q).Some? {
        SecondsAtSound(t, q);
        assert false;
      }
    }
    SecondsFromNone(t, i + 11, n);
  }

  /** The scan for `seconds:` stops at the line end `n` when nothing matches before it. */
  lemma {:induction false} SecondsFromNone(t: string, p: nat, n: nat)
    requires p <= n < |t| && t[n] == '\n'
    requires forall q :: p <= q < n ==> SecondsAt(t, q).None?
    ensures SecondsFrom(t, p).None?
    decreases n - p
  {
    if p < n {
      SecondsFromNone(t, p + 1, n);
    } else {
      assert !OccursAt(t, p, "seconds:");
    }
  }

  /** The three regular expressions the retry loops search for. */
  datatype Pattern =
    | RetryInDecimal  // `retry in (\d+\.?\d*)s`, research_agent.py:133
    | RetryDelay      // `retry_delay.*?seconds:\s*(\d+)`, research_agent.py:134
    | RetryIn         // `retry in (\d+)s`, app.py:121

  /** What the group of `pattern` captures when the match starts at `i`. */
  function MatchAt(pattern: Pattern, t: string, i: nat): Option<string>
  {
    match pattern
    case RetryInDecimal => RetryInDecimalAt(t, i)
    case RetryDelay => RetryDelayAt(t, i)
    case RetryIn => RetryInAt(t, i)
  }

  /** Whether the pattern matches at each start position `0..|t|`. */
  function Hits(t: string, pattern: Pattern): (hits: seq<bool>)
    ensures |hits| == |t| + 1
  {
    seq(|t| + 1, j requires 0 <= j <= |t| => MatchAt(pattern, t, j).Some?)
  }

  /** The first position at or after `i` whose flag is set. */
  function FirstFrom(hits: seq<bool>, i: nat): Option<nat>
    decreases |hits| - i
  {
    if i >= |hits| then None
    else if hits[i] then Some(i)
    else FirstFrom(hits, i + 1)
  }

  /** The scan reports a set flag with none set between `i` and it, or nothing
      when no flag from `i` on is set. */
  lemma {:induction false} FirstFromSpec(hits: seq<bool>, i: nat)
    ensures FirstFrom(hits, i).Some? ==>
      i <= FirstFrom(hits, i).value < |hits| && hits[FirstFrom(hits, i).value]
      && forall j :: i <= j < FirstFrom(hits, i).value ==> !hits[j]
    ensures FirstFrom(hits, i).None? ==> forall j :: i <= j < |hits| ==> !hits[j]
    decreases |hits| - i
  {
    if i < |hits| && !hits[i] {
      FirstFromSpec(hits, i + 1);
    }
  }

  /** `re.search`: the capture of the leftmost match, if any. */
  function Search(t: string, pattern: Pattern): Option<string>
  {
    match FirstFrom(Hits(t, pattern), 0)
    case Some(i) => MatchAt(pattern, t, i)
    case None => None
  }

  /** A match with no match to its left is the one `re.search` reports. */
  lemma SearchLeftmost(t: string, pattern: Pattern, i: nat)
    requires i <= |t| && MatchAt(pattern, t, i).Some?
    requires forall j :: 0 <= j < i ==> MatchAt(pattern, t, j).None?
    ensures Search(t, pattern) == MatchAt(pattern, t, i)
  {
    var hits := Hits(t, pattern);
    FirstFromSpec(hits, 0);
    assert hits[i];
    assert forall j :: 0 <= j < i ==> !hits[j];
    assert FirstFrom(hits, 0) == Some(i);
  }

  /** `re.search` finds nothing exactly when no position matches. */
  lemma SearchNone(t: string, pattern: Pattern)
    ensures Search(t, pattern).None? <==> forall j :: 0 <= j <= |t| ==> MatchAt(pattern, t, j).None?
  {
    var hits := Hits(t, pattern);
    FirstFromSpec(hits, 0);
    assert forall j :: 0 <= j <= |t| ==> (hits[j] <==> MatchAt(pattern, t, j).Some?);
  }

  /** research_agent.py:133-134 and 155-156: the server's hint if one of the two
      patterns matches (the first pattern wins), else `min(60, 2 ** attempt * 5)`. */
  function AgentQuotaWait(message: string, attempt: nat): real
  {
    var t := Lower(message);
    match Search(t, RetryInDecimal)
    case Some(g) => DecimalValue(g)
    case None =>
      match Search(t, RetryDelay)
      case Some(g) => DigitsValue(g) as real
      case None => BackoffWait(attempt) as real
  }

  function Pow2(n: nat): (r: nat)
    ensures r >= 1
  {
    if n == 0 then 1 else 2 * Pow2(n - 1)
  }

  /** `min(60, 2 ** attempt * 5)`. */
  function BackoffWait(attempt: nat): nat
  {
    if Pow2(attempt) * 5 < 60 then Pow2(attempt) * 5 else 60
  }

  /** research_agent.py:163: pause after a failed call without tools that was not
      a quota failure, `min(5 * attempt, 30)`. */
  function FallbackPause(attempt: nat): nat
  {
    if 5 * attempt < 30 then 5 * attempt else 30
  }

  /** Without a hint the waits are 10, 20 and 40 seconds for attempts 1 to 3, and
      never more than 60 seconds. */
  lemma BackoffSchedule(attempt: nat)
    ensures BackoffWait(1) == 10 && BackoffWait(2) == 20 && BackoffWait(3) == 40
    ensures BackoffWait(attempt) <= 60
    ensures attempt >= 4 ==> BackoffWait(attempt) == 60
  {
    if attempt >= 4 {
      Pow2Grows(attempt);
    }
  }

  lemma {:induction false} Pow2Grows(n: nat)
    requires n >= 4
    ensures Pow2(n) >= 16
  {
    if n > 4 {
      Pow2Grows(n - 1);
    }
  }

  /** The pauses after a failed plain call are 5, 10 and 15 seconds for the three
      attempts, and never more than 30 seconds. */
  lemma FallbackPauseSchedule(attempt: nat)
    ensures FallbackPause(1) == 5 && FallbackPause(2) == 10 && FallbackPause(3) == 15
    ensures FallbackPause(attempt) <= 30
  {
  }

  /** A message that holds `retry in N s` (any case) at a position before which
      it holds no other match waits N seconds. */
  lemma AgentWaitUsesHint(message: string, attempt: nat, i: nat, g: string)
    requires RetryInDecimalMatch(Lower(message), i, g)
    requires forall j :: 0 <= j < i ==> RetryInDecimalAt(Lower(message), j).None?
    ensures AgentQuotaWait(message, attempt) == DecimalValue(g)
  {
    var t := Lower(message);
    RetryInDecimalAtComplete(t, i, g);
    SearchLeftmost(t, RetryInDecimal, i);
  }

  /** A message with no `retry in N s` hint anywhere, whose leftmost
      `retry_delay ... seconds: N` match captures N, waits N seconds. */
  lemma AgentWaitUsesDelayHint(message: string, attempt: nat, i: nat, g: string)
    requires forall j: nat, h: string :: !RetryInDecimalMatch(Lower(message), j, h)
    requires RetryDelayMatch(Lower(message), i, g)
    requires forall j: nat, h: string :: j < i ==> !RetryDelayMatch(Lower(message), j, h)
    ensures AgentQuotaWait(message, attempt) == DigitsValue(g) as real
  {
    var t := Lower(message);
    forall j | 0 <= j <= |t|
      ensures RetryInDecimalAt(t, j).None?
    {
      if RetryInDecimalAt(t, j).Some? {
        RetryInDecimalAtSound(t, j);
      }
    }
    SearchNone(t, RetryInDecimal);
    forall j | 0 <= j < i
      ensures RetryDelayAt(t, j).None?
    {
      if RetryDelayAt(t, j).Some? {
        RetryDelayAtSound(t, j);
      }
    }
    RetryDelayAtComplete(t, i, g);
    SearchLeftmost(t, RetryDelay, i);
  }

  /** A message that matches neither pattern falls back to exponential backoff. */
  lemma AgentWaitWithoutHint(message: string, attempt: nat)
    requires forall j :: 0 <= j <= |message| ==> RetryInDecimalAt(Lower(message), j).None?
    requires forall j :: 0 <= j <= |message| ==> RetryDelayAt(Lower(message), j).None?
    ensures AgentQuotaWait(message, attempt) == BackoffWait(attempt) as real
  {
    var t := Lower(message);
    SearchNone(t, RetryInDecimal);
    SearchNone(t, RetryDelay);
  }

  /** A decimal hint is read exactly: `retry in 2.5s` means two and a half seconds. */
  lemma DecimalValueOfFraction(whole: string, frac: string)
    requires |whole| >= 1 && AllDigits(whole) && AllDigits(frac)
    ensures DecimalValue(whole + "." + frac) == DigitsValue(whole) as real + FractionValue(frac)
  {
    var g := whole + "." + frac;
    assert g[..|whole|] == whole;
    assert g[|whole| + 1..] == frac;
    assert g[|whole|] == '.';
    forall j | 0 <= j < |whole| ensures IsDigit(g[j]) {
      assert g[j] == whole[j];
    }
    DigitRunExact(g, 0, |whole|);
  }

  /** A hint without a fractional part is its integer value. */
  lemma DecimalValueOfWhole(whole: string)
    requires |whole| >= 1 && AllDigits(whole)
    ensures DecimalValue(whole) == DigitsValue(whole) as real
  {
    DigitsInSlice(whole, 0, |whole|);
    assert whole[0..|whole|] == whole;
    DigitRunExact(whole, 0, |whole|);
    assert whole[..|whole|] == whole;
  }

  // ----- app.py ------------------------------------------------------------

  /** app.py:120: a quota / rate-limit failure. */
  predicate AppQuota(message: string)
  {
    var s := Lower(message);
    Contains(s, "quota") || Contains(s, "429")
  }

  /** app.py:129: the tool field is rejected. */
  predicate AppToolUnsupported(message: string)
  {
    var s := Lower(message);
    Contains(s, "not supported") || Contains(s, "unknown field")
  }

  /** The group `retry in (\d+)s` captures at position `i`. */
  function RetryInAt(t: string, i: nat): (r: Option<string>)
    ensures r.Some? ==> |r.value| >= 1 && AllDigits(r.value)
    ensures r.Some? ==> OccursAt(t, i, "retry in " + r.value + "s")
  {
    if !OccursAt(t, i, "retry in ") then None
    else
      var p := i + 9;
      var q := p + DigitRun(t, p);
      if q > p && q < |t| && t[q] == 's' then
        DigitsInSlice(t, p, q);
        OccursConcat(t, i, "retry in ", t[p..q]);
        OccursConcat(t, i, "retry in " + t[p..q], "s");
        Some(t[p..q])
      else None
  }

  /** Every occurrence of `retry in N s` with N a digit run is found by the matcher. */
  lemma RetryInAtComplete(t: string, i: nat, n: string)
    requires |n| >= 1 && AllDigits(n) && OccursAt(t, i, "retry in " + n + "s")
    ensures RetryInAt(t, i) == Some(n)
  {
    var p := i + 9;
    OccursSplit(t, i, "retry in " + n, "s");
    OccursSplit(t, i, "retry in ", n);
    OccursIndex(t, p + |n|, "s", 0);
    OccursDigits(t, p, n);
    DigitRunExact(t, p, |n|);
  }

  /** app.py:121-122: `int(N) + 5` when the lower-cased message holds
      `retry in Ns`, else 65. */
  function AppQuotaWait(message: string): (w: nat)
    ensures w >= 5
  {
    match Search(Lower(message), RetryIn)
    case Some(g) => DigitsValue(g) + 5
    case None => 65
  }

  /** The app's wait is the hint plus a five-second margin, at the leftmost hint. */
  lemma AppWaitUsesHint(message: string, i: nat, n: string)
    requires |n| >= 1 && AllDigits(n) && OccursAt(Lower(message), i, "retry in " + n + "s")
    requires forall j :: 0 <= j < i ==> RetryInAt(Lower(message), j).None?
    ensures AppQuotaWait(message) == DigitsValue(n) + 5
  {
    var t := Lower(message);
    RetryInAtComplete(t, i, n);
    SearchLeftmost(t, RetryIn, i);
  }

  /** Without an integer hint the app waits 65 seconds; a hint whose number has a
      fractional part (`retry in 2.5s`) is not one. */
  lemma AppWaitWithoutHint(message: string)
    requires forall j, n :: 0 <= j <= |message| && |n| >= 1 && AllDigits(n) ==> !OccursAt(Lower(message), j, "retry in " + n + "s")
    ensures AppQuotaWait(message) == 65
  {
  }
}
