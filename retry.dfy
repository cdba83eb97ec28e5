/** The web application's research loop, `research_sub_topic_with_retry`
    (app.py:79-136): a probe that picks the search tool, then at most three
    attempts, each of one or two generation calls, whose failures are
    classified by `Backoff`. Every `generate_content` call consumes the next
    outcome of the oracle; `time.sleep` and the status callback become logs. */
module Retry {
  import opened Common
  import opened Text
  import opened Backoff

  /** Line 81: the number of attempts. */
  const MaxAttempts: nat := 3

  /** Line 136: what the loop returns when no attempt produced a text. */
  const FailedToGather := "Failed to gather information."

  /** The tool the loop sends while it has one: the dictionary
      `{'google_search': {}}` (line 87) or the legacy retrieval proto (line 93). */
  datatype SearchTool = SearchDict | RetrievalProto

  /** What the installed SDK lets the code build: `Tool(google_search=GoogleSearch())`
      (lines 89 and 112) and `Tool(google_search_retrieval=GoogleSearchRetrieval())`
      (line 93); whether that legacy proto tests true at line 106 (the truth of a
      message object is the library's: one whose fields are all empty may test
      false); and the message of the exception raised when the modern proto
      cannot be built. */
  datatype Sdk = Sdk(googleSearch: bool, retrieval: bool, retrievalTruthy: bool, buildError: string)

  /** Lines 84-96 and 106: the tool the attempts send. The dictionary form when
      the modern proto can be built (a non-empty dictionary tests true), else the
      legacy proto when it can be built and tests true, else no tool. Line 106 is
      the only place `search_tool` is tested, so a legacy proto that tests false
      behaves as no tool for the whole loop. */
  function InitialTool(sdk: Sdk): (tool: Option<SearchTool>)
    ensures tool == Some(SearchDict) <==> sdk.googleSearch
    ensures tool == Some(RetrievalProto) <==> !sdk.googleSearch && sdk.retrieval && sdk.retrievalTruthy
    ensures tool.None? <==> !sdk.googleSearch && !(sdk.retrieval && sdk.retrievalTruthy)
  {
    if sdk.googleSearch then Some(SearchDict)
    else if sdk.retrieval && sdk.retrievalTruthy then Some(RetrievalProto)
    else None
  }

  /** One generation call of the loop: with the current tool (line 109), with
      the modern proto as a second chance (line 113), or without tools (line 115). */
  datatype AppCall = WithTool(tool: SearchTool) | WithSearchProto | Plain

  /** The end of one attempt's calls: a response text, or the exception that
      reaches the handler of line 117; with the calls made. */
  datatype Try = Answered(text: string, made: seq<AppCall>) | Failed(message: string, made: seq<AppCall>)

  /** Lines 106-116, the calls of one attempt, the first answered by
      `oracle(k)`. With a tool, any failure of the first call (the bare `except`
      of line 110) leads to building the modern proto: for the dictionary tool it
      can be built and a second call is made; for the legacy proto it cannot (the
      probe already failed to build it), so the attempt fails with the build
      error and the service's own message is lost. */
  function TryOnce(tool: Option<SearchTool>, sdk: Sdk, oracle: Oracle, k: nat): (t: Try)
    ensures 1 <= |t.made| <= 2
    ensures t.made[0] == (if tool.Some? then WithTool(tool.value) else Plain)
    ensures t.Answered? ==> oracle(k + |t.made| - 1) == Ok(t.text)
    ensures |t.made| == 2 ==> tool.Some? && tool.value.SearchDict? && oracle(k).Err? && t.made[1] == WithSearchProto
  {
    match tool
    case None =>
      (match oracle(k)
       case Ok(text) => Answered(text, [Plain])
       case Err(m) => Failed(m, [Plain]))
    case Some(current) =>
      match oracle(k)
      case Ok(text) => Answered(text, [WithTool(current)])
      case Err(_) =>
        if current.RetrievalProto? then Failed(sdk.buildError, [WithTool(current)])
        else
          match oracle(k + 1)
          case Ok(text) => Answered(text, [WithTool(current), WithSearchProto])
          case Err(m) => Failed(m, [WithTool(current), WithSearchProto])
  }

  /** Lines 118-134: what the handler does with a failure. The quota test comes
      first; only a message that is not a quota failure can drop the tool. */
  datatype Reaction = Wait(seconds: nat) | DropTool | Pause

  function Classify(message: string): (r: Reaction)
    ensures r.Wait? <==> AppQuota(message)
    ensures r.DropTool? <==> !AppQuota(message) && AppToolUnsupported(message)
    ensures r.Wait? ==> r.seconds == AppQuotaWait(message)
  {
    if AppQuota(message) then Wait(AppQuotaWait(message))
    else if AppToolUnsupported(message) then DropTool
    else Pause
  }

  /** Line 123: the message handed to the status callback before a wait. */
  function RateLimitNotice(seconds: nat): string
  {
    "\U{26A0}\U{FE0F} API Rate limit hit. Waiting " + NatToString(seconds) + "s..."
  }

  /** The sleeps of a reaction: the wait (line 126), nothing (line 131), or five
      seconds (line 134). */
  function SleepsOf(r: Reaction): seq<nat>
  {
    match r
    case Wait(w) => [w]
    case DropTool => []
    case Pause => [5]
  }

  /** The callback messages of a reaction (line 125): only a wait is announced. */
  function NoticesOf(r: Reaction): seq<string>
  {
    if r.Wait? then [RateLimitNotice(r.seconds)] else []
  }

  /** The tool of the next attempt: dropped for good on `DropTool` (line 131),
      kept otherwise. */
  function ToolAfter(tool: Option<SearchTool>, r: Reaction): Option<SearchTool>
  {
    if r.DropTool? then None else tool
  }

  /** What one run of the loop gives: the returned summary, the calls in order,
      the sleeps in order and the messages handed to the callback. */
  datatype RetryRun = RetryRun(summary: string, calls: seq<AppCall>, sleeps: seq<nat>, notices: seq<string>)

  /** Lines 104-136 from attempt `attempt` on, with `tool`, after the calls,
      sleeps and callback messages already logged. Each call consumes the next
      outcome of `oracle`, so the next call is answered by `oracle(|calls|)`.
      The first attempt that gets a text returns it; every failure, whatever
      its class, uses up its attempt. `classify` is the handler's decision on a
      failure: `Classify` in the application, and any decision at all in the
      lemmas about the shape of the loop. */
  function RetryFrom(classify: string -> Reaction, tool: Option<SearchTool>, sdk: Sdk, oracle: Oracle,
                     calls: seq<AppCall>, sleeps: seq<nat>, notices: seq<string>, attempt: nat): RetryRun
    decreases MaxAttempts + 1 - attempt
  {
    if attempt > MaxAttempts then RetryRun(FailedToGather, calls, sleeps, notices)
    else
      var t := TryOnce(tool, sdk, oracle, |calls|);
      if t.Answered? then RetryRun(t.text, calls + t.made, sleeps, notices)
      else
        var r := classify(t.message);
        RetryFrom(classify, ToolAfter(tool, r), sdk, oracle, calls + t.made, sleeps + SleepsOf(r), notices + NoticesOf(r), attempt + 1)
  }

  /** `research_sub_topic_with_retry` for one sub-topic, its calls answered by
      `oracle` from the first on. */
  function RetrySpec(sdk: Sdk, oracle: Oracle): RetryRun
  {
    RetryFrom(Classify, InitialTool(sdk), sdk, oracle, [], [], [], 1)
  }

  /** Lines 106-116: the calls of one attempt, the first answered by `oracle(k)`. */
  method AttemptCalls(tool: Option<SearchTool>, sdk: Sdk, oracle: Oracle, k: nat) returns (t: Try)
    ensures t == TryOnce(tool, sdk, oracle, k)
  {
    if tool.None? {
      var only := oracle(k);
      if only.Ok? {
        return Answered(only.text, [Plain]);
      }
      return Failed(only.message, [Plain]);
    }
    var first := oracle(k);
    if first.Ok? {
      return Answered(first.text, [WithTool(tool.value)]);
    }
    if tool.value.RetrievalProto? {
      // building `GoogleSearch()` raises: the probe could not build it either
      return Failed(sdk.buildError, [WithTool(tool.value)]);
    }
    var second := oracle(k + 1);
    if second.Ok? {
      return Answered(second.text, [WithTool(tool.value), WithSearchProto]);
    }
    t := Failed(second.message, [WithTool(tool.value), WithSearchProto]);
  }

  /** A failed attempt that is not the last logs its calls, its sleeps and its
      callback messages and hands over to the next attempt. */
  lemma RetryFromFailed(classify: string -> Reaction, tool: Option<SearchTool>, sdk: Sdk, oracle: Oracle,
                        calls: seq<AppCall>, sleeps: seq<nat>, notices: seq<string>, attempt: nat)
    requires attempt <= MaxAttempts && TryOnce(tool, sdk, oracle, |calls|).Failed?
    ensures var t := TryOnce(tool, sdk, oracle, |calls|);
      var r := classify(t.message);
      RetryFrom(classify, tool, sdk, oracle, calls, sleeps, notices, attempt)
        == RetryFrom(classify, ToolAfter(tool, r), sdk, oracle, calls + t.made, sleeps + SleepsOf(r), notices + NoticesOf(r), attempt + 1)
  {
  }

  /** The step of the attempt loop after a failure, as the handler leaves it. */
  lemma FailedStep(tool: Option<SearchTool>, sdk: Sdk, oracle: Oracle, calls: seq<AppCall>, sleeps: seq<nat>,
                   notices: seq<string>, attempt: nat, t: Try,
                   tool': Option<SearchTool>, sleeps': seq<nat>, notices': seq<string>)
    requires attempt <= MaxAttempts && t == TryOnce(tool, sdk, oracle, |calls|) && t.Failed?
    requires var r := Classify(t.message);
      tool' == ToolAfter(tool, r) && sleeps' == sleeps + SleepsOf(r) && notices' == notices + NoticesOf(r)
    ensures RetryFrom(Classify, tool, sdk, oracle, calls, sleeps, notices, attempt)
         == RetryFrom(Classify, tool', sdk, oracle, calls + t.made, sleeps', notices', attempt + 1)
  {
    RetryFromFailed(Classify, tool, sdk, oracle, calls, sleeps, notices, attempt);
  }

  /** Lines 117-134: the handler of a failed attempt. */
  method HandleFailure(error: string, tool: Option<SearchTool>, sleeps: seq<nat>, notices: seq<string>)
    returns (tool': Option<SearchTool>, sleeps': seq<nat>, notices': seq<string>)
    ensures var r := Classify(error);
      tool' == ToolAfter(tool, r) && sleeps' == sleeps + SleepsOf(r) && notices' == notices + NoticesOf(r)
  {
    tool', sleeps', notices' := tool, sleeps, notices;
    if AppQuota(error) {
      var w := AppQuotaWait(error);
      notices' := notices + [RateLimitNotice(w)];
      sleeps' := sleeps + [w];
    } else if AppToolUnsupported(error) {
      assert sleeps + [] == sleeps && notices + [] == notices;
      tool' := None;
    } else {
      assert notices + [] == notices;
      sleeps' := sleeps + [5];
    }
  }

  /** Lines 105-134: attempt `attempt`. `answer` is the text when it gets one;
      otherwise the handler's tool, sleeps and callback messages are those the
      next attempt starts from. */
  method Attempt(tool: Option<SearchTool>, sdk: Sdk, oracle: Oracle, calls: seq<AppCall>, sleeps: seq<nat>,
                 notices: seq<string>, attempt: nat)
    returns (answer: Option<string>, tool': Option<SearchTool>, calls': seq<AppCall>, sleeps': seq<nat>, notices': seq<string>)
    requires 1 <= attempt <= MaxAttempts
    ensures answer.Some? ==>
      RetryFrom(Classify, tool, sdk, oracle, calls, sleeps, notices, attempt) == RetryRun(answer.value, calls', sleeps', notices')
    ensures answer.None? ==>
      RetryFrom(Classify, tool, sdk, oracle, calls, sleeps, notices, attempt)
        == RetryFrom(Classify, tool', sdk, oracle, calls', sleeps', notices', attempt + 1)
  {
    var t := AttemptCalls(tool, sdk, oracle, |calls|);
    calls' := calls + t.made;
    if t.Answered? {
      RetryFromAnswered(Classify, tool, sdk, oracle, calls, sleeps, notices, attempt);
      return Some(t.text), tool, calls', sleeps, notices;
    }
    answer := None;
    tool', sleeps', notices' := HandleFailure(t.message, tool, sleeps, notices);
    FailedStep(tool, sdk, oracle, calls, sleeps, notices, attempt, t, tool', sleeps', notices');
  }

  /** Lines 104-136: the attempts, with the tool the probe picked. */
  method Attempts(sdk: Sdk, oracle: Oracle, tool0: Option<SearchTool>)
    returns (summary: string, calls: seq<AppCall>, sleeps: seq<nat>, notices: seq<string>)
    ensures RetryRun(summary, calls, sleeps, notices) == RetryFrom(Classify, tool0, sdk, oracle, [], [], [], 1)
  {
    var tool := tool0;
    calls, sleeps, notices := [], [], [];
    var attempt := 1;
    while attempt <= MaxAttempts
      invariant 1 <= attempt <= MaxAttempts + 1
      invariant RetryFrom(Classify, tool, sdk, oracle, calls, sleeps, notices, attempt)
             == RetryFrom(Classify, tool0, sdk, oracle, [], [], [], 1)
    {
      var answer;
      answer, tool, calls, sleeps, notices := Attempt(tool, sdk, oracle, calls, sleeps, notices, attempt);
      if answer.Some? {
        return answer.value, calls, sleeps, notices;
      }
      attempt := attempt + 1;
    }
    summary := FailedToGather;
  }

  /** Lines 79-136. The sub-topic only enters the prompt, which is not modelled. */
  method ResearchWithRetry(sdk: Sdk, oracle: Oracle)
    returns (summary: string, calls: seq<AppCall>, sleeps: seq<nat>, notices: seq<string>)
    ensures RetryRun(summary, calls, sleeps, notices) == RetrySpec(sdk, oracle)
  {
    var tool := InitialTool(sdk);
    summary, calls, sleeps, notices := Attempts(sdk, oracle, tool);
  }

  // ----- what the loop promises -----------------------------------------------

  /** An answered attempt ends the run with its text after its calls. */
  lemma RetryFromAnswered(classify: string -> Reaction, tool: Option<SearchTool>, sdk: Sdk, oracle: Oracle,
                          calls: seq<AppCall>, sleeps: seq<nat>, notices: seq<string>, attempt: nat)
    requires attempt <= MaxAttempts && TryOnce(tool, sdk, oracle, |calls|).Answered?
    ensures var t := TryOnce(tool, sdk, oracle, |calls|);
      RetryFrom(classify, tool, sdk, oracle, calls, sleeps, notices, attempt) == RetryRun(t.text, calls + t.made, sleeps, notices)
  {
  }

  /** The run `r` extends the logs `calls`, `sleeps` and `notices` by at most two
      calls and one sleep for each of `left` attempts, and by at most one
      callback message per sleep. */
  ghost predicate Extends(calls: seq<AppCall>, sleeps: seq<nat>, notices: seq<string>, r: RetryRun, left: nat)
  {
    calls <= r.calls && sleeps <= r.sleeps && notices <= r.notices
    && |r.calls| <= |calls| + 2 * left
    && |r.sleeps| <= |sleeps| + left
    && |r.notices| - |notices| <= |r.sleeps| - |sleeps|
  }

  /** One failed attempt in front of a run that extends the longer logs. */
  lemma ExtendsStep(calls: seq<AppCall>, made: seq<AppCall>, sleeps: seq<nat>, r: Reaction,
                    notices: seq<string>, run: RetryRun, left: nat)
    requires |made| <= 2
    requires Extends(calls + made, sleeps + SleepsOf(r), notices + NoticesOf(r), run, left)
    ensures Extends(calls, sleeps, notices, run, left + 1)
  {
    assert |SleepsOf(r)| <= 1 && |NoticesOf(r)| <= |SleepsOf(r)|;
    assert calls <= calls + made && sleeps <= sleeps + SleepsOf(r) && notices <= notices + NoticesOf(r);
  }

  /** At most three attempts of at most two calls each: the logs only grow, by
      at most two calls and one sleep per remaining attempt, and by at most one
      callback message per sleep. */
  lemma {:induction false} RetryFromBounded(classify: string -> Reaction, tool: Option<SearchTool>, sdk: Sdk, oracle: Oracle,
                                            calls: seq<AppCall>, sleeps: seq<nat>, notices: seq<string>, attempt: nat)
    requires 1 <= attempt <= MaxAttempts + 1
    ensures Extends(calls, sleeps, notices, RetryFrom(classify, tool, sdk, oracle, calls, sleeps, notices, attempt),
                    MaxAttempts + 1 - attempt)
    decreases MaxAttempts + 1 - attempt
  {
    var run := RetryFrom(classify, tool, sdk, oracle, calls, sleeps, notices, attempt);
    if attempt <= MaxAttempts {
      var t := TryOnce(tool, sdk, oracle, |calls|);
      if t.Failed? {
        var c := classify(t.message);
        RetryFromFailed(classify, tool, sdk, oracle, calls, sleeps, notices, attempt);
        RetryFromBounded(classify, ToolAfter(tool, c), sdk, oracle, calls + t.made, sleeps + SleepsOf(c), notices + NoticesOf(c), attempt + 1);
        ExtendsStep(calls, t.made, sleeps, c, notices, run, MaxAttempts - attempt);
      } else {
        RetryFromAnswered(classify, tool, sdk, oracle, calls, sleeps, notices, attempt);
        assert calls <= calls + t.made;
      }
    }
  }

  /** Lines 104 and 136: a run makes at most 6 calls, sleeps at most 3 times and
      announces at most one wait per sleep. */
  lemma RetryBounded(sdk: Sdk, oracle: Oracle)
    ensures |RetrySpec(sdk, oracle).calls| <= 6
    ensures |RetrySpec(sdk, oracle).sleeps| <= 3
    ensures |RetrySpec(sdk, oracle).notices| <= |RetrySpec(sdk, oracle).sleeps|
  {
    RetryFromBounded(Classify, InitialTool(sdk), sdk, oracle, [], [], [], 1);
  }

  /** A failed attempt raised on each of its calls. */
  lemma FailedTryRaised(tool: Option<SearchTool>, sdk: Sdk, oracle: Oracle, k: nat)
    requires TryOnce(tool, sdk, oracle, k).Failed?
    ensures AllFailed(oracle, k, |TryOnce(tool, sdk, oracle, k).made|)
  {
    if |TryOnce(tool, sdk, oracle, k).made| == 2 {
      assert AllFailed(oracle, k, 1);
    }
  }

  /** Calls that all raised, followed by more calls that all raised. */
  lemma {:induction false} AllFailedJoin(oracle: Oracle, k: nat, m: nat, n: nat)
    requires AllFailed(oracle, k, m) && AllFailed(oracle, k + m, n)
    ensures AllFailed(oracle, k, m + n)
    decreases n
  {
    if n > 0 {
      AllFailedJoin(oracle, k, m, n - 1);
    }
  }

  /** What `RetryFromOutcome` states about a run. */
  ghost predicate Concluded(oracle: Oracle, from: nat, r: RetryRun)
  {
    |r.calls| > from && AllFailed(oracle, from, |r.calls| - from - 1)
    && (oracle(|r.calls| - 1).Ok? ==> r.summary == oracle(|r.calls| - 1).text)
    && (oracle(|r.calls| - 1).Err? ==> r.summary == FailedToGather)
  }

  /** An answered attempt concludes the run. */
  lemma AnsweredConcludes(classify: string -> Reaction, tool: Option<SearchTool>, sdk: Sdk, oracle: Oracle,
                          calls: seq<AppCall>, sleeps: seq<nat>, notices: seq<string>, attempt: nat)
    requires attempt <= MaxAttempts && TryOnce(tool, sdk, oracle, |calls|).Answered?
    ensures Concluded(oracle, |calls|, RetryFrom(classify, tool, sdk, oracle, calls, sleeps, notices, attempt))
  {
    var t := TryOnce(tool, sdk, oracle, |calls|);
    RetryFromAnswered(classify, tool, sdk, oracle, calls, sleeps, notices, attempt);
    if |t.made| == 2 {
      assert AllFailed(oracle, |calls|, 1);
    }
  }

  /** A failed last attempt concludes the run with the sentinel. */
  lemma LastFailedConcludes(classify: string -> Reaction, tool: Option<SearchTool>, sdk: Sdk, oracle: Oracle,
                            calls: seq<AppCall>, sleeps: seq<nat>, notices: seq<string>)
    requires TryOnce(tool, sdk, oracle, |calls|).Failed?
    ensures Concluded(oracle, |calls|, RetryFrom(classify, tool, sdk, oracle, calls, sleeps, notices, MaxAttempts))
  {
    var t := TryOnce(tool, sdk, oracle, |calls|);
    var c := classify(t.message);
    RetryFromFailed(classify, tool, sdk, oracle, calls, sleeps, notices, MaxAttempts);
    FailedTryRaised(tool, sdk, oracle, |calls|);
    assert RetryFrom(classify, ToolAfter(tool, c), sdk, oracle, calls + t.made, sleeps + SleepsOf(c), notices + NoticesOf(c), MaxAttempts + 1)
        == RetryRun(FailedToGather, calls + t.made, sleeps + SleepsOf(c), notices + NoticesOf(c));
  }

  /** A failed attempt followed by a concluded run concludes the run. */
  lemma FailedThenConcluded(oracle: Oracle, calls: seq<AppCall>, made: seq<AppCall>, r: RetryRun)
    requires AllFailed(oracle, |calls|, |made|) && Concluded(oracle, |calls + made|, r)
    ensures Concluded(oracle, |calls|, r)
  {
    AllFailedJoin(oracle, |calls|, |made|, |r.calls| - |calls + made| - 1);
  }

  /** From an attempt that is not past the last, the run makes at least one
      call; every call it makes but its last raised; the summary is the text of
      the last call when that call succeeded, and the failure sentinel when it
      raised. */
  lemma {:induction false} RetryFromOutcome(classify: string -> Reaction, tool: Option<SearchTool>, sdk: Sdk, oracle: Oracle,
                                            calls: seq<AppCall>, sleeps: seq<nat>, notices: seq<string>, attempt: nat)
    requires 1 <= attempt <= MaxAttempts
    ensures Concluded(oracle, |calls|, RetryFrom(classify, tool, sdk, oracle, calls, sleeps, notices, attempt))
    decreases MaxAttempts + 1 - attempt
  {
    var t := TryOnce(tool, sdk, oracle, |calls|);
    if t.Answered? {
      AnsweredConcludes(classify, tool, sdk, oracle, calls, sleeps, notices, attempt);
    } else if attempt == MaxAttempts {
      LastFailedConcludes(classify, tool, sdk, oracle, calls, sleeps, notices);
    } else {
      var c := classify(t.message);
      var calls' := calls + t.made;
      RetryFromFailed(classify, tool, sdk, oracle, calls, sleeps, notices, attempt);
      FailedTryRaised(tool, sdk, oracle, |calls|);
      RetryFromOutcome(classify, ToolAfter(tool, c), sdk, oracle, calls', sleeps + SleepsOf(c), notices + NoticesOf(c), attempt + 1);
      FailedThenConcluded(oracle, calls, t.made,
        RetryFrom(classify, ToolAfter(tool, c), sdk, oracle, calls', sleeps + SleepsOf(c), notices + NoticesOf(c), attempt + 1));
    }
  }

  /** The outcome of a whole run: every call but the last raised, and the
      summary is the last call's text or, when it raised too, the sentinel. So
      the first success ends the loop with its text. */
  lemma RetryOutcome(sdk: Sdk, oracle: Oracle)
    ensures Concluded(oracle, 0, RetrySpec(sdk, oracle))
  {
    RetryFromOutcome(Classify, InitialTool(sdk), sdk, oracle, [], [], [], 1);
  }

  /** A call made without tools is followed only by calls made without tools. */
  ghost predicate PlainLast(calls: seq<AppCall>)
  {
    forall i, j :: 0 <= i < j < |calls| && calls[i] == Plain ==> calls[j] == Plain
  }

  /** The logged calls agree with the current tool: once a call was made
      without tools, the tool is gone. */
  ghost predicate ToolAgrees(calls: seq<AppCall>, tool: Option<SearchTool>)
  {
    PlainLast(calls) && (|calls| > 0 && calls[|calls| - 1] == Plain ==> tool.None?)
  }

  /** One attempt keeps the calls in agreement with the tool of the next. */
  lemma AttemptAgrees(tool: Option<SearchTool>, sdk: Sdk, oracle: Oracle, calls: seq<AppCall>, r: Reaction)
    requires ToolAgrees(calls, tool)
    ensures ToolAgrees(calls + TryOnce(tool, sdk, oracle, |calls|).made, ToolAfter(tool, r))
  {
    var made := TryOnce(tool, sdk, oracle, |calls|).made;
    var all := calls + made;
    if tool.Some? {
      assert |calls| > 0 ==> calls[|calls| - 1] != Plain;
      assert forall i :: 0 <= i < |calls| ==> calls[i] != Plain;
      assert forall i :: 0 <= i < |all| ==> all[i] != Plain by {
        forall i | 0 <= i < |all|
          ensures all[i] != Plain
        {
          if i >= |calls| {
            assert all[i] == made[i - |calls|];
          }
        }
      }
    } else {
      assert forall i :: |calls| <= i < |all| ==> all[i] == Plain;
    }
  }

  /** Line 131: once the tool is dropped it stays dropped, so after the first
      call made without tools every later call is made without tools too. */
  lemma {:induction false} RetryFromKeepsPlain(classify: string -> Reaction, tool: Option<SearchTool>, sdk: Sdk, oracle: Oracle,
                                               calls: seq<AppCall>, sleeps: seq<nat>, notices: seq<string>, attempt: nat)
    requires ToolAgrees(calls, tool)
    ensures PlainLast(RetryFrom(classify, tool, sdk, oracle, calls, sleeps, notices, attempt).calls)
    decreases MaxAttempts + 1 - attempt
  {
    if attempt <= MaxAttempts {
      var t := TryOnce(tool, sdk, oracle, |calls|);
      if t.Failed? {
        var c := classify(t.message);
        AttemptAgrees(tool, sdk, oracle, calls, c);
        RetryFromFailed(classify, tool, sdk, oracle, calls, sleeps, notices, attempt);
        RetryFromKeepsPlain(classify, ToolAfter(tool, c), sdk, oracle, calls + t.made, sleeps + SleepsOf(c), notices + NoticesOf(c), attempt + 1);
      } else {
        AttemptAgrees(tool, sdk, oracle, calls, Pause);
        RetryFromAnswered(classify, tool, sdk, oracle, calls, sleeps, notices, attempt);
      }
    }
  }

  /** Over a whole run: a call made without tools is never followed by one that
      carries a tool. */
  lemma DroppedStaysDropped(sdk: Sdk, oracle: Oracle, i: nat, j: nat)
    requires i < j < |RetrySpec(sdk, oracle).calls| && RetrySpec(sdk, oracle).calls[i] == Plain
    ensures RetrySpec(sdk, oracle).calls[j] == Plain
  {
    RetryFromKeepsPlain(Classify, InitialTool(sdk), sdk, oracle, [], [], [], 1);
  }

  /** When none of the first six calls succeeds, the loop returns the sentinel
      "Failed to gather information." (line 136). */
  lemma NothingSucceeds(sdk: Sdk, oracle: Oracle)
    requires AllFailed(oracle, 0, 2 * MaxAttempts)
    ensures RetrySpec(sdk, oracle).summary == FailedToGather
  {
    RetryBounded(sdk, oracle);
    RetryOutcome(sdk, oracle);
    ConcludedWithoutSuccess(oracle, RetrySpec(sdk, oracle));
  }

  /** A concluded run of at most six calls that all raised ends with the sentinel. */
  lemma ConcludedWithoutSuccess(oracle: Oracle, r: RetryRun)
    requires Concluded(oracle, 0, r) && |r.calls| <= 2 * MaxAttempts && AllFailed(oracle, 0, 2 * MaxAttempts)
    ensures r.summary == FailedToGather
  {
    AllFailedAt(oracle, 0, 2 * MaxAttempts, |r.calls| - 1);
  }

  /** Line 123: what the callback is handed starts with the warning sign. */
  const WarningSign := '\U{26A0}'

  ghost predicate Warnings(notices: seq<string>)
  {
    forall k :: 0 <= k < |notices| ==> |notices[k]| > 0 && notices[k][0] == WarningSign
  }

  /** The loop only ever hands rate-limit warnings to the callback. */
  lemma {:induction false} RetryFromWarns(classify: string -> Reaction, tool: Option<SearchTool>, sdk: Sdk, oracle: Oracle,
                                          calls: seq<AppCall>, sleeps: seq<nat>, notices: seq<string>, attempt: nat)
    requires Warnings(notices)
    ensures Warnings(RetryFrom(classify, tool, sdk, oracle, calls, sleeps, notices, attempt).notices)
    decreases MaxAttempts + 1 - attempt
  {
    if attempt <= MaxAttempts {
      var t := TryOnce(tool, sdk, oracle, |calls|);
      if t.Failed? {
        var c := classify(t.message);
        RetryFromFailed(classify, tool, sdk, oracle, calls, sleeps, notices, attempt);
        assert Warnings(notices + NoticesOf(c));
        RetryFromWarns(classify, ToolAfter(tool, c), sdk, oracle, calls + t.made, sleeps + SleepsOf(c), notices + NoticesOf(c), attempt + 1);
      } else {
        RetryFromAnswered(classify, tool, sdk, oracle, calls, sleeps, notices, attempt);
      }
    }
  }

  lemma NoticesAreWarnings(sdk: Sdk, oracle: Oracle)
    ensures Warnings(RetrySpec(sdk, oracle).notices)
  {
    RetryFromWarns(Classify, InitialTool(sdk), sdk, oracle, [], [], [], 1);
  }

  /** Lines 120 and 129: a message that reports both a quota failure and an
      unsupported field waits and keeps the tool, because the quota test runs
      first. */
  lemma QuotaBeforeUnsupported(message: string)
    requires AppQuota(message) && AppToolUnsupported(message)
    ensures Classify(message) == Wait(AppQuotaWait(message))
    ensures ToolAfter(Some(SearchDict), Classify(message)) == Some(SearchDict)
  {
  }

  /** A rate-limited first call without tools followed by a success: one wait
      of the hint plus five seconds (or 65), announced once, then the text. */
  lemma RateLimitedThenSuccess(sdk: Sdk, oracle: Oracle, message: string, text: string)
    requires !sdk.googleSearch && !sdk.retrieval
    requires oracle(0) == Err(message) && AppQuota(message) && oracle(1) == Ok(text)
    ensures RetrySpec(sdk, oracle)
         == RetryRun(text, [Plain, Plain], [AppQuotaWait(message)], [RateLimitNotice(AppQuotaWait(message))])
  {
    var w := AppQuotaWait(message);
    RetryFromFailed(Classify, None, sdk, oracle, [], [], [], 1);
    RetryFromAnswered(Classify, None, sdk, oracle, [Plain], [w], [RateLimitNotice(w)], 2);
  }

  /** With the legacy retrieval tool, a failed call is classified by the error of
      building the modern proto (line 112), not by the service's message: a
      quota failure of the service is not waited out when the build error is
      not itself a quota message. */
  lemma RetrievalMasksServiceError(sdk: Sdk, oracle: Oracle)
    requires !sdk.googleSearch && sdk.retrieval && sdk.retrievalTruthy
    requires oracle(0).Err? && !AppQuota(sdk.buildError) && !AppToolUnsupported(sdk.buildError)
    ensures RetrySpec(sdk, oracle).calls[..1] == [WithTool(RetrievalProto)]
    ensures RetrySpec(sdk, oracle).sleeps[..1] == [5]
  {
    var tool := Some(RetrievalProto);
    RetryFromFailed(Classify, tool, sdk, oracle, [], [], [], 1);
    RetryFromBounded(Classify, tool, sdk, oracle, [WithTool(RetrievalProto)], [5], [], 2);
  }

  /** Every call of a run without a tool is made without tools. */
  ghost predicate AllPlain(calls: seq<AppCall>)
  {
    forall j :: 0 <= j < |calls| ==> calls[j] == Plain
  }

  lemma {:induction false} RetryFromAllPlain(classify: string -> Reaction, sdk: Sdk, oracle: Oracle,
                                             calls: seq<AppCall>, sleeps: seq<nat>, notices: seq<string>, attempt: nat)
    requires AllPlain(calls)
    ensures AllPlain(RetryFrom(classify, None, sdk, oracle, calls, sleeps, notices, attempt).calls)
    decreases MaxAttempts + 1 - attempt
  {
    if attempt <= MaxAttempts {
      var t := TryOnce(None, sdk, oracle, |calls|);
      assert t.made == [Plain];
      if t.Failed? {
        var c := classify(t.message);
        RetryFromFailed(classify, None, sdk, oracle, calls, sleeps, notices, attempt);
        RetryFromAllPlain(classify, sdk, oracle, calls + t.made, sleeps + SleepsOf(c), notices + NoticesOf(c), attempt + 1);
      } else {
        RetryFromAnswered(classify, None, sdk, oracle, calls, sleeps, notices, attempt);
      }
    }
  }

  /** Line 106 with a legacy proto that tests false: no call carries a tool, so
      the service's own message reaches the classifier. */
  lemma FalsyRetrievalIsPlain(sdk: Sdk, oracle: Oracle)
    requires !sdk.googleSearch && sdk.retrieval && !sdk.retrievalTruthy
    ensures forall j :: 0 <= j < |RetrySpec(sdk, oracle).calls| ==> RetrySpec(sdk, oracle).calls[j] == Plain
    ensures oracle(0).Err? && !AppQuota(oracle(0).message) && !AppToolUnsupported(oracle(0).message)
            ==> RetrySpec(sdk, oracle).sleeps[..1] == [5]
  {
    RetryFromAllPlain(Classify, sdk, oracle, [], [], [], 1);
    if oracle(0).Err? && !AppQuota(oracle(0).message) && !AppToolUnsupported(oracle(0).message) {
      RetryFromFailed(Classify, None, sdk, oracle, [], [], [], 1);
      RetryFromBounded(Classify, None, sdk, oracle, [Plain], [5], [], 2);
    }
  }
}
