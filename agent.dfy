/** The command-line research agent (research_agent.py): the check on the
    brainstormed list, the tool-name mapping, the three-attempt research loop of
    `research_sub_topic`, and the gathering of the research notes. Every time the
    code calls `generate_content`, the model consumes the next outcome of the
    oracle; every `time.sleep` becomes an entry of a sleep log. */
module Agent {
  import opened Common
  import opened Text
  import opened Backoff
  import opened Json

  // ----- brainstorm_sub_topics: the shape check (lines 71-79) --------------

  const BrainstormFailure := "Failed to brainstorm sub-topics. The model may have returned an invalid response."

  /** The outcome of `brainstorm_sub_topics`: the list, or the `ValueError` raised. */
  datatype Brainstormed = Topics(items: seq<string>) | Raised(message: string)

  /** Lines 71-79: the decoded value is accepted only when it is a list of
      strings; a text that does not decode (`parsed == None`) and a value of any
      other shape both raise the same `ValueError`. */
  function AcceptSubTopics(parsed: Option<JsonValue>): (r: Brainstormed)
    ensures r.Topics? <==> parsed.Some? && parsed.value.JArray?
                           && forall k :: 0 <= k < |parsed.value.items| ==> parsed.value.items[k].JString?
    ensures r.Topics? ==> |r.items| == |parsed.value.items|
                          && forall k :: 0 <= k < |r.items| ==> r.items[k] == parsed.value.items[k].s
    ensures r.Raised? ==> r.message == BrainstormFailure
  {
    if parsed.None? || !parsed.value.JArray? then Raised(BrainstormFailure)
    else match StringItems(parsed.value.items)
      case Some(xs) => Topics(xs)
      case None => Raised(BrainstormFailure)
  }

  /** Lines 63-79: one generation call, `json.loads` (an input here: `loads`
      returns the decoded value, or `None` where it raises), then the check. A
      failed call raises the same `ValueError`. */
  function BrainstormSubTopics(outcome: Outcome, loads: string -> Option<JsonValue>): (r: Brainstormed)
    ensures outcome.Err? ==> r == Raised(BrainstormFailure)
    ensures outcome.Ok? ==> r == AcceptSubTopics(loads(outcome.text))
  {
    match outcome
    case Err(_) => Raised(BrainstormFailure)
    case Ok(text) => AcceptSubTopics(loads(text))
  }

  /** The value `json.loads` gives for a JSON array of the strings `xs`. */
  function StringArrayValue(xs: seq<string>): (v: JsonValue)
    ensures v.JArray? && |v.items| == |xs|
    ensures forall k :: 0 <= k < |xs| ==> v.items[k] == JString(xs[k])
  {
    if xs == [] then JArray([]) else JArray([JString(xs[0])] + StringArrayValue(xs[1..]).items)
  }

  /** Every list of strings passes the check unchanged, the empty list and a list
      of any length included (the code asks for 5 to 7 but does not check it). */
  lemma AcceptStringArray(xs: seq<string>)
    ensures AcceptSubTopics(Some(StringArrayValue(xs))) == Topics(xs)
  {
    var r := AcceptSubTopics(Some(StringArrayValue(xs)));
    assert r.Topics?;
    assert r.items == xs;
  }

  /** A list holding one non-string is refused as a whole. */
  lemma RejectNonString(items: seq<JsonValue>, k: nat)
    requires k < |items| && !items[k].JString?
    ensures AcceptSubTopics(Some(JArray(items))) == Raised(BrainstormFailure)
  {
  }

  // ----- the tool-name mapping (line 112) ----------------------------------

  /** `"".join(part.capitalize() for part in tool_name.split("_"))`. */
  function ClassName(toolName: string): string
  {
    Concat(CapitalizeAll(Split(toolName, '_')))
  }

  /** A name made of `_`-free parts maps to the capitalized parts, run together. */
  lemma ClassNameOfParts(parts: seq<string>)
    requires |parts| >= 1
    requires forall k :: 0 <= k < |parts| ==> '_' !in parts[k]
    ensures ClassName(Join("_", parts)) == Concat(CapitalizeAll(parts))
  {
    SplitJoin(parts, '_');
  }

  /** Line 103: the tool names tried, in order. */
  const ToolCandidates: seq<string> := ["google_search", "google_search_retrieval", "google_search_tool"]


  /** The class names tried for the three candidates, in the same order. */
  const CandidateClasses: seq<string> := ["GoogleSearch", "GoogleSearchRetrieval", "GoogleSearchTool"]

  lemma ClassNameOfTwo(a: string, b: string)
    requires '_' !in a && '_' !in b
    ensures ClassName(a + "_" + b) == Capitalize(a) + Capitalize(b)
  {
    ClassNameOfParts([a, b]);
    assert [a, b][1..] == [b];
    assert Join("_", [a, b]) == a + "_" + b;
    var caps := CapitalizeAll([a, b]);
    assert caps == [Capitalize(a), Capitalize(b)];
    assert caps[1..] == [Capitalize(b)];
    assert Concat(caps[1..][1..]) == "";
  }

  lemma ClassNameOfThree(a: string, b: string, c: string)
    requires '_' !in a && '_' !in b && '_' !in c
    ensures ClassName(a + "_" + b + "_" + c) == Capitalize(a) + Capitalize(b) + Capitalize(c)
  {
    ClassNameOfParts([a, b, c]);
    JoinOfThree("_", a, b, c);
    var caps := CapitalizeAll([a, b, c]);
    assert caps == [Capitalize(a), Capitalize(b), Capitalize(c)];
    ConcatOfThree(Capitalize(a), Capitalize(b), Capitalize(c));
  }

  lemma JoinOfThree(sep: string, a: string, b: string, c: string)
    ensures Join(sep, [a, b, c]) == a + sep + b + sep + c
  {
    assert [a, b, c][1..] == [b, c];
    assert [b, c][1..] == [c];
    assert Join(sep, [b, c]) == b + sep + c;
    assert Join(sep, [a, b, c]) == a + sep + (b + sep + c);
  }

  lemma ConcatOfThree(x: string, y: string, z: string)
    ensures Concat([x, y, z]) == x + y + z
  {
    assert [x, y, z][1..] == [y, z];
    assert [y, z][1..] == [z];
    assert [z][1..] == [];
    assert Concat([z]) == z;
    assert Concat([y, z]) == y + z;
  }

  lemma WordGoogle(w: string)
    requires w == "google"
    ensures Capitalize(w) == "Google" && '_' !in w
  {
    LowerUnchanged("oogle");
    assert w[1..] == "oogle";
  }

  lemma WordSearch(w: string)
    requires w == "search"
    ensures Capitalize(w) == "Search" && '_' !in w
  {
    LowerUnchanged("earch");
    assert w[1..] == "earch";
  }

  lemma WordRetrieval(w: string)
    requires w == "retrieval"
    ensures Capitalize(w) == "Retrieval" && '_' !in w
  {
    LowerUnchanged("etrieval");
    assert w[1..] == "etrieval";
  }

  lemma WordTool(w: string)
    requires w == "tool"
    ensures Capitalize(w) == "Tool" && '_' !in w
  {
    LowerUnchanged("ool");
    assert w[1..] == "ool";
  }

  lemma Spellings()
    ensures "google" + "_" + "search" == "google_search"
    ensures "google" + "_" + "search" + "_" + "retrieval" == "google_search_retrieval"
    ensures "google" + "_" + "search" + "_" + "tool" == "google_search_tool"
    ensures "Google" + "Search" == "GoogleSearch"
    ensures "Google" + "Search" + "Retrieval" == "GoogleSearchRetrieval"
    ensures "Google" + "Search" + "Tool" == "GoogleSearchTool"
  {
  }

  /** Line 112 maps `google_search` to `GoogleSearch`, `google_search_retrieval`
      to `GoogleSearchRetrieval` and `google_search_tool` to `GoogleSearchTool`. */
  lemma CandidateClassName(k: nat, name: string)
    requires k < |ToolCandidates| && name == ToolCandidates[k]
    ensures ClassName(name) == CandidateClasses[k]
  {
    if k == 0 {
      SearchClassName(name);
    } else if k == 1 {
      RetrievalClassName(name);
    } else {
      ToolClassName(name);
    }
  }

  lemma SearchClassName(name: string)
    requires name == "google_search"
    ensures ClassName(name) == "GoogleSearch"
  {
    WordGoogle("google");
    WordSearch("search");
    Spellings();
    ClassNameOfTwo("google", "search");
  }

  lemma RetrievalClassName(name: string)
    requires name == "google_search_retrieval"
    ensures ClassName(name) == "GoogleSearchRetrieval"
  {
    WordGoogle("google");
    WordSearch("search");
    WordRetrieval("retrieval");
    Spellings();
    ClassNameOfThree("google", "search", "retrieval");
  }

  lemma ToolClassName(name: string)
    requires name == "google_search_tool"
    ensures ClassName(name) == "GoogleSearchTool"
  {
    WordGoogle("google");
    WordSearch("search");
    WordTool("tool");
    Spellings();
    ClassNameOfThree("google", "search", "tool");
  }

  // ----- research_sub_topic (lines 82-171) ---------------------------------

  /** Line 89: the number of outer attempts. */
  const MaxRetries: nat := 3

  /** The candidates below `t` whose class the SDK provides (line 113), in
      order, as positions in `ToolCandidates`: `available` is the set of class
      names `genai.protos` has, and candidate `t`'s class is `CandidateClasses[t]`. */
  function ProvidedBelow(available: set<string>, t: nat): seq<nat>
    requires t <= |CandidateClasses|
  {
    if t == 0 then []
    else ProvidedBelow(available, t - 1) + (if CandidateClasses[t - 1] in available then [t - 1] else [])
  }

  /** The candidates, in order, that the tool loop calls with. */
  function Provided(available: set<string>): seq<nat>
  {
    ProvidedBelow(available, |CandidateClasses|)
  }

  /** Line 112 for candidate `t`: the class name the tool loop looks up. */
  method CandidateClass(t: nat) returns (className: string)
    requires t < |ToolCandidates|
    ensures className == CandidateClasses[t]
  {
    var toolName := ToolCandidates[t];
    className := ClassName(toolName);
    CandidateClassName(t, toolName);
  }

  /** The candidates the tool loop has called with by the time it reaches a
      later candidate start with those it had called with before. */
  lemma {:induction false} ProvidedPrefix(available: set<string>, t: nat, u: nat)
    requires t <= u <= |CandidateClasses|
    ensures |ProvidedBelow(available, t)| <= |ProvidedBelow(available, u)|
    ensures ProvidedBelow(available, u)[..|ProvidedBelow(available, t)|] == ProvidedBelow(available, t)
    decreases u - t
  {
    if t < u {
      ProvidedPrefix(available, t, u - 1);
      var before := ProvidedBelow(available, u - 1);
      assert ProvidedBelow(available, u)[..|before|] == before;
    }
  }

  /** A candidate whose class is provided is the next tool the loop calls with. */
  lemma ProvidedNext(available: set<string>, t: nat)
    requires t < |CandidateClasses| && CandidateClasses[t] in available
    ensures |ProvidedBelow(available, t)| < |Provided(available)|
    ensures Provided(available)[|ProvidedBelow(available, t)|] == t
  {
    ProvidedPrefix(available, t + 1, |CandidateClasses|);
    assert ProvidedBelow(available, t + 1) == ProvidedBelow(available, t) + [t];
  }

  /** One more candidate adds itself to the tools called with when its class is provided. */
  lemma ProvidedStep(available: set<string>, t: nat)
    requires t < |CandidateClasses|
    ensures |ProvidedBelow(available, t + 1)| == |ProvidedBelow(available, t)| + (if CandidateClasses[t] in available then 1 else 0)
  {
  }

  /** The tools called with are exactly the candidates whose class is provided,
      each once, in candidate order. */
  lemma {:induction false} ProvidedBounds(available: set<string>, t: nat)
    requires t <= |CandidateClasses|
    ensures |ProvidedBelow(available, t)| <= t
    ensures forall k: nat :: k in ProvidedBelow(available, t) <==> k < t && CandidateClasses[k] in available
    ensures forall i, j :: 0 <= i < j < |ProvidedBelow(available, t)| ==>
      ProvidedBelow(available, t)[i] < ProvidedBelow(available, t)[j]
  {
    if t > 0 {
      ProvidedBounds(available, t - 1);
      var before := ProvidedBelow(available, t - 1);
      assert ProvidedBelow(available, t) == before + (if CandidateClasses[t - 1] in available then [t - 1] else []);
      forall i | 0 <= i < |before| ensures before[i] < t - 1 {
        assert before[i] in before;
      }
    }
  }

  /** One generation call the loops may make: with the tool of candidate
      `ToolCandidates[candidate]`, or without tools (the fallback of lines 146-150). */
  datatype Call = ToolCall(candidate: nat) | PlainCall

  /** A call together with the attempt (1-based) it belongs to. */
  datatype Step = Step(attempt: nat, call: Call)

  /** The number of calls made before attempt `attempt` starts: each earlier
      attempt made one call per provided tool (lines 109-122) and one call
      without tools (lines 146-150). */
  function AttemptBase(tools: seq<nat>, attempt: nat): nat
  {
    if attempt <= 1 then 0 else AttemptBase(tools, attempt - 1) + |tools| + 1
  }

  /** The number of calls `research_sub_topic` makes when none succeeds. */
  function ScheduleSize(tools: seq<nat>): nat
  {
    AttemptBase(tools, MaxRetries + 1)
  }

  /** The call made at position `p` when counting from the start of attempt
      `attempt`: the attempt's tool calls in candidate order, then its call
      without tools, then the next attempt. */
  function StepFrom(tools: seq<nat>, p: nat, attempt: nat): Step
    decreases p
  {
    if p < |tools| then Step(attempt, ToolCall(tools[p]))
    else if p == |tools| then Step(attempt, PlainCall)
    else StepFrom(tools, p - |tools| - 1, attempt + 1)
  }

  /** The schedule of calls: the p-th call (from 0) that `research_sub_topic`
      makes, for p below `ScheduleSize(tools)`. */
  function StepAt(tools: seq<nat>, p: nat): Step
  {
    StepFrom(tools, p, 1)
  }

  /** Lines 123-163: the sleep that follows a failed call. After a tool call, an
      unsupported-tool message is tested first and moves on at once; a quota
      message waits `AgentQuotaWait`; any other error moves on at once. After the
      call without tools, a quota message waits `AgentQuotaWait` and any other
      error pauses `min(5 * attempt, 30)` seconds. */
  function SleepAfter(step: Step, message: string): seq<real>
  {
    match step.call
    case ToolCall(_) =>
      if AgentToolUnsupported(message) then []
      else if AgentQuota(message) then [AgentQuotaWait(message, step.attempt)]
      else []
    case PlainCall =>
      if AgentQuota(message) then [AgentQuotaWait(message, step.attempt)]
      else [FallbackPause(step.attempt) as real]
  }

  /** The sleep, if any, after a scheduled call with the given outcome. */
  function FailureSleep(step: Step, outcome: Outcome): seq<real>
  {
    if outcome.Err? then SleepAfter(step, outcome.message) else []
  }

  /** The sleeps that follow the first `m` scheduled calls, the k-th call
      reading `oracle(base + k)`. */
  function SleepsOf(tools: seq<nat>, oracle: Oracle, base: nat, m: nat): seq<real>
  {
    if m == 0 then []
    else SleepsOf(tools, oracle, base, m - 1) + FailureSleep(StepAt(tools, m - 1), oracle(base + m - 1))
  }

  const CouldNotResearch := "Could not research topic: "
  const ReasonLabel := ". Reason: "

  /** Lines 102 and 168: the summary that reports a failure. */
  function Unresearched(subTopic: string, reason: string): string
  {
    CouldNotResearch + subTopic + ReasonLabel + reason
  }

  /** What one run of `research_sub_topic` gives: the summary it returns, the
      number of generation calls it made and the sleeps in order. */
  datatype Research = Research(summary: string, calls: nat, sleeps: seq<real>)

  /** `research_sub_topic` as a specification. `modelError` is the message of the
      exception raised when the model cannot be created (then no call is made).
      Otherwise the calls follow the schedule until the first success, whose text
      is returned; when none succeeds the summary names the last error, which is
      the one of the last call without tools. */
  function ResearchSpec(subTopic: string, tools: seq<nat>, modelError: Option<string>,
                        oracle: Oracle, base: nat): Research
  {
    if modelError.Some? then Research(Unresearched(subTopic, modelError.value), 0, [])
    else ScheduledResearch(subTopic, tools, oracle, base)
  }

  /** The scheduled calls made until the first success. */
  function ScheduledResearch(subTopic: string, tools: seq<nat>, oracle: Oracle, base: nat): Research
  {
    var n := ScheduleSize(tools);
    var first := FirstOk(oracle, base, n);
    if first.Some? then
      Research(oracle(base + first.value).text, first.value + 1, SleepsOf(tools, oracle, base, first.value))
    else
      Research(Unresearched(subTopic, oracle(base + n - 1).message), n, SleepsOf(tools, oracle, base, n))
  }

  // ----- positions in the schedule ----------------------------------------

  /** Each of the three attempts makes one call per provided tool and one call
      without tools. */
  lemma ScheduleLength(tools: seq<nat>)
    ensures ScheduleSize(tools) == MaxRetries * (|tools| + 1)
  {
    assert AttemptBase(tools, 2) == |tools| + 1;
    assert AttemptBase(tools, 3) == 2 * (|tools| + 1);
    assert AttemptBase(tools, 4) == 3 * (|tools| + 1);
  }

  lemma {:induction false} StepFromAt(tools: seq<nat>, a0: nat, attempt: nat, i: nat)
    requires 1 <= a0 <= attempt && i <= |tools|
    ensures AttemptBase(tools, a0) <= AttemptBase(tools, attempt)
    ensures StepFrom(tools, AttemptBase(tools, attempt) - AttemptBase(tools, a0) + i, a0)
         == Step(attempt, if i < |tools| then ToolCall(tools[i]) else PlainCall)
    decreases attempt - a0
  {
    if a0 < attempt {
      StepFromAt(tools, a0 + 1, attempt, i);
      assert AttemptBase(tools, attempt) - AttemptBase(tools, a0) + i
          == (AttemptBase(tools, attempt) - AttemptBase(tools, a0 + 1) + i) + |tools| + 1;
    }
  }

  /** The call at the i-th provided tool of attempt `attempt`, or, for
      `i == |tools|`, its call without tools. */
  lemma StepAtPosition(tools: seq<nat>, attempt: nat, i: nat)
    requires 1 <= attempt && i <= |tools|
    ensures StepAt(tools, AttemptBase(tools, attempt) + i)
         == Step(attempt, if i < |tools| then ToolCall(tools[i]) else PlainCall)
  {
    StepFromAt(tools, 1, attempt, i);
  }

  // ----- the loops ----------------------------------------------------------

  /** The specification's answer when every scheduled call raised. */
  lemma ExhaustedSpec(subTopic: string, tools: seq<nat>, oracle: Oracle, base: nat)
    requires AllFailed(oracle, base, ScheduleSize(tools))
    ensures ScheduleSize(tools) >= 1 && oracle(base + ScheduleSize(tools) - 1).Err?
    ensures ScheduledResearch(subTopic, tools, oracle, base)
         == Research(Unresearched(subTopic, oracle(base + ScheduleSize(tools) - 1).message),
                     ScheduleSize(tools), SleepsOf(tools, oracle, base, ScheduleSize(tools)))
  {
    ScheduleLength(tools);
    assert FirstOk(oracle, base, ScheduleSize(tools)).None?;
  }

  /** The specification's answer when the scheduled call at position `p` is the
      first to succeed. */
  lemma SucceededSpec(subTopic: string, tools: seq<nat>, oracle: Oracle, base: nat, calls: nat, sleeps: seq<real>, text: string)
    requires 1 <= calls <= ScheduleSize(tools)
    requires Answered(tools, oracle, base, calls, sleeps, text)
    ensures ScheduledResearch(subTopic, tools, oracle, base) == Research(text, calls, sleeps)
  {
    var p := calls - 1;
    assert oracle(base + p) == Ok(text) && sleeps == SleepsOf(tools, oracle, base, p);
    calc {
      ScheduledResearch(subTopic, tools, oracle, base);
      { FirstOkAt(oracle, base, ScheduleSize(tools), p);
        ScheduledAt(subTopic, tools, oracle, base, p); }
      Research(oracle(base + p).text, p + 1, SleepsOf(tools, oracle, base, p));
      Research(text, calls, sleeps);
    }
  }

  /** The specification's answer once the first success is known. */
  lemma ScheduledAt(subTopic: string, tools: seq<nat>, oracle: Oracle, base: nat, p: nat)
    requires FirstOk(oracle, base, ScheduleSize(tools)) == Some(p)
    ensures ScheduledResearch(subTopic, tools, oracle, base)
         == Research(oracle(base + p).text, p + 1, SleepsOf(tools, oracle, base, p))
  {
    var first := FirstOk(oracle, base, ScheduleSize(tools));
    assert first.Some? && first.value == p;
  }

  /** The sleeps after one more failed call: those before it, then its own. */
  lemma SleepsStep(tools: seq<nat>, oracle: Oracle, base: nat, p: nat, step: Step, message: string)
    requires StepAt(tools, p) == step && oracle(base + p) == Err(message)
    ensures SleepsOf(tools, oracle, base, p + 1) == SleepsOf(tools, oracle, base, p) + SleepAfter(step, message)
  {
  }

  /** The schedule ends with the calls of the last attempt. */
  lemma LastStep(tools: seq<nat>)
    ensures ScheduleSize(tools) == AttemptBase(tools, MaxRetries) + |tools| + 1
    ensures StepAt(tools, ScheduleSize(tools) - 1) == Step(MaxRetries, PlainCall)
  {
    var last := AttemptBase(tools, MaxRetries) + |tools|;
    assert AttemptBase(tools, MaxRetries + 1) == last + 1;
    StepAtPosition(tools, MaxRetries, |tools|);
    assert StepAt(tools, last) == Step(MaxRetries, PlainCall);
  }

  /** Every position of an attempt before the last lies inside the schedule. */
  lemma {:induction false} AttemptBaseGrows(tools: seq<nat>, attempt: nat)
    requires 1 <= attempt <= MaxRetries
    ensures AttemptBase(tools, attempt) + |tools| < ScheduleSize(tools)
    decreases MaxRetries - attempt
  {
    if attempt < MaxRetries {
      AttemptBaseGrows(tools, attempt + 1);
    }
  }

  /** The state after the first `calls` scheduled calls, which all raised:
      `sleeps` are their sleeps and `lastErr` is the message of the last one. */
  ghost predicate AllRaised(tools: seq<nat>, oracle: Oracle, base: nat, calls: nat, sleeps: seq<real>, lastErr: string)
  {
    AllFailed(oracle, base, calls)
    && sleeps == SleepsOf(tools, oracle, base, calls)
    && (calls > 0 ==> lastErr == oracle(base + calls - 1).message)
  }

  /** The state after the first `calls` scheduled calls when the last of them is
      the first to succeed, with response `text`: `sleeps` followed the others. */
  ghost predicate Answered(tools: seq<nat>, oracle: Oracle, base: nat, calls: nat, sleeps: seq<real>, text: string)
  {
    calls >= 1
    && AllFailed(oracle, base, calls - 1)
    && oracle(base + calls - 1) == Ok(text)
    && sleeps == SleepsOf(tools, oracle, base, calls - 1)
  }

  /** Lines 110-139: the call with the i-th provided tool, candidate `t`, of
      attempt `attempt`. On success the response text is returned; on failure
      the message is kept and the sleep its class calls for is taken. */
  method TryTool(ghost tools: seq<nat>, oracle: Oracle, base: nat, attempt: nat, ghost i: nat, t: nat,
                 calls: nat, sleeps: seq<real>, lastErr: string)
    returns (found: Option<string>, nextCalls: nat, nextSleeps: seq<real>, nextErr: string)
    requires 1 <= attempt && i < |tools| && tools[i] == t
    requires calls == AttemptBase(tools, attempt) + i
    requires AllRaised(tools, oracle, base, calls, sleeps, lastErr)
    ensures nextCalls == calls + 1
    ensures found.Some? ==> Answered(tools, oracle, base, nextCalls, nextSleeps, found.value)
    ensures found.None? ==> AllRaised(tools, oracle, base, nextCalls, nextSleeps, nextErr)
  {
    StepAtPosition(tools, attempt, i);
    var outcome := oracle(base + calls);
    nextCalls := calls + 1;
    if outcome.Ok? {
      return Some(outcome.text), nextCalls, sleeps, lastErr;
    }
    nextErr := outcome.message;
    var pause: seq<real>;
    if AgentToolUnsupported(nextErr) {
      // the next candidate is tried at once
      pause := [];
    } else if AgentQuota(nextErr) {
      pause := [AgentQuotaWait(nextErr, attempt)];
    } else {
      pause := [];
    }
    SleepsStep(tools, oracle, base, calls, Step(attempt, ToolCall(t)), nextErr);
    found, nextSleeps := None, sleeps + pause;
  }

  /** Lines 144-163: the call without tools that ends attempt `attempt`. A
      quota message waits `AgentQuotaWait`; any other error pauses
      `min(5 * attempt, 30)` seconds. */
  method TryWithoutTools(ghost tools: seq<nat>, oracle: Oracle, base: nat, attempt: nat,
                         calls: nat, sleeps: seq<real>, lastErr: string)
    returns (found: Option<string>, nextCalls: nat, nextSleeps: seq<real>, nextErr: string)
    requires 1 <= attempt
    requires calls == AttemptBase(tools, attempt) + |tools|
    requires AllRaised(tools, oracle, base, calls, sleeps, lastErr)
    ensures nextCalls == calls + 1
    ensures found.Some? ==> Answered(tools, oracle, base, nextCalls, nextSleeps, found.value)
    ensures found.None? ==> AllRaised(tools, oracle, base, nextCalls, nextSleeps, nextErr)
  {
    StepAtPosition(tools, attempt, |tools|);
    var outcome := oracle(base + calls);
    nextCalls := calls + 1;
    if outcome.Ok? {
      return Some(outcome.text), nextCalls, sleeps, lastErr;
    }
    nextErr := outcome.message;
    var pause: seq<real>;
    if AgentQuota(nextErr) {
      pause := [AgentQuotaWait(nextErr, attempt)];
    } else {
      pause := [FallbackPause(attempt) as real];
    }
    SleepsStep(tools, oracle, base, calls, Step(attempt, PlainCall), nextErr);
    found, nextSleeps := None, sleeps + pause;
  }

  /** Lines 111-139 for candidate `t`, reached after the `i` provided tools
      before it: skipped when its class is not provided, otherwise the call
      with its tool. `next` counts the provided tools up to and including it. */
  method TryCandidate(available: set<string>, oracle: Oracle, base: nat, attempt: nat, t: nat, ghost i: nat,
                      calls: nat, sleeps: seq<real>, lastErr: string)
    returns (found: Option<string>, nextCalls: nat, nextSleeps: seq<real>, nextErr: string, ghost next: nat)
    requires 1 <= attempt && t < |ToolCandidates| && i == |ProvidedBelow(available, t)|
    requires calls == AttemptBase(Provided(available), attempt) + i
    requires AllRaised(Provided(available), oracle, base, calls, sleeps, lastErr)
    ensures next == |ProvidedBelow(available, t + 1)|
    ensures nextCalls == AttemptBase(Provided(available), attempt) + next
    ensures found.Some? ==> next == i + 1 && Answered(Provided(available), oracle, base, nextCalls, nextSleeps, found.value)
    ensures found.None? ==> AllRaised(Provided(available), oracle, base, nextCalls, nextSleeps, nextErr)
  {
    var className := CandidateClass(t);
    ProvidedStep(available, t);
    if className in available {
      ProvidedNext(available, t);
      found, nextCalls, nextSleeps, nextErr := TryTool(Provided(available), oracle, base, attempt, i, t, calls, sleeps, lastErr);
      next := i + 1;
    } else {
      found, nextCalls, nextSleeps, nextErr, next := None, calls, sleeps, lastErr, i;
    }
  }

  /** Lines 109-139: the calls of attempt `attempt` with the provided tools, in
      candidate order, until one succeeds. */
  method TryTools(available: set<string>, oracle: Oracle, base: nat, attempt: nat,
                  calls0: nat, sleeps0: seq<real>, lastErr0: string)
    returns (found: Option<string>, calls: nat, sleeps: seq<real>, lastErr: string)
    requires 1 <= attempt
    requires calls0 == AttemptBase(Provided(available), attempt)
    requires AllRaised(Provided(available), oracle, base, calls0, sleeps0, lastErr0)
    ensures found.Some? ==>
      calls0 < calls <= calls0 + |Provided(available)|
      && Answered(Provided(available), oracle, base, calls, sleeps, found.value)
    ensures found.None? ==>
      calls == calls0 + |Provided(available)|
      && AllRaised(Provided(available), oracle, base, calls, sleeps, lastErr)
  {
    calls, sleeps, lastErr := calls0, sleeps0, lastErr0;
    var t := 0;
    ghost var i: nat := 0;
    while t < |ToolCandidates|
      invariant 0 <= t <= |ToolCandidates|
      invariant i == |ProvidedBelow(available, t)|
      invariant calls == calls0 + i
      invariant AllRaised(Provided(available), oracle, base, calls, sleeps, lastErr)
    {
      found, calls, sleeps, lastErr, i := TryCandidate(available, oracle, base, attempt, t, i, calls, sleeps, lastErr);
      if found.Some? {
        ProvidedPrefix(available, t + 1, |CandidateClasses|);
        return;
      }
      t := t + 1;
    }
    found := None;
  }

  /** Lines 109-163: one attempt, the provided tools in candidate order and
      then the call without tools, stopping at the first success. */
  method ResearchAttempt(available: set<string>, oracle: Oracle, base: nat, attempt: nat,
                         calls0: nat, sleeps0: seq<real>, lastErr0: string)
    returns (found: Option<string>, calls: nat, sleeps: seq<real>, lastErr: string)
    requires 1 <= attempt
    requires calls0 == AttemptBase(Provided(available), attempt)
    requires AllRaised(Provided(available), oracle, base, calls0, sleeps0, lastErr0)
    ensures found.Some? ==>
      calls0 < calls <= AttemptBase(Provided(available), attempt + 1)
      && Answered(Provided(available), oracle, base, calls, sleeps, found.value)
    ensures found.None? ==>
      calls == AttemptBase(Provided(available), attempt + 1)
      && AllRaised(Provided(available), oracle, base, calls, sleeps, lastErr)
  {
    found, calls, sleeps, lastErr := TryTools(available, oracle, base, attempt, calls0, sleeps0, lastErr0);
    if found.None? {
      // line 144: none of the tools succeeded, so the call is made without them
      found, calls, sleeps, lastErr := TryWithoutTools(Provided(available), oracle, base, attempt, calls, sleeps, lastErr);
    }
  }

  /** Lines 82-171: the attempts in turn until one succeeds; the summary of the
      last error when none does. */
  method ResearchSubTopic(subTopic: string, available: set<string>, modelError: Option<string>,
                          oracle: Oracle, base: nat)
    returns (summary: string, calls: nat, sleeps: seq<real>)
    ensures Research(summary, calls, sleeps) == ResearchSpec(subTopic, Provided(available), modelError, oracle, base)
  {
    if modelError.Some? {
      return Unresearched(subTopic, modelError.value), 0, [];
    }
    ghost var tools := Provided(available);
    var lastErr := "";
    calls, sleeps := 0, [];
    var attempt: nat := 1;
    while attempt <= MaxRetries
      invariant 1 <= attempt <= MaxRetries + 1
      invariant calls == AttemptBase(tools, attempt)
      invariant AllRaised(tools, oracle, base, calls, sleeps, lastErr)
    {
      var found;
      found, calls, sleeps, lastErr := ResearchAttempt(available, oracle, base, attempt, calls, sleeps, lastErr);
      if found.Some? {
        AnsweredResearch(subTopic, tools, oracle, base, attempt, calls, sleeps, found.value);
        return found.value, calls, sleeps;
      }
      attempt := attempt + 1;
    }
    RaisedResearch(subTopic, tools, oracle, base, calls, sleeps, lastErr);
    summary := Unresearched(subTopic, lastErr);
  }

  /** The research ends with the answer of the first call that succeeds. */
  lemma AnsweredResearch(subTopic: string, tools: seq<nat>, oracle: Oracle, base: nat, attempt: nat,
                         calls: nat, sleeps: seq<real>, text: string)
    requires 1 <= attempt <= MaxRetries && calls <= AttemptBase(tools, attempt + 1)
    requires Answered(tools, oracle, base, calls, sleeps, text)
    ensures ResearchSpec(subTopic, tools, None, oracle, base) == Research(text, calls, sleeps)
  {
    AttemptBaseGrows(tools, attempt);
    SucceededSpec(subTopic, tools, oracle, base, calls, sleeps, text);
  }

  /** The research ends with the last error when all the scheduled calls raised. */
  lemma RaisedResearch(subTopic: string, tools: seq<nat>, oracle: Oracle, base: nat,
                       calls: nat, sleeps: seq<real>, lastErr: string)
    requires calls == AttemptBase(tools, MaxRetries + 1)
    requires AllRaised(tools, oracle, base, calls, sleeps, lastErr)
    ensures ResearchSpec(subTopic, tools, None, oracle, base) == Research(Unresearched(subTopic, lastErr), calls, sleeps)
  {
    assert calls == ScheduleSize(tools);
    ExhaustedSpec(subTopic, tools, oracle, base);
  }

  // ----- what research_sub_topic promises -----------------------------------

  lemma {:induction false} SleepsBound(tools: seq<nat>, oracle: Oracle, base: nat, m: nat)
    ensures |SleepsOf(tools, oracle, base, m)| <= m
  {
    if m > 0 {
      var step := StepAt(tools, m - 1);
      var outcome := oracle(base + m - 1);
      assert |FailureSleep(step, outcome)| <= 1;
      SleepsBound(tools, oracle, base, m - 1);
      assert SleepsOf(tools, oracle, base, m) == SleepsOf(tools, oracle, base, m - 1) + FailureSleep(step, outcome);
    }
  }

  /** Lines 89-90 and 107-150: at most three attempts, each with at most one
      call per candidate whose class is provided and one call without tools, so
      never more than 12 calls, and at most one sleep per call. When every call
      raises, exactly `3 * (provided + 1)` calls are made. */
  lemma ResearchBounded(subTopic: string, available: set<string>, modelError: Option<string>, oracle: Oracle, base: nat)
    ensures ResearchSpec(subTopic, Provided(available), modelError, oracle, base).calls <= 12
    ensures |ResearchSpec(subTopic, Provided(available), modelError, oracle, base).sleeps| <= ResearchSpec(subTopic, Provided(available), modelError, oracle, base).calls
    ensures modelError.None? && AllFailed(oracle, base, ScheduleSize(Provided(available))) ==>
      ResearchSpec(subTopic, Provided(available), modelError, oracle, base).calls == MaxRetries * (|Provided(available)| + 1)
  {
    var tools := Provided(available);
    ProvidedBounds(available, |CandidateClasses|);
    ScheduleLength(tools);
    var r := ResearchSpec(subTopic, Provided(available), modelError, oracle, base);
    if modelError.None? {
      var first := FirstOk(oracle, base, ScheduleSize(tools));
      if first.Some? {
        SleepsBound(tools, oracle, base, first.value);
      } else {
        SleepsBound(tools, oracle, base, ScheduleSize(tools));
      }
    }
  }

  /** Lines 118-119, 143-144 and 149-150: the first call that succeeds ends the
      research. Its text is the summary, no call follows it, and the sleeps are
      those of the calls before it. */
  lemma FirstSuccessWins(subTopic: string, available: set<string>, oracle: Oracle, base: nat, p: nat)
    requires p < ScheduleSize(Provided(available))
    requires AllFailed(oracle, base, p) && oracle(base + p).Ok?
    ensures ResearchSpec(subTopic, Provided(available), None, oracle, base)
         == Research(oracle(base + p).text, p + 1, SleepsOf(Provided(available), oracle, base, p))
  {
    FirstOkAt(oracle, base, ScheduleSize(Provided(available)), p);
    ScheduledAt(subTopic, Provided(available), oracle, base, p);
  }

  /** Lines 98-105 and 165-168: `research_sub_topic` never raises. When the model
      cannot be created no call is made; when every call raises, the last call
      is the call without tools of attempt 3 and the summary names its error. */
  lemma NoSuccessSentinel(subTopic: string, available: set<string>, modelError: Option<string>, oracle: Oracle, base: nat)
    requires modelError.None? ==> AllFailed(oracle, base, ScheduleSize(Provided(available)))
    ensures modelError.Some? ==>
      ResearchSpec(subTopic, Provided(available), modelError, oracle, base)
        == Research(CouldNotResearch + subTopic + ReasonLabel + modelError.value, 0, [])
    ensures modelError.None? ==>
      var n := ScheduleSize(Provided(available));
      n >= 1 && StepAt(Provided(available), n - 1) == Step(MaxRetries, PlainCall)
      && oracle(base + n - 1).Err?
      && ResearchSpec(subTopic, Provided(available), modelError, oracle, base).summary
         == CouldNotResearch + subTopic + ReasonLabel + oracle(base + n - 1).message
  {
    if modelError.Some? {
      assert ResearchSpec(subTopic, Provided(available), modelError, oracle, base)
          == Research(Unresearched(subTopic, modelError.value), 0, []);
    } else {
      ExhaustedSummary(subTopic, Provided(available), oracle, base);
    }
  }

  /** When every scheduled call raised, the last is the call without tools of
      the last attempt and the summary names its error. */
  lemma ExhaustedSummary(subTopic: string, tools: seq<nat>, oracle: Oracle, base: nat)
    requires AllFailed(oracle, base, ScheduleSize(tools))
    ensures ScheduleSize(tools) >= 1 && oracle(base + ScheduleSize(tools) - 1).Err?
    ensures StepAt(tools, ScheduleSize(tools) - 1) == Step(MaxRetries, PlainCall)
    ensures ResearchSpec(subTopic, tools, None, oracle, base).summary
         == CouldNotResearch + subTopic + ReasonLabel + oracle(base + ScheduleSize(tools) - 1).message
  {
    ExhaustedSpec(subTopic, tools, oracle, base);
    LastStep(tools);
  }

  /** The first `m` calls of attempt 1 are tool calls; when all raise an
      unsupported-tool message, none of them sleeps (line 127 is tested before
      the quota test of line 131). */
  lemma {:induction false} UnsupportedToolsNoSleep(tools: seq<nat>, oracle: Oracle, base: nat, m: nat)
    requires m <= |tools|
    requires forall k :: base <= k < base + m ==> oracle(k).Err? && AgentToolUnsupported(oracle(k).message)
    ensures AllFailed(oracle, base, m)
    ensures SleepsOf(tools, oracle, base, m) == []
  {
    if m > 0 {
      UnsupportedToolsNoSleep(tools, oracle, base, m - 1);
      StepAtPosition(tools, 1, m - 1);
      var k := base + m - 1;
      assert oracle(k).Err? && AgentToolUnsupported(oracle(k).message);
      var step := StepAt(tools, m - 1);
      assert step == Step(1, ToolCall(tools[m - 1]));
      assert FailureSleep(step, oracle(k)) == [];
      assert SleepsOf(tools, oracle, base, m) == SleepsOf(tools, oracle, base, m - 1) + FailureSleep(step, oracle(k));
      assert AllFailed(oracle, base, m);
    }
  }

  /** When every provided tool is refused as unsupported and the call without
      tools then succeeds, that call's text is the summary, after
      `provided + 1` calls and no sleep at all, within the first attempt. */
  lemma UnsupportedToolsThenPlain(subTopic: string, available: set<string>, oracle: Oracle, base: nat, text: string)
    requires forall k :: base <= k < base + |Provided(available)| ==>
      oracle(k).Err? && AgentToolUnsupported(oracle(k).message)
    requires oracle(base + |Provided(available)|) == Ok(text)
    ensures ResearchSpec(subTopic, Provided(available), None, oracle, base) == Research(text, |Provided(available)| + 1, [])
  {
    var tools := Provided(available);
    UnsupportedToolsNoSleep(tools, oracle, base, |tools|);
    ScheduleLength(tools);
    FirstSuccessWins(subTopic, available, oracle, base, |tools|);
  }

  /** With no tool class provided, a quota failure of the first call without
      tools followed by a success sleeps once, for the quota wait of attempt 1,
      and returns the text of the second call. */
  lemma QuotaThenSuccess(subTopic: string, available: set<string>, oracle: Oracle, base: nat, message: string, text: string)
    requires forall k :: 0 <= k < |CandidateClasses| ==> CandidateClasses[k] !in available
    requires oracle(base) == Err(message) && AgentQuota(message)
    requires oracle(base + 1) == Ok(text)
    ensures ResearchSpec(subTopic, Provided(available), None, oracle, base) == Research(text, 2, [AgentQuotaWait(message, 1)])
  {
    var tools := Provided(available);
    assert CandidateClasses[0] !in available && CandidateClasses[1] !in available && CandidateClasses[2] !in available;
    assert ProvidedBelow(available, 1) == [];
    assert ProvidedBelow(available, 2) == [];
    assert tools == ProvidedBelow(available, 3) == [];
    ScheduleLength(tools);
    StepAtPosition(tools, 1, 0);
    assert AllFailed(oracle, base, 1);
    FirstSuccessWins(subTopic, available, oracle, base, 1);
  }

  // ----- synthesize_report (lines 174-198) -----------------------------------

  const SynthesisFailure := "Failed to synthesize the final report."

  /** The command-line synthesis: the report text, or the `ValueError` raised
      when the single call fails (there is no retry). */
  function AgentSynthesize(outcome: Outcome): (r: AgentRun)
    ensures r.Report? <==> outcome.Ok?
    ensures outcome.Ok? ==> r.text == outcome.text
    ensures outcome.Err? ==> r.message == SynthesisFailure
  {
    match outcome
    case Ok(text) => Report(text)
    case Err(_) => Critical(SynthesisFailure)
  }

  // ----- run_research_agent (lines 203-259) ----------------------------------

  /** One entry of `research_results`: a sub-topic and its summary. */
  datatype Finding = Finding(topic: string, summary: string)

  /** Line 242: the notes block of one finding. */
  function NoteBlock(f: Finding): string
  {
    "Sub-Topic: " + f.topic + "\nResearch Summary:\n" + f.summary
  }

  function NoteBlocks(fs: seq<Finding>): (r: seq<string>)
    ensures |r| == |fs| && forall k :: 0 <= k < |fs| ==> r[k] == NoteBlock(fs[k])
  {
    if fs == [] then [] else [NoteBlock(fs[0])] + NoteBlocks(fs[1..])
  }

  const NoteSeparator := "\n---\n"

  /** Lines 241-244: the research data handed to the synthesis. */
  function ResearchData(fs: seq<Finding>): string
  {
    Join(NoteSeparator, NoteBlocks(fs))
  }

  /** The research data holds every block verbatim, in input order, each one
      separator after the previous one. */
  lemma ResearchDataInOrder(fs: seq<Finding>, i: nat)
    requires i < |fs|
    ensures OccursAt(ResearchData(fs), JoinOffset(NoteSeparator, NoteBlocks(fs), i), NoteBlock(fs[i]))
    ensures i > 0 ==>
      JoinOffset(NoteSeparator, NoteBlocks(fs), i)
        == JoinOffset(NoteSeparator, NoteBlocks(fs), i - 1) + |NoteBlock(fs[i - 1])| + |NoteSeparator|
  {
    JoinPartAt(NoteSeparator, NoteBlocks(fs), i);
    if i > 0 {
      JoinOffsetNext(NoteSeparator, NoteBlocks(fs), i);
    }
  }

  /** The summary `research_sub_topic` returns for `subTopic` when the service
      answers its calls as `oracle` does. */
  function SummaryOf(subTopic: string, available: set<string>, modelError: Option<string>, oracle: Oracle): string
  {
    ResearchSpec(subTopic, Provided(available), modelError, oracle, 0).summary
  }

  /** Lines 229-244: research each sub-topic in turn, collect the findings and
      join them into the research data. The service answers the calls made for
      the k-th sub-topic as `service(k)` does. */
  method GatherResearch(subTopics: seq<string>, available: set<string>, modelError: Option<string>,
                        service: nat -> Oracle)
    returns (findings: seq<Finding>, data: string)
    ensures |findings| == |subTopics|
    ensures forall k :: 0 <= k < |subTopics| ==>
      findings[k] == Finding(subTopics[k], SummaryOf(subTopics[k], available, modelError, service(k)))
    ensures data == ResearchData(findings)
  {
    findings := [];
    var i := 0;
    while i < |subTopics|
      invariant 0 <= i <= |subTopics| && |findings| == i
      invariant forall k :: 0 <= k < i ==>
        findings[k] == Finding(subTopics[k], SummaryOf(subTopics[k], available, modelError, service(k)))
    {
      var summary, _, _ := ResearchSubTopic(subTopics[i], available, modelError, service(i), 0);
      assert summary == SummaryOf(subTopics[i], available, modelError, service(i));
      ghost var before := findings;
      findings := findings + [Finding(subTopics[i], summary)];
      assert forall k :: 0 <= k < i ==> findings[k] == before[k];
      i := i + 1;
    }
    data := ResearchData(findings);
  }

  /** How a command-line run ends: the final report, or the critical error that
      ends the program (lines 256-259). */
  datatype AgentRun = Report(text: string) | Critical(message: string)

  /** Lines 203-259: brainstorm with the call answered by `brainstorm`, research
      the sub-topics, then synthesize with the call answered by `synthesis`. */
  method RunResearchAgent(available: set<string>, modelError: Option<string>, loads: string -> Option<JsonValue>,
                          brainstorm: Outcome, service: nat -> Oracle, synthesis: Outcome)
    returns (run: AgentRun, findings: seq<Finding>)
    ensures BrainstormSubTopics(brainstorm, loads).Raised? ==> run == Critical(BrainstormFailure) && findings == []
    ensures BrainstormSubTopics(brainstorm, loads).Topics? ==>
      var subTopics := BrainstormSubTopics(brainstorm, loads).items;
      |findings| == |subTopics|
      && (forall k :: 0 <= k < |subTopics| ==>
            findings[k] == Finding(subTopics[k], SummaryOf(subTopics[k], available, modelError, service(k))))
      && run == (match synthesis
                 case Ok(text) => Report(text)
                 case Err(_) => Critical(SynthesisFailure))
  {
    var brainstormed := BrainstormSubTopics(brainstorm, loads);
    if brainstormed.Raised? {
      return Critical(brainstormed.message), [];
    }
    var data;
    findings, data := GatherResearch(brainstormed.items, available, modelError, service);
    run := AgentSynthesize(synthesis);
  }
}
