/** The web application around the retry loop (app.py): the choice of the
    model at start-up, the brainstorm with its fallback list, the degraded
    report, and `run_research`, whose socket emits become a log of events and
    whose `time.sleep` calls become a log of sleeps. Every `generate_content`
    call is answered by an outcome given as input; the sub-topic with index `i`
    is researched against the oracle `service(i)`. */
module Pipeline {
  import opened Common
  import opened Text
  import opened Json
  import opened Retry

  // ----- find_best_model (lines 26-48) ----------------------------------------

  /** One entry of `genai.list_models()`: its name and its
      `supported_generation_methods`. */
  datatype ModelInfo = ModelInfo(name: string, methods: seq<string>)

  /** Line 48: the name used when no listed model qualifies or the listing fails. */
  const DefaultModel := "gemini-1.5-flash"

  predicate Capable(m: ModelInfo)
  {
    "generateContent" in m.methods
  }

  /** The three priorities, in order: a 1.5 flash model (line 33), a pro model
      (line 38), any model that can generate content (line 43). */
  datatype Tier = NewFlash | Pro | AnyCapable

  predicate Fits(tier: Tier, m: ModelInfo)
  {
    Capable(m) &&
    match tier
    case NewFlash => Contains(Lower(m.name), "flash") && Contains(m.name, "1.5")
    case Pro => Contains(Lower(m.name), "pro")
    case AnyCapable => true
  }

  /** One of the first-match loops: the index of the first listed model of the
      tier, if any. */
  function FirstFit(tier: Tier, models: seq<ModelInfo>): (r: Option<nat>)
    ensures r.Some? ==> r.value < |models| && Fits(tier, models[r.value])
                        && forall j :: 0 <= j < r.value ==> !Fits(tier, models[j])
    ensures r.None? ==> forall j :: 0 <= j < |models| ==> !Fits(tier, models[j])
  {
    if models == [] then None
    else if Fits(tier, models[0]) then Some(0)
    else
      match FirstFit(tier, models[1..])
      case None => None
      case Some(k) => Some(k + 1)
  }

  /** Lines 26-48. `listing` is `None` when `list_models` raises. The name is
      the default or the name of a listed model that can generate content, and
      it is a listed name whenever some listed model can generate content. */
  function FindBestModel(listing: Option<seq<ModelInfo>>): (name: string)
    ensures listing.None? ==> name == DefaultModel
    ensures name == DefaultModel
            || (listing.Some? && exists i :: 0 <= i < |listing.value| && Capable(listing.value[i]) && listing.value[i].name == name)
    ensures listing.Some? && (exists i :: 0 <= i < |listing.value| && Capable(listing.value[i])) ==>
              exists i :: 0 <= i < |listing.value| && Capable(listing.value[i]) && listing.value[i].name == name
  {
    match listing
    case None => DefaultModel
    case Some(models) =>
      match FirstFit(NewFlash, models)
      case Some(i) => models[i].name
      case None =>
        match FirstFit(Pro, models)
        case Some(i) => models[i].name
        case None =>
          match FirstFit(AnyCapable, models)
          case Some(i) => models[i].name
          case None =>
            assert forall j :: 0 <= j < |models| ==> !Capable(models[j]) by {
              forall j | 0 <= j < |models| ensures !Capable(models[j]) {
                assert !Fits(AnyCapable, models[j]);
              }
            }
            DefaultModel
  }

  /** The first capable 1.5 flash model wins, wherever it is listed. */
  lemma FlashFirst(models: seq<ModelInfo>, i: nat)
    requires i < |models| && Fits(NewFlash, models[i])
    requires forall j :: 0 <= j < i ==> !Fits(NewFlash, models[j])
    ensures FindBestModel(Some(models)) == models[i].name
  {
    var f := FirstFit(NewFlash, models);
    assert f.Some? && f.value == i;
  }

  /** Without a capable 1.5 flash model, the first capable pro model wins. */
  lemma ProSecond(models: seq<ModelInfo>, i: nat)
    requires forall j :: 0 <= j < |models| ==> !Fits(NewFlash, models[j])
    requires i < |models| && Fits(Pro, models[i])
    requires forall j :: 0 <= j < i ==> !Fits(Pro, models[j])
    ensures FindBestModel(Some(models)) == models[i].name
  {
    var f := FirstFit(Pro, models);
    assert f.Some? && f.value == i;
  }

  /** Without a capable flash or pro model, the first capable model wins. */
  lemma AnyThird(models: seq<ModelInfo>, i: nat)
    requires forall j :: 0 <= j < |models| ==> !Fits(NewFlash, models[j]) && !Fits(Pro, models[j])
    requires i < |models| && Capable(models[i])
    requires forall j :: 0 <= j < i ==> !Capable(models[j])
    ensures FindBestModel(Some(models)) == models[i].name
  {
    var f := FirstFit(AnyCapable, models);
    assert Fits(AnyCapable, models[i]);
    assert f.Some? && f.value == i;
  }

  /** Without a capable model, the default name. */
  lemma NoCapableModel(models: seq<ModelInfo>)
    requires forall j :: 0 <= j < |models| ==> !Capable(models[j])
    ensures FindBestModel(Some(models)) == DefaultModel
  {
    assert FirstFit(NewFlash, models).None?;
    assert FirstFit(Pro, models).None?;
    assert FirstFit(AnyCapable, models).None?;
  }

  // ----- brainstorm_sub_topics (lines 55-77) ----------------------------------

  /** Line 77: the list used whenever anything goes wrong. */
  function FallbackSubTopics(topic: string): seq<string>
  {
    [topic + " - Key Concepts", topic + " - Historical Context", topic + " - Future Outlook"]
  }

  /** Line 72: `xs[:3]`. */
  function Take3(xs: seq<string>): (r: seq<string>)
    ensures |r| == (if |xs| < 3 then |xs| else 3) && r <= xs
  {
    if |xs| < 3 then xs else xs[..3]
  }

  /** Lines 66-71: the span of the stripped reply from its first `[` through its
      last `]`; `None` where line 74 raises. `end` is `rfind + 1`, never -1, so
      only a missing `[` raises here. */
  function BracketSpan(text: string): (span: Option<string>)
    ensures span.None? <==> '[' !in Strip(text)
  {
    var t := Strip(text);
    var start := Find(t, '[');
    var end := RFind(t, ']') + 1;
    if start != -1 && end != -1 then Some(Slice(t, start, end)) else None
  }

  /** Lines 55-77: the first three strings of the array in the reply's bracket
      span, or the fallback list when the call raises, the reply has no `[`,
      or the span does not decode. */
  function BrainstormApp(topic: string, reply: Outcome): (subTopics: seq<string>)
    ensures |subTopics| <= 3
    ensures reply.Err? ==> subTopics == FallbackSubTopics(topic)
  {
    if reply.Err? then FallbackSubTopics(topic)
    else
      match BracketSpan(reply.text)
      case None => FallbackSubTopics(topic)
      case Some(span) =>
        match DecodeStringArray(span)
        case None => FallbackSubTopics(topic)
        case Some(xs) => Take3(xs)
  }

  /** `c` in a slice of `s` is `c` in `s`. */
  lemma NotInSlice(s: string, c: char, lo: nat, hi: nat)
    requires lo <= hi <= |s| && c !in s
    ensures c !in s[lo..hi]
  {
    forall k | 0 <= k < hi - lo
      ensures s[lo..hi][k] != c
    {
      assert s[lo..hi][k] == s[lo + k];
    }
  }

  /** A reply without `[` gives the fallback list. */
  lemma NoBracketFallback(topic: string, text: string)
    requires '[' !in text
    ensures BrainstormApp(topic, Ok(text)) == FallbackSubTopics(topic)
  {
    var left := StripLeft(text);
    NotInSlice(text, '[', |text| - |left|, |text|);
    NotInSlice(left, '[', 0, |StripRight(left)|);
  }

  /** The empty text is not JSON. */
  lemma EmptyNotJson()
    ensures DecodeStringArray("") == None
  {
  }

  /** A stripped reply whose last `]` is missing or comes before its first `[`
      gives an empty span, which does not decode: the fallback list. */
  lemma MisplacedBracketFallback(topic: string, text: string)
    requires '[' in Strip(text)
    requires RFind(Strip(text), ']') < Find(Strip(text), '[')
    ensures BrainstormApp(topic, Ok(text)) == FallbackSubTopics(topic)
  {
    var t := Strip(text);
    assert BracketSpan(text) == Some(Slice(t, Find(t, '['), RFind(t, ']') + 1));
    assert Slice(t, Find(t, '['), RFind(t, ']') + 1) == "";
    EmptyNotJson();
  }

  /** Stripping prose around an encoded array keeps the array and leaves no
      `[` before it and no `]` after it. */
  lemma StripEmbedded(before: string, e: string, after: string)
    requires '[' !in before && ']' !in after
    requires |e| >= 2 && e[0] == '[' && e[|e| - 1] == ']'
    ensures var b := StripLeft(before);
      var a := StripRight(after);
      Strip(before + e + after) == b + e + a && '[' !in b && ']' !in a
  {
    StripAround(before, e, after);
    NotInSlice(before, '[', |before| - |StripLeft(before)|, |before|);
    NotInSlice(after, ']', 0, |StripRight(after)|);
  }

  /** The first `[` of a text is the array's when no `[` comes before it. */
  lemma FindOfEmbedded(b: string, e: string, a: string)
    requires '[' !in b && |e| >= 1 && e[0] == '['
    ensures Find(b + e + a, '[') == |b|
  {
    var inner := e[1..] + a;
    assert b + e + a == b + ['['] + inner by {
      assert e == ['['] + e[1..];
    }
    FindAfterFree(b, '[', inner);
  }

  /** The last `]` of a text is the array's when no `]` comes after it. */
  lemma RFindOfEmbedded(b: string, e: string, a: string)
    requires ']' !in a && |e| >= 1 && e[|e| - 1] == ']'
    ensures RFind(b + e + a, ']') == |b| + |e| - 1
  {
    var outer := b + e[..|e| - 1];
    assert b + e + a == outer + [']'] + a by {
      assert e == e[..|e| - 1] + [']'];
    }
    RFindBeforeFree(outer, ']', a);
  }

  /** The bracket span of a text is the array it holds when no `[` comes
      before the array and no `]` after it. */
  lemma SpanOfEmbedded(b: string, e: string, a: string)
    requires '[' !in b && ']' !in a
    requires |e| >= 2 && e[0] == '[' && e[|e| - 1] == ']'
    ensures Find(b + e + a, '[') == |b|
    ensures RFind(b + e + a, ']') == |b| + |e| - 1
    ensures Slice(b + e + a, |b|, |b| + |e|) == e
  {
    FindOfEmbedded(b, e, a);
    RFindOfEmbedded(b, e, a);
    assert (b + e + a)[|b|..|b| + |e|] == e;
  }

  /** The bracket span of a reply that holds an array between prose without
      `[` before it and prose without `]` after it is that array. */
  lemma BracketSpanOfEmbedded(before: string, e: string, after: string)
    requires '[' !in before && ']' !in after
    requires |e| >= 2 && e[0] == '[' && e[|e| - 1] == ']'
    ensures BracketSpan(before + e + after) == Some(e)
  {
    var b, a := StripLeft(before), StripRight(after);
    StripEmbedded(before, e, after);
    SpanOfEmbedded(b, e, a);
    var t := Strip(before + e + after);
    assert t == b + e + a;
    assert Find(t, '[') == |b|;
    assert RFind(t, ']') + 1 == |b| + |e|;
  }

  /** A reply that holds a JSON array of strings between prose without `[`
      before it and prose without `]` after it gives the first three strings. */
  lemma EmbeddedArray(topic: string, before: string, xs: seq<string>, after: string)
    requires '[' !in before && ']' !in after
    ensures BrainstormApp(topic, Ok(before + EncodeStringArray(xs) + after)) == Take3(xs)
  {
    var e := EncodeStringArray(xs);
    EncodeBrackets(xs);
    BracketSpanOfEmbedded(before, e, after);
    DecodeEncode(xs);
  }

  // ----- synthesize_report (lines 138-148) ------------------------------------

  /** Line 148: the first line of the degraded report. */
  const ErrorHeading := "# Report Error\n"

  /** Line 148: the degraded report. */
  function ReportError(message: string, notes: string): string
  {
    ErrorHeading + "Could not synthesize: " + message + "\n\n## Notes\n" + notes
  }

  /** Lines 144-148: the reply's text, or the degraded report. */
  function SynthesizeReport(reply: Outcome, notes: string): (report: string)
    ensures reply.Ok? ==> report == reply.text
    ensures reply.Err? ==> report == ReportError(reply.message, notes)
  {
    match reply
    case Ok(text) => text
    case Err(message) => ReportError(message, notes)
  }

  /** A text made of three parts starts with the first and ends with the last. */
  lemma Framed(x: string, y: string, z: string)
    ensures |x + y + z| >= |x| + |z|
    ensures (x + y + z)[..|x|] == x && (x + y + z)[|x + y + z| - |z|..] == z
  {
    assert (x + y + z)[..|x|] == x;
    assert (x + y + z)[|x + y + z| - |z|..] == z;
  }

  /** The degraded report opens with its error heading and ends with the notes,
      verbatim. */
  lemma DegradedReportKeepsNotes(message: string, notes: string)
    ensures var r := SynthesizeReport(Err(message), notes);
      |r| >= |ErrorHeading| + |notes| && r[..|ErrorHeading|] == ErrorHeading && r[|r| - |notes|..] == notes
  {
    var middle := "Could not synthesize: " + message + "\n\n## Notes\n";
    assert ReportError(message, notes) == ErrorHeading + middle + notes;
    Framed(ErrorHeading, middle, notes);
  }

  // ----- run_research (lines 151-183) -----------------------------------------

  /** The status of a sub-topic on the page: 'pending', 'in-progress', 'error',
      'complete'. */
  datatype Status = Pending | InProgress | Errored | Complete

  /** The events the socket emits, in order. */
  datatype Event =
    | StatusUpdate(message: string)
    | SubTopicsGenerated(entries: seq<(string, Status)>)
    | SubTopicUpdate(index: nat, status: Status)
    | FinalReport(report: string)

  function Brainstorming(model: string): string
  {
    "\U{1F9E0} Brainstorming using " + model + "..."
  }

  function Researching(subTopic: string): string
  {
    "\U{1F50E} Researching: " + subTopic + " ..."
  }

  const Resting := "\U{23F3} Resting API for 10s..."
  const Synthesizing := "\U{270D}\U{FE0F} Synthesizing..."
  const Done := "\U{1F389} Done!"

  /** Line 155: every sub-topic, pending. */
  function PendingEntries(subTopics: seq<string>): (entries: seq<(string, Status)>)
    ensures |entries| == |subTopics|
    ensures forall k :: 0 <= k < |subTopics| ==> entries[k] == (subTopics[k], Pending)
  {
    seq(|subTopics|, k requires 0 <= k < |subTopics| => (subTopics[k], Pending))
  }

  /** Line 169: a summary counts as a failure when it mentions "Failed" and is
      shorter than 100 characters. */
  predicate IsFailedSummary(summary: string)
  {
    Contains(summary, "Failed") && |summary| < 100
  }

  /** Lines 169-174: the terminal status of a sub-topic. */
  function TerminalStatus(summary: string): Status
  {
    if IsFailedSummary(summary) then Errored else Complete
  }

  const ResearchFailed := "(Research failed)"

  /** Lines 171 and 173: the entry of a sub-topic in the notes. */
  function ResultEntry(subTopic: string, summary: string): string
  {
    "## " + subTopic + "\n" + (if IsFailedSummary(summary) then ResearchFailed else summary)
  }

  /** The messages of the retry loop's callback, as status updates. */
  function Notices(messages: seq<string>): (events: seq<Event>)
    ensures |events| == |messages|
    ensures forall k :: 0 <= k < |messages| ==> events[k] == StatusUpdate(messages[k])
  {
    seq(|messages|, k requires 0 <= k < |messages| => StatusUpdate(messages[k]))
  }

  /** Lines 159-165: the events before the retry loop of sub-topic `i`. */
  function Opening(i: nat, subTopic: string): seq<Event>
  {
    [StatusUpdate(Researching(subTopic)), SubTopicUpdate(i, InProgress)]
    + (if i > 0 then [StatusUpdate(Resting), StatusUpdate(Researching(subTopic))] else [])
  }

  /** Lines 159-174: the events of sub-topic `i`, given its retry run. */
  function SubTopicEvents(i: nat, subTopic: string, run: RetryRun): seq<Event>
  {
    Opening(i, subTopic) + Notices(run.notices) + [SubTopicUpdate(i, TerminalStatus(run.summary))]
  }

  /** Lines 162-167: the sleeps of sub-topic `i`: the rest, then the retry
      loop's. */
  function SubTopicSleeps(i: nat, run: RetryRun): seq<nat>
  {
    (if i > 0 then [10] else []) + run.sleeps
  }

  /** The retry run of sub-topic `k`. */
  function RunOf(sdk: Sdk, service: nat -> Oracle, k: nat): RetryRun
  {
    RetrySpec(sdk, service(k))
  }

  /** The retry runs of the first `n` sub-topics, in order. */
  function Runs(sdk: Sdk, service: nat -> Oracle, n: nat): (runs: seq<RetryRun>)
    ensures |runs| == n
  {
    seq(n, k requires 0 <= k < n => RunOf(sdk, service, k))
  }

  /** The events of the first `n` sub-topics, sub-topic `k` having retry run
      `runs[k]`. */
  function ResearchEvents(subTopics: seq<string>, runs: seq<RetryRun>, n: nat): seq<Event>
    requires n <= |subTopics| && n <= |runs|
  {
    if n == 0 then []
    else ResearchEvents(subTopics, runs, n - 1) + SubTopicEvents(n - 1, subTopics[n - 1], runs[n - 1])
  }

  /** The sleeps of the first `n` sub-topics. */
  function ResearchSleeps(subTopics: seq<string>, runs: seq<RetryRun>, n: nat): seq<nat>
    requires n <= |subTopics| && n <= |runs|
  {
    if n == 0 then []
    else ResearchSleeps(subTopics, runs, n - 1) + SubTopicSleeps(n - 1, runs[n - 1])
  }

  /** The entries of the notes for the first `n` sub-topics, in order. */
  function Results(subTopics: seq<string>, runs: seq<RetryRun>, n: nat): (results: seq<string>)
    requires n <= |subTopics| && n <= |runs|
    ensures |results| == n
  {
    if n == 0 then []
    else Results(subTopics, runs, n - 1) + [ResultEntry(subTopics[n - 1], runs[n - 1].summary)]
  }

  /** Entry `k` of the notes is sub-topic `k`'s, from its own retry run,
      however many sub-topics follow it. */
  lemma {:induction false} ResultsAt(subTopics: seq<string>, runs: seq<RetryRun>, n: nat, k: nat)
    requires k < n <= |subTopics| && n <= |runs|
    ensures Results(subTopics, runs, n)[k] == ResultEntry(subTopics[k], runs[k].summary)
  {
    var prev := Results(subTopics, runs, n - 1);
    var last := ResultEntry(subTopics[n - 1], runs[n - 1].summary);
    assert Results(subTopics, runs, n) == prev + [last];
    if k < n - 1 {
      ResultsAt(subTopics, runs, n - 1, k);
      assert (prev + [last])[k] == prev[k];
    }
  }

  /** What a run of `run_research` leaves behind: the emitted events and the
      sleeps, each in order. */
  datatype Session = Session(events: seq<Event>, sleeps: seq<nat>)

  /** Lines 153-155 and 176-179: the events around those of the sub-topics. */
  function SessionEvents(model: string, subTopics: seq<string>, research: seq<Event>, report: string): seq<Event>
  {
    [StatusUpdate(Brainstorming(model)), SubTopicsGenerated(PendingEntries(subTopics))]
    + research
    + [StatusUpdate(Synthesizing), FinalReport(report), StatusUpdate(Done)]
  }

  /** Line 177: the report on the joined notes. */
  function SessionReport(subTopics: seq<string>, runs: seq<RetryRun>, synthesis: Outcome): string
    requires |runs| == |subTopics|
  {
    SynthesizeReport(synthesis, Join("\n\n", Results(subTopics, runs, |subTopics|)))
  }

  /** Lines 151-179 once the sub-topics are known. */
  function SessionFor(model: string, subTopics: seq<string>, sdk: Sdk, service: nat -> Oracle, synthesis: Outcome): Session
  {
    var runs := Runs(sdk, service, |subTopics|);
    Session(SessionEvents(model, subTopics, ResearchEvents(subTopics, runs, |subTopics|),
                          SessionReport(subTopics, runs, synthesis)),
            ResearchSleeps(subTopics, runs, |subTopics|))
  }

  /** Lines 151-179 for the topic, the active model's name, the brainstorm
      reply, the SDK, the per-sub-topic oracles and the synthesis reply. */
  function ResearchSession(topic: string, model: string, brainstorm: Outcome, sdk: Sdk,
                           service: nat -> Oracle, synthesis: Outcome): Session
  {
    SessionFor(model, BrainstormApp(topic, brainstorm), sdk, service, synthesis)
  }

  /** Lines 159-165: the announcements before the retry loop, and the rest
      between two sub-topics. */
  method Announce(i: nat, subTopic: string) returns (events: seq<Event>, sleeps: seq<nat>)
    ensures events == Opening(i, subTopic)
    ensures sleeps == if i > 0 then [10] else []
  {
    events := [StatusUpdate(Researching(subTopic)), SubTopicUpdate(i, InProgress)];
    sleeps := [];
    if i > 0 {
      events := events + [StatusUpdate(Resting)];
      sleeps := sleeps + [10];
      events := events + [StatusUpdate(Researching(subTopic))];
    }
  }

  /** Lines 169-174: the terminal update and the notes entry of a summary. */
  method Conclude(i: nat, subTopic: string, summary: string) returns (update: Event, entry: string)
    ensures update == SubTopicUpdate(i, TerminalStatus(summary))
    ensures entry == ResultEntry(subTopic, summary)
  {
    if Contains(summary, "Failed") && |summary| < 100 {
      update := SubTopicUpdate(i, Errored);
      entry := "## " + subTopic + "\n" + ResearchFailed;
    } else {
      entry := "## " + subTopic + "\n" + summary;
      update := SubTopicUpdate(i, Complete);
    }
  }

  /** Lines 158-174 for sub-topic `i`. */
  method ResearchOne(i: nat, subTopic: string, sdk: Sdk, oracle: Oracle)
    returns (events: seq<Event>, sleeps: seq<nat>, entry: string)
    ensures events == SubTopicEvents(i, subTopic, RetrySpec(sdk, oracle))
    ensures sleeps == SubTopicSleeps(i, RetrySpec(sdk, oracle))
    ensures entry == ResultEntry(subTopic, RetrySpec(sdk, oracle).summary)
  {
    var opening, rest := Announce(i, subTopic);
    var summary, _, retrySleeps, notices := ResearchWithRetry(sdk, oracle);
    var update;
    update, entry := Conclude(i, subTopic, summary);
    events := opening + Notices(notices) + [update];
    sleeps := rest + retrySleeps;
  }

  /** Lines 157-174: the loop over the sub-topics. */
  method ResearchSubTopics(subTopics: seq<string>, sdk: Sdk, service: nat -> Oracle)
    returns (events: seq<Event>, sleeps: seq<nat>, results: seq<string>)
    ensures events == ResearchEvents(subTopics, Runs(sdk, service, |subTopics|), |subTopics|)
    ensures sleeps == ResearchSleeps(subTopics, Runs(sdk, service, |subTopics|), |subTopics|)
    ensures results == Results(subTopics, Runs(sdk, service, |subTopics|), |subTopics|)
  {
    ghost var runs := Runs(sdk, service, |subTopics|);
    events, sleeps, results := [], [], [];
    var i := 0;
    while i < |subTopics|
      invariant 0 <= i <= |subTopics|
      invariant events == ResearchEvents(subTopics, runs, i)
      invariant sleeps == ResearchSleeps(subTopics, runs, i)
      invariant results == Results(subTopics, runs, i)
    {
      var block, pause, entry := ResearchOne(i, subTopics[i], sdk, service(i));
      assert runs[i] == RetrySpec(sdk, service(i));
      events := events + block;
      sleeps := sleeps + pause;
      results := results + [entry];
      i := i + 1;
    }
  }

  /** Lines 153-179 once the sub-topics are known. */
  method RunWith(model: string, subTopics: seq<string>, sdk: Sdk, service: nat -> Oracle, synthesis: Outcome)
    returns (events: seq<Event>, sleeps: seq<nat>)
    ensures Session(events, sleeps) == SessionFor(model, subTopics, sdk, service, synthesis)
  {
    var opening := [StatusUpdate(Brainstorming(model)), SubTopicsGenerated(PendingEntries(subTopics))];
    var researched, results;
    researched, sleeps, results := ResearchSubTopics(subTopics, sdk, service);
    var report := SynthesizeReport(synthesis, Join("\n\n", results));
    var closing := [StatusUpdate(Synthesizing), FinalReport(report), StatusUpdate(Done)];
    events := opening + researched + closing;
  }

  /** Lines 151-179. */
  method RunResearch(topic: string, model: string, brainstorm: Outcome, sdk: Sdk,
                     service: nat -> Oracle, synthesis: Outcome)
    returns (events: seq<Event>, sleeps: seq<nat>)
    ensures Session(events, sleeps) == ResearchSession(topic, model, brainstorm, sdk, service, synthesis)
  {
    var subTopics := BrainstormApp(topic, brainstorm);
    events, sleeps := RunWith(model, subTopics, sdk, service, synthesis);
  }

  // ----- What a session emits -------------------------------------------------

  /** The sub-topic updates among `events`, in order, as (index, status). */
  function Updates(events: seq<Event>): seq<(nat, Status)>
  {
    if events == [] then []
    else (if events[0].SubTopicUpdate? then [(events[0].index, events[0].status)] else []) + Updates(events[1..])
  }

  const Hourglass := '\U{23F3}'

  /** The rest announcement of line 163 is the one status message of a
      session that opens with the hourglass. */
  predicate IsRest(e: Event)
  {
    e.StatusUpdate? && |e.message| > 0 && e.message[0] == Hourglass
  }

  /** How many of `events` announce the rest between two sub-topics. */
  function Rests(events: seq<Event>): nat
  {
    if events == [] then 0
    else (if IsRest(events[0]) then 1 else 0) + Rests(events[1..])
  }

  /** None of `events` is a final report. */
  ghost predicate NoReport(events: seq<Event>)
  {
    forall k :: 0 <= k < |events| ==> !events[k].FinalReport?
  }

  lemma {:induction false} UpdatesConcat(a: seq<Event>, b: seq<Event>)
    ensures Updates(a + b) == Updates(a) + Updates(b)
    decreases |a|
  {
    if a == [] {
      assert a + b == b;
    } else {
      var first := if a[0].SubTopicUpdate? then [(a[0].index, a[0].status)] else [];
      calc {
        Updates(a + b);
        { assert (a + b)[0] == a[0]; }
        first + Updates((a + b)[1..]);
        { assert (a + b)[1..] == a[1..] + b; }
        first + Updates(a[1..] + b);
        { UpdatesConcat(a[1..], b); }
        first + (Updates(a[1..]) + Updates(b));
        (first + Updates(a[1..])) + Updates(b);
        Updates(a) + Updates(b);
      }
    }
  }

  lemma {:induction false} RestsConcat(a: seq<Event>, b: seq<Event>)
    ensures Rests(a + b) == Rests(a) + Rests(b)
    decreases |a|
  {
    if a == [] {
      assert a + b == b;
    } else {
      assert (a + b)[1..] == a[1..] + b;
      RestsConcat(a[1..], b);
    }
  }

  /** The counts of a single event. */
  lemma Single(e: Event)
    ensures Updates([e]) == if e.SubTopicUpdate? then [(e.index, e.status)] else []
    ensures Rests([e]) == if IsRest(e) then 1 else 0
  {
    assert [e][1..] == [];
  }

  /** Events that neither update a sub-topic nor announce the rest count for
      neither. */
  lemma {:induction false} QuietEvents(events: seq<Event>)
    requires forall k :: 0 <= k < |events| ==> !events[k].SubTopicUpdate? && !IsRest(events[k])
    ensures Updates(events) == [] && Rests(events) == 0
    decreases |events|
  {
    if events != [] {
      assert forall k :: 0 <= k < |events[1..]| ==> events[1..][k] == events[k + 1];
      QuietEvents(events[1..]);
    }
  }

  /** Lines 159-165: sub-topic `i` is marked in progress, and the rest is
      announced exactly when it is not the first. */
  lemma OpeningCounts(i: nat, subTopic: string)
    ensures Updates(Opening(i, subTopic)) == [(i, InProgress)]
    ensures Rests(Opening(i, subTopic)) == if i > 0 then 1 else 0
    ensures NoReport(Opening(i, subTopic))
  {
    var researching := StatusUpdate(Researching(subTopic));
    var marked := SubTopicUpdate(i, InProgress);
    assert !IsRest(researching) by {
      assert Researching(subTopic)[0] != Hourglass;
    }
    Single(researching);
    Single(marked);
    UpdatesConcat([researching], [marked]);
    RestsConcat([researching], [marked]);
    assert [researching] + [marked] == [researching, marked];
    if i > 0 {
      var resting := StatusUpdate(Resting);
      assert IsRest(resting);
      Single(resting);
      UpdatesConcat([resting], [researching]);
      RestsConcat([resting], [researching]);
      assert [resting] + [researching] == [resting, researching];
      UpdatesConcat([researching, marked], [resting, researching]);
      RestsConcat([researching, marked], [resting, researching]);
    } else {
      assert Opening(i, subTopic) == [researching, marked];
    }
  }

  /** The retry loop's warnings neither update a sub-topic nor announce the
      rest, and none is a report. */
  lemma NoticesQuiet(messages: seq<string>)
    requires Warnings(messages)
    ensures Updates(Notices(messages)) == [] && Rests(Notices(messages)) == 0
    ensures NoReport(Notices(messages))
  {
    var notices := Notices(messages);
    forall k | 0 <= k < |notices|
      ensures !notices[k].SubTopicUpdate? && !IsRest(notices[k])
    {
      assert notices[k].message[0] == WarningSign;
    }
    QuietEvents(notices);
  }

  /** Lines 159-174: sub-topic `i` is marked in progress and then with its
      terminal status, and the rest is announced once exactly when it is not
      the first sub-topic. The retry loop's warnings are neither. */
  lemma SubTopicEventsCounts(i: nat, subTopic: string, run: RetryRun)
    requires Warnings(run.notices)
    ensures Updates(SubTopicEvents(i, subTopic, run)) == [(i, InProgress), (i, TerminalStatus(run.summary))]
    ensures Rests(SubTopicEvents(i, subTopic, run)) == if i > 0 then 1 else 0
    ensures NoReport(SubTopicEvents(i, subTopic, run))
  {
    var opening := Opening(i, subTopic);
    var notices := Notices(run.notices);
    var update := SubTopicUpdate(i, TerminalStatus(run.summary));
    OpeningCounts(i, subTopic);
    NoticesQuiet(run.notices);
    Single(update);
    UpdatesConcat(opening, notices);
    RestsConcat(opening, notices);
    UpdatesConcat(opening + notices, [update]);
    RestsConcat(opening + notices, [update]);
  }

  /** Lines 158-174 over the first `n` sub-topics: update `j` concerns
      sub-topic `j / 2`, the even ones mark it in progress and the odd ones
      give its terminal status; the rest is announced between consecutive
      sub-topics only, and no sub-topic emits a report. */
  lemma {:induction false} ResearchEventsCounts(subTopics: seq<string>, runs: seq<RetryRun>, n: nat)
    requires n <= |subTopics| && n <= |runs|
    requires forall k :: 0 <= k < |runs| ==> Warnings(runs[k].notices)
    ensures var u := Updates(ResearchEvents(subTopics, runs, n));
      |u| == 2 * n &&
      forall j :: 0 <= j < |u| ==>
        u[j] == (j / 2, if j % 2 == 0 then InProgress else TerminalStatus(runs[j / 2].summary))
    ensures Rests(ResearchEvents(subTopics, runs, n)) == if n == 0 then 0 else n - 1
    ensures NoReport(ResearchEvents(subTopics, runs, n))
  {
    if n > 0 {
      var before := ResearchEvents(subTopics, runs, n - 1);
      var run := runs[n - 1];
      var block := SubTopicEvents(n - 1, subTopics[n - 1], run);
      ResearchEventsCounts(subTopics, runs, n - 1);
      SubTopicEventsCounts(n - 1, subTopics[n - 1], run);
      UpdatesConcat(before, block);
      RestsConcat(before, block);
      assert ResearchEvents(subTopics, runs, n) == before + block;
      var u0 := Updates(before);
      var u := u0 + [(n - 1, InProgress), (n - 1, TerminalStatus(run.summary))];
      assert Updates(ResearchEvents(subTopics, runs, n)) == u;
      forall j | 0 <= j < |u|
        ensures u[j] == (j / 2, if j % 2 == 0 then InProgress else TerminalStatus(runs[j / 2].summary))
      {
        if j < |u0| {
          assert u[j] == u0[j];
        } else if j == |u0| {
          assert j / 2 == n - 1 && j % 2 == 0;
        } else {
          assert j / 2 == n - 1 && j % 2 == 1;
        }
      }
      forall k | 0 <= k < |before + block|
        ensures !(before + block)[k].FinalReport?
      {
        if k >= |before| {
          assert (before + block)[k] == block[k - |before|];
        }
      }
    }
  }

  /** Lines 153-155 and 176-179, whatever the sub-topics emit short of a
      report: the brainstorm status and the pending list open the session,
      and the synthesis status, the one report and the done status close it. */
  lemma FrameShape(model: string, subTopics: seq<string>, research: seq<Event>, report: string)
    requires NoReport(research)
    ensures var e := SessionEvents(model, subTopics, research, report);
      |e| >= 5
      && e[0] == StatusUpdate(Brainstorming(model))
      && e[1] == SubTopicsGenerated(PendingEntries(subTopics))
      && e[|e| - 3] == StatusUpdate(Synthesizing)
      && e[|e| - 2] == FinalReport(report)
      && e[|e| - 1] == StatusUpdate(Done)
      && forall k :: 0 <= k < |e| - 2 ==> !e[k].FinalReport?
  {
    var e := SessionEvents(model, subTopics, research, report);
    forall k | 0 <= k < |e| - 2
      ensures !e[k].FinalReport?
    {
      if 2 <= k < 2 + |research| {
        assert e[k] == research[k - 2];
      }
    }
  }

  /** The events around those of the sub-topics neither update a sub-topic
      nor announce the rest. */
  lemma FrameCounts(model: string, subTopics: seq<string>, research: seq<Event>, report: string)
    ensures Updates(SessionEvents(model, subTopics, research, report)) == Updates(research)
    ensures Rests(SessionEvents(model, subTopics, research, report)) == Rests(research)
  {
    var opening := [StatusUpdate(Brainstorming(model)), SubTopicsGenerated(PendingEntries(subTopics))];
    var closing := [StatusUpdate(Synthesizing), FinalReport(report), StatusUpdate(Done)];
    assert Brainstorming(model)[0] != Hourglass;
    assert Synthesizing[0] != Hourglass;
    assert Done[0] != Hourglass;
    QuietEvents(opening);
    QuietEvents(closing);
    UpdatesConcat(opening, research);
    RestsConcat(opening, research);
    UpdatesConcat(opening + research, closing);
    RestsConcat(opening + research, closing);
  }

  /** Every sub-topic's retry loop only hands warnings to the callback. */
  lemma RunsWarn(sdk: Sdk, service: nat -> Oracle, n: nat)
    ensures forall k :: 0 <= k < n ==> Warnings(Runs(sdk, service, n)[k].notices)
  {
    forall k | 0 <= k < n
      ensures Warnings(Runs(sdk, service, n)[k].notices)
    {
      NoticesAreWarnings(sdk, service(k));
    }
  }

  /** Lines 153-179: a session opens with the brainstorm status and the
      pending list, and closes with the synthesis status, the report on the
      joined notes and the done status; the report is emitted exactly once. */
  lemma SessionShape(model: string, subTopics: seq<string>, sdk: Sdk, service: nat -> Oracle, synthesis: Outcome)
    ensures var e := SessionFor(model, subTopics, sdk, service, synthesis).events;
      |e| >= 5
      && e[0] == StatusUpdate(Brainstorming(model))
      && e[1] == SubTopicsGenerated(PendingEntries(subTopics))
      && e[|e| - 3] == StatusUpdate(Synthesizing)
      && e[|e| - 2] == FinalReport(SessionReport(subTopics, Runs(sdk, service, |subTopics|), synthesis))
      && e[|e| - 1] == StatusUpdate(Done)
      && forall k :: 0 <= k < |e| - 2 ==> !e[k].FinalReport?
  {
    var runs := Runs(sdk, service, |subTopics|);
    RunsWarn(sdk, service, |subTopics|);
    ResearchEventsCounts(subTopics, runs, |subTopics|);
    FrameShape(model, subTopics, ResearchEvents(subTopics, runs, |subTopics|), SessionReport(subTopics, runs, synthesis));
  }

  /** Lines 155-174 over a whole session: every sub-topic is marked in
      progress and then with its terminal status, one after the other in list
      order, and the rest is announced between consecutive sub-topics only. */
  lemma SessionProgress(model: string, subTopics: seq<string>, sdk: Sdk, service: nat -> Oracle, synthesis: Outcome)
    ensures var u := Updates(SessionFor(model, subTopics, sdk, service, synthesis).events);
      |u| == 2 * |subTopics| &&
      forall j :: 0 <= j < |u| ==>
        u[j] == (j / 2, if j % 2 == 0 then InProgress else TerminalStatus(RunOf(sdk, service, j / 2).summary))
    ensures Rests(SessionFor(model, subTopics, sdk, service, synthesis).events) ==
              if |subTopics| == 0 then 0 else |subTopics| - 1
  {
    var runs := Runs(sdk, service, |subTopics|);
    RunsWarn(sdk, service, |subTopics|);
    ResearchEventsCounts(subTopics, runs, |subTopics|);
    FrameCounts(model, subTopics, ResearchEvents(subTopics, runs, |subTopics|), SessionReport(subTopics, runs, synthesis));
  }

  /** Line 136 meets line 169: the loop's give-up summary counts as a failure. */
  lemma GiveUpIsFailure()
    ensures IsFailedSummary(FailedToGather)
  {
    assert OccursAt(FailedToGather, 0, "Failed");
  }

  /** A service that raises on every call leaves every sub-topic marked as an
      error and noted as a failed research. */
  lemma ServiceDown(subTopics: seq<string>, sdk: Sdk, service: nat -> Oracle)
    requires forall k :: 0 <= k < |subTopics| ==> AllFailed(service(k), 0, 2 * MaxAttempts)
    ensures forall k :: 0 <= k < |subTopics| ==>
              TerminalStatus(RunOf(sdk, service, k).summary) == Errored
              && Results(subTopics, Runs(sdk, service, |subTopics|), |subTopics|)[k] == "## " + subTopics[k] + "\n" + ResearchFailed
  {
    forall k | 0 <= k < |subTopics|
      ensures TerminalStatus(RunOf(sdk, service, k).summary) == Errored
      ensures Results(subTopics, Runs(sdk, service, |subTopics|), |subTopics|)[k] == "## " + subTopics[k] + "\n" + ResearchFailed
    {
      SubTopicDown(subTopics, sdk, service, k);
    }
  }

  /** One sub-topic of `ServiceDown`. */
  lemma SubTopicDown(subTopics: seq<string>, sdk: Sdk, service: nat -> Oracle, k: nat)
    requires k < |subTopics| && AllFailed(service(k), 0, 2 * MaxAttempts)
    ensures TerminalStatus(RunOf(sdk, service, k).summary) == Errored
    ensures Results(subTopics, Runs(sdk, service, |subTopics|), |subTopics|)[k] == "## " + subTopics[k] + "\n" + ResearchFailed
  {
    NothingSucceeds(sdk, service(k));
    GiveUpIsFailure();
    ResultsAt(subTopics, Runs(sdk, service, |subTopics|), |subTopics|, k);
  }

  // ----- on_start (lines 188-193) ---------------------------------------------

  /** Lines 188-193: the topic `run_research` is started on, if any. Python's
      `data.get('topic')` gives None for a missing key, and `if topic:` also
      turns the empty string away. */
  function StartTopic(data: map<string, string>): (topic: Option<string>)
    ensures topic.Some? <==> "topic" in data && data["topic"] != ""
    ensures topic.Some? ==> topic.value == data["topic"]
  {
    if "topic" in data && |data["topic"]| > 0 then Some(data["topic"]) else None
  }
}
