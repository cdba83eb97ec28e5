# MARIANA-AI research agent: a Dafny model of its decision logic

The repository has two programs built on a remote text-generation service.
`research_agent.py` is a command-line agent. `app.py` is a web application that streams
progress over a socket. Both do the same four things:

1. brainstorm sub-topics for a topic;
2. research each sub-topic with search grounding, retrying on failure;
3. collect the notes;
4. synthesize a report.

This project models the deterministic logic around the service calls.

**Service calls become inputs.** Every `generate_content` call is answered by an
*oracle*: `oracle(k)` is the outcome of the k-th call, either `Ok(text)` or
`Err(message)`. Each sub-topic `k` is researched against its own oracle, `service(k)`.

**Side effects become logs.**

- `time.sleep` becomes an entry in a sleep log.
- The status callback and the socket emits become a message log or an event log.

**Methods are proved against specification functions.** Each imperative part of the
source is a method with loops. Its `ensures` equates its results with a recursive
specification function. The source's promises are then proved about that function
as lemmas.

Modules:

- `Common`: optional values, outcomes, oracles.
- `Text`: the Python string built-ins the code uses.
- `Backoff`: error classification, the regular-expression wait hints and the backoff arithmetic of both programs.
- `Json`: a decoder and encoder for JSON arrays of strings.
- `Agent`: research_agent.py.
- `Retry`: app.py's `research_sub_topic_with_retry`.
- `Pipeline`: the rest of app.py.

### Behaviour of the code worth noting

- The five-second margin on a server-suggested wait is added only by app.py (line 122).
  research_agent.py waits exactly the hinted number of seconds (line 134).
- research_agent.py pauses `min(5 * attempt, 30)` seconds after a failed call without tools (line 163).
- In app.py an unsupported tool uses up one of the three attempts (lines 104 and 129-131).
- app.py accepts a brainstormed `[]` and then researches nothing (line 72).
- An empty or missing topic in `start_research` does nothing and emits no event (lines 190-193).
- When app.py's modern search proto cannot be built but the retrieval proto can, the probe keeps
  the retrieval proto (line 93). A failed call with it goes to the inner handler (lines 110-113),
  which tries to build the modern proto again (line 112). The failure that reaches the classifier
  is then that build error, not the service's message.
- Line 106 tests the truth of `search_tool`. A dictionary with a key is true. The truth of the
  retrieval proto is decided by the SDK's message class; the model takes it as an input
  (`Sdk.retrievalTruthy`) and covers both values: a proto that tests false makes every call
  a call without tools.

## Model

| member | source | states |
|---|---|---|
| Text.LowerChar | app.py:118 | an ASCII capital becomes its lower-case letter, 32 code points down; every other character is kept |
| Text.LowerOfConcat | app.py:118 | lower-casing works piece by piece, so a lower-cased message holds the lower-cased form of each of its parts |
| Text.Find | app.py:68 | the index of the first `[`, or -1 exactly when there is none |
| Text.RFind | app.py:69 | the index of the last `]`, or -1 exactly when there is none |
| Text.Slice | app.py:71 | the slice is empty when the end is not after the start, and is the plain slice when both bounds are in range |
| Text.StripLeft | app.py:66 | `lstrip` removes only leading white space and leaves none at the front |
| Text.StripRight | app.py:66 | `rstrip` removes only trailing white space and leaves none at the end |
| Text.StripAround | app.py:66 | `strip` of prose around a part without surrounding white space keeps that part whole |
| Text.Split | research_agent.py:112 | `split('_')` gives at least one piece, and no piece holds the separator |
| Text.JoinSplit | research_agent.py:112 | joining the pieces of a split with the same separator gives the name back |
| Text.SplitJoin | research_agent.py:112 | splitting a join of separator-free pieces gives the pieces back |
| Text.JoinPartAt | research_agent.py:241-244 | every part of a join stands verbatim at its offset |
| Text.JoinOffsetNext | research_agent.py:241-244 | consecutive parts of a join are exactly one separator apart |
| Text.NatToStringRoundTrip | app.py:123 | the printed wait reads back as the same number |
| Backoff.RetryInDecimalAtSound | research_agent.py:133 | what the `retry in (\d+\.?\d*)s` matcher captures is a match of the pattern |
| Backoff.RetryInDecimalAtComplete | research_agent.py:133 | every match of that pattern at a position is found, with the same group |
| Backoff.RetryInDecimalAtWhole | research_agent.py:133 | a whole-second hint is captured as its digits |
| Backoff.RetryInDecimalAtFraction | research_agent.py:133 | a hint with a fraction is captured with its dot and fraction digits |
| Backoff.SpaceRunExact | research_agent.py:133 | the greedy `\s*` takes exactly the run of white space up to the next other character |
| Backoff.SecondsAtExact | research_agent.py:133 | the `seconds:\s*(\d+)` matcher captures exactly the matches of that pattern |
| Backoff.SecondsFromSound | research_agent.py:133 | the lazy `.*?` scan captures the group of the first `seconds:` match on the same line |
| Backoff.SecondsFromComplete | research_agent.py:133 | every lazy match on the line is found by the scan, with the same group |
| Backoff.RetryDelayAtSound | research_agent.py:133 | what the `retry_delay.*?seconds:\s*(\d+)` matcher captures is a match of the pattern |
| Backoff.RetryDelayAtComplete | research_agent.py:133 | every match of that pattern at a position is found, with the same group |
| Backoff.RetryDelayStopsAtLineEnd | research_agent.py:133 | `.` does not cross a line end: a `seconds:` only on a later line gives no match |
| Backoff.FirstFromSpec | research_agent.py:133 | the scan reports the first matching position, or nothing when no position matches |
| Backoff.SearchLeftmost | research_agent.py:133 | `re.search` reports the leftmost match |
| Backoff.SearchNone | research_agent.py:133 | `re.search` finds nothing exactly when no position matches |
| Backoff.BackoffSchedule | research_agent.py:134 | without a hint the waits are 10, 20 and 40 s for attempts 1-3, and never above 60 s |
| Backoff.FallbackPauseSchedule | research_agent.py:163 | the pauses after a failed call without tools are 5, 10 and 15 s, and never above 30 s |
| Backoff.AgentWaitUsesHint | research_agent.py:133-134 | a `retry in N s` hint (any case) with no match before it gives a wait of exactly N |
| Backoff.AgentWaitUsesDelayHint | research_agent.py:133-134 | with no `retry in` hint, the leftmost `retry_delay ... seconds: N` match gives a wait of exactly N |
| Backoff.AgentWaitWithoutHint | research_agent.py:133-134 | a message matching neither pattern waits `min(60, 2**attempt * 5)` |
| Backoff.DecimalValueOfFraction | research_agent.py:134 | `float(g)` is read exactly: whole part plus fraction |
| Backoff.DecimalValueOfWhole | research_agent.py:134 | a hint without a fraction is its integer value |
| Backoff.RetryInAt | app.py:121 | a capture of `retry in (\d+)s` is a digit run that occurs as the pattern |
| Backoff.RetryInAtComplete | app.py:121 | every occurrence of `retry in N s` with digits N is found |
| Backoff.AppQuotaWait | app.py:121-122 | the app never waits less than five seconds on a quota failure |
| Backoff.AppWaitUsesHint | app.py:121-122 | the leftmost integer hint N gives a wait of N + 5 |
| Backoff.AppWaitWithoutHint | app.py:121-122 | without an integer hint the wait is 65 s, so `retry in 2.5s` is no hint |
| Json.StringItems | research_agent.py:72 | the strings of a list, in order, or None as soon as one element is not a string |
| Json.DecodeEncode | app.py:72 | decoding an encoded array of strings gives the strings back |
| Agent.AcceptSubTopics | research_agent.py:71-79 | a decoded value is accepted exactly when it is a list of strings, and then its strings are returned in order; otherwise the `ValueError` |
| Agent.BrainstormSubTopics | research_agent.py:63-79 | a failed call raises the same `ValueError` as a badly shaped reply |
| Agent.AcceptStringArray | research_agent.py:72-75 | every list of strings passes unchanged, whatever its length |
| Agent.RejectNonString | research_agent.py:72-73 | one non-string element rejects the whole list |
| Agent.ClassNameOfParts | research_agent.py:112 | a name made of `_`-free parts maps to the capitalized parts run together |
| Agent.CandidateClassName | research_agent.py:90-112 | each tool candidate maps to its class name |
| Agent.SearchClassName | research_agent.py:112 | `google_search` maps to `GoogleSearch` |
| Agent.RetrievalClassName | research_agent.py:112 | `google_search_retrieval` maps to `GoogleSearchRetrieval` |
| Agent.ToolClassName | research_agent.py:112 | `google_search_tool` maps to `GoogleSearchTool` |
| Agent.CandidateClass | research_agent.py:112 | the loop's class-name computation gives the candidate's class |
| Agent.ProvidedBounds | research_agent.py:109-122 | the tools called with are exactly the provided candidates, each once, in candidate order |
| Agent.ProvidedNext | research_agent.py:113-118 | a candidate whose class is provided is the next tool the loop calls with |
| Agent.ScheduleLength | research_agent.py:107-150 | each of the three attempts makes one call per provided tool and one without tools |
| Agent.StepAtPosition | research_agent.py:107-150 | the call at each position of the schedule: its attempt and its tool |
| Agent.TryTool | research_agent.py:110-141 | one call with a tool: the answer ends the search; otherwise the error is kept and its sleep taken |
| Agent.TryWithoutTools | research_agent.py:146-163 | the call without tools: the answer ends the search; a quota failure waits, any other pauses |
| Agent.TryCandidate | research_agent.py:109-141 | an unprovided candidate is skipped without a call; a provided one is tried |
| Agent.TryTools | research_agent.py:109-141 | one attempt's tool calls, in order, stop at the first success |
| Agent.ResearchAttempt | research_agent.py:107-163 | one attempt: the provided tools, then the call without tools, until the first success |
| Agent.ResearchSubTopic | research_agent.py:82-171 | the loop computes exactly the schedule-based specification: summary, call count and sleeps |
| Agent.ResearchBounded | research_agent.py:89-150 | at most 12 calls, at most one sleep per call, and exactly `3 * (provided + 1)` calls when all fail |
| Agent.FirstSuccessWins | research_agent.py:118-150 | the first successful call ends all searching and its text is the summary |
| Agent.NoSuccessSentinel | research_agent.py:98-168 | the function never raises: with no success it names the last call's error, made without tools in attempt 3 |
| Agent.UnsupportedToolsNoSleep | research_agent.py:125-137 | unsupported-tool failures never sleep, since that test precedes the quota test |
| Agent.UnsupportedToolsThenPlain | research_agent.py:109-150 | all tools unsupported, then a plain success: `provided + 1` calls and no sleep, within attempt 1 |
| Agent.QuotaThenSuccess | research_agent.py:131-158 | with no tools provided, a quota failure then a success: one wait from the hint or backoff, then the text |
| Agent.AgentSynthesize | research_agent.py:180-198 | the report text, or the `ValueError` when the single call fails |
| Agent.NoteBlocks | research_agent.py:241-244 | one notes block per finding, in order |
| Agent.ResearchDataInOrder | research_agent.py:241-244 | every block stands verbatim in the research data, in input order, one separator apart |
| Agent.GatherResearch | research_agent.py:229-244 | one finding per sub-topic, in order, each with that sub-topic's summary, and the joined data |
| Agent.RunResearchAgent | research_agent.py:203-259 | a failed brainstorm is a critical error with no research; otherwise every sub-topic is researched, then the report or the synthesis error |
| Retry.InitialTool | app.py:84-106 | the dictionary tool exactly when the modern proto builds; the retrieval proto exactly when only it builds and tests true; otherwise no tool |
| Retry.TryOnce | app.py:106-116 | one or two calls per attempt; the second only after a failed dictionary-tool call, with the modern proto |
| Retry.Classify | app.py:118-134 | a quota message waits (its hint + 5 or 65 s); otherwise an unsupported-tool message drops the tool; anything else pauses |
| Retry.AttemptCalls | app.py:106-116 | the attempt's calls are those of the specification |
| Retry.HandleFailure | app.py:117-134 | the handler's new tool, sleeps and callback messages are the classification's |
| Retry.Attempt | app.py:105-134 | one attempt either returns the text, ending the run as the specification does, or hands over to the next attempt in the specification's state |
| Retry.Attempts | app.py:104-136 | the attempt loop computes exactly the recursive specification |
| Retry.ResearchWithRetry | app.py:79-136 | the whole function computes exactly the specification: summary, calls, sleeps and callback messages |
| Retry.RetryBounded | app.py:104-136 | at most 6 calls and 3 sleeps, and at most one announced wait per sleep |
| Retry.RetryOutcome | app.py:104-136 | the summary is the first success's text, or the sentinel when every call raised |
| Retry.DroppedStaysDropped | app.py:129-131 | once a call is made without tools, every later call is too |
| Retry.NothingSucceeds | app.py:136 | when none of the first six calls succeeds the summary is "Failed to gather information." |
| Retry.NoticesAreWarnings | app.py:123-125 | the callback only receives rate-limit warnings, each starting with the warning sign |
| Retry.QuotaBeforeUnsupported | app.py:118-131 | a message that is both a quota and an unsupported-tool message waits and keeps the tool |
| Retry.RateLimitedThenSuccess | app.py:104-127 | with no tool, a rate limit then a success: two plain calls, one announced wait of hint + 5 s (or 65 s), then the text |
| Retry.RetrievalMasksServiceError | app.py:84-134 | with only the retrieval proto, testing true, a failed first call is judged by the proto build error and pauses five seconds |
| Retry.RetryFromAllPlain | app.py:104-116 | with no tool, every later call is made without tools |
| Retry.FalsyRetrievalIsPlain | app.py:93-134 | with only the retrieval proto, testing false, every call is made without tools and an ordinary failure of the first call pauses five seconds |
| Pipeline.FirstFit | app.py:31-45 | the first listed model of a priority, if any, with none of that priority before it |
| Pipeline.FindBestModel | app.py:26-48 | the default on a listing failure; otherwise the default or a capable listed name, and a capable listed name whenever one exists |
| Pipeline.FlashFirst | app.py:31-35 | the first capable 1.5 flash model wins |
| Pipeline.ProSecond | app.py:36-40 | without one, the first capable pro model wins |
| Pipeline.AnyThird | app.py:41-45 | without either, the first capable model wins |
| Pipeline.NoCapableModel | app.py:26-48 | without a capable model, "gemini-1.5-flash" |
| Pipeline.Take3 | app.py:72 | a prefix of the decoded list of at most 3 entries |
| Pipeline.BracketSpan | app.py:66-74 | the span raises exactly when the stripped reply has no `[` |
| Pipeline.BrainstormApp | app.py:55-77 | at most 3 sub-topics, and the fallback list whenever the call raises |
| Pipeline.NoBracketFallback | app.py:66-77 | a reply without `[` gives the fallback list |
| Pipeline.MisplacedBracketFallback | app.py:66-77 | a last `]` that is missing or before the first `[` gives the fallback list |
| Pipeline.EmbeddedArray | app.py:66-72 | an array of strings between bracket-free prose gives its first three strings |
| Pipeline.SynthesizeReport | app.py:138-148 | the reply's text, or the degraded report for the raised message |
| Pipeline.DegradedReportKeepsNotes | app.py:148 | the degraded report opens with its error heading and ends with the notes verbatim |
| Pipeline.PendingEntries | app.py:155 | every sub-topic is listed, in order, as pending |
| Pipeline.Notices | app.py:167 | each callback message is one status update, in order |
| Pipeline.Results | app.py:157-173 | one notes entry per sub-topic |
| Pipeline.ResultsAt | app.py:171-173 | entry `k` of the notes is sub-topic `k`'s heading with its own summary, or "(Research failed)" for a failed one |
| Pipeline.Announce | app.py:159-165 | the opening events of a sub-topic, with the 10-second rest before every one but the first |
| Pipeline.Conclude | app.py:169-174 | the terminal update and notes entry follow the failure test of line 169 |
| Pipeline.ResearchOne | app.py:158-174 | the events, sleeps and notes entry of one sub-topic are those of the specification |
| Pipeline.ResearchSubTopics | app.py:157-174 | the loop's events, sleeps and entries are those of the specification |
| Pipeline.RunWith | app.py:153-179 | the session once the sub-topics are known equals the specification |
| Pipeline.RunResearch | app.py:151-179 | the whole run's events and sleeps equal the specification |
| Pipeline.OpeningCounts | app.py:159-165 | the opening marks the sub-topic in progress and announces the rest only when it is not the first |
| Pipeline.NoticesQuiet | app.py:167 | the retry loop's warnings neither update a sub-topic, nor announce the rest, nor report |
| Pipeline.SubTopicEventsCounts | app.py:159-174 | a sub-topic is marked in progress, then with its terminal status; the rest is announced only when it is not the first |
| Pipeline.ResearchEventsCounts | app.py:158-174 | update j is about sub-topic j/2: in progress for even j, terminal for odd j; rests only between sub-topics; no sub-topic emits a report |
| Pipeline.FrameShape | app.py:153-179 | whatever the sub-topics emit short of a report, the session opens and closes as the source does, with one report |
| Pipeline.FrameCounts | app.py:153-179 | the opening and closing events neither update a sub-topic nor announce the rest |
| Pipeline.SessionShape | app.py:153-179 | a session opens with the brainstorm status and pending list and closes with synthesis, the one final report and done |
| Pipeline.SessionProgress | app.py:155-174 | over a session, each sub-topic's two updates come in list order, and there are `n - 1` rests for n sub-topics |
| Pipeline.GiveUpIsFailure | app.py:169 | the retry loop's sentinel counts as a failed summary |
| Pipeline.ServiceDown | app.py:157-174 | a service that always raises leaves every sub-topic marked as an error and noted "(Research failed)" |
| Pipeline.StartTopic | app.py:188-193 | research starts exactly when a non-empty topic is given, on that topic |

## Left out

- The generation SDK: model construction, `generate_content`, `list_models`, and the
  proto and tool construction. The probes become inputs: in research_agent.py the set
  of class names `genai.protos` provides; in app.py which protos can be built and the
  message raised when the modern one cannot.
- The attribute fallbacks on the response (research_agent.py:171). The model returns the response text.
  A `text` attribute that raises there is not modelled.
- The Flask and Socket.IO transport, `start_background_task` and the eventlet mode. Emits become an ordered event log.
- Real sleeping. Durations are recorded in order.
- The interleaving of sleeps with events. The event log and the sleep log are separate, so the model
  does not record which sleep falls between which two events. The same holds for the retry loop's
  sleeps and callback messages.
- Environment and `.env` loading, `argparse`, `sys.exit`, printing, `traceback`, and the prompt texts.
- The `research_error` emit (app.py:181-183). No modelled step raises there: every service
  failure is caught where it happens.
- Json.DecodeStringArray: general JSON is not decoded. app.py only ever decodes a span that starts
  with `[`. The model decodes arrays of strings and treats any other array as undecodable.
- Pipeline.BrainstormApp: an array with non-string elements falls back to the three default
  sub-topics in the model, while app.py:72 returns its first three elements as they are.
- Json.UnicodeEscape: a `\u` escape that is a lone surrogate is refused, since a Dafny string cannot hold it.
- research_agent.py's `json.loads` with a response schema is an input function (`loads`).
  Only the shape check on its result is modelled.
- Text.Lower: only ASCII is lower-cased. Python's Unicode case rules are not modelled.
  The regular expressions' `IGNORECASE`, `\s` and `\d`, and `int()` and `float()`, are modelled on
  ASCII the same way: `\s` is the ASCII white space plus 0x1c-0x1f, and a digit is `0`-`9`. So a
  hint written in other Unicode decimal digits, such as `retry in ٣s`, is a hint to Python but not
  to the model (app.py would wait 8 s, the model 65 s).
- Backoff.RetryInDecimalAtComplete: complete only for hints in ASCII digits; Python's `\d` and
  `float()` also accept every other Unicode decimal digit.
- Backoff.RetryInAtComplete: complete only for hints in ASCII digits; Python's `\d` and `int()`
  also accept every other Unicode decimal digit.
- Backoff.RetryDelayAtComplete: complete only for hints in ASCII digits and `\s` as modelled above.
- Retry.TryOnce: a response whose `text` raises after a successful call (app.py:108-116) is not
  modelled. The code sends that exception to the handler of line 117 without a second call; an
  oracle outcome is either a text or an exception raised by the call itself.
- Retry.InitialTool: the truth value of the retrieval proto at app.py:106 is an input, not derived
  from the SDK's message class.
- research_agent.py's waits are exact `real` numbers, not Python floats.
- Pipeline.StartTopic: a `topic` value that is not a string is not modelled.
- A failure to create the model in research_agent.py (line 99) is an input message. The model
  creation in app.py cannot fail in the model.
