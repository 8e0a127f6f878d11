# A verified model of the ReAct agent loop

This project models the controller of a small "think, act, observe" agent and the cleaner
that turns a language model's reply into JSON. The agent asks a reasoning model what to do
next. It records the model's thought and runs the tool the model named. It records the
tool's result as an observation and repeats until the model gives a final answer or the step
budget runs out.

- `values.dfy` (module `Values`): JSON values, the Python exceptions the agent raises
  (`ValueError`, `KeyError`, `TypeError`, and whatever a tool raises) and the result
  wrappers.
- `fences.dfy` (module `Fences`): `parse_json` of `utils.py`. It deletes every "```json"
  marker, then every "```" marker, strips surrounding whitespace (Python's `str.isspace`
  set), and decodes what is left. A rejected text raises `ValueError("Invalid JSON: " + s)`
  on the original text. The JSON decoder is a parameter.
- `session.dfy` (module `Session`): the state machine of the `React` class as pure
  functions over a snapshot of its fields: `Finish`, `Next` and `Start`, plus the getters
  `Last`, `StepsCount`, `IsMaxStepsReached` and `SumUsage`. All session properties are
  proved here, from single calls to whole runs.
- `agent.dfy` (module `Agent`): the class `React` itself. It has the same fields, updated in
  place. Each method is proved to leave the fields and the outcome exactly as the matching
  `Session` function says, and to keep the transcript invariant `Session.Consistent`.

The reasoning model is an oracle. Each call to `Next` or `Start` receives a `Reply`: the raw
text the model answered and the usage it reported. Tools are a name-to-function map. Each
tool takes one positional JSON value and returns a value or raises. `steps_count` is the
true division `(len - 1) / 2`, modelled exactly as a `real`. The contract of
`IsMaxStepsReached` shows that the budget test is `len - 1 >= 2 * max_steps`.

Behaviour of the code worth knowing:

- `start` performs the first step itself (react.py:109).
- A decision naming an unknown tool raises `KeyError` only after its thought was recorded
  (react.py:94, 98). A list or dict action raises `TypeError` because it is unhashable.
- On budget exhaustion, `finish` sets `not_finished` and `finish_reason =
  "max_steps_reached"`. It then raises `KeyError('action_input')`, because the last record
  is an observation. No answer and no end time are recorded (react.py:111-115).
- After a final answer, `steps_count` counts the closing thought and answer as one more
  pair. With one tool call and then an answer it reads 2 (`ToolThenAnswerScenario`).
- A final answer is labelled "max_steps_reached" when `max_steps <= 0` (`FinalAnswerLabel`).
  In general the label is decided with the answering thought counted as half a step
  (`FinalAnswerAppendsAnswer`: "final answer" iff `len < 2 * max_steps` before the thought).
  A dangling thought left by an unknown-tool error adds another half step. The label then
  becomes "max_steps_reached" only when that pushes `len - 1` up to `2 * max_steps`, as with
  `max_steps = 1` in `UnknownToolThenAnswerScenario`.
- With `max_steps <= 0`, `start` still runs one tool pair, because the budget is only tested
  after the observation. It then labels the session "max_steps_reached" and raises KeyError, with
  `steps_count` at 1 (`NoBudgetStillTakesOnePair`).
- Tools with the same `__name__` do not fail: the later one wins (`ToolsDictLaterWins`).

## Model

| member | source | states |
|---|---|---|
| `Fences.TrimStart` | utils.py:4 | the result is a suffix of the input; exactly the leading whitespace characters were removed |
| `Fences.TrimEnd` | utils.py:4 | the result is a prefix of the input; exactly the trailing whitespace characters were removed |
| `Fences.DeleteAll` | utils.py:4 | `str.replace(pat, "")` as one leftmost, non-overlapping pass (the body); the contract says it never lengthens the text. The lemmas below add: no "```" survives deleting "```" (`DeleteLeavesNoFence`); an absent marker leaves the text unchanged (`DeleteAbsent`); a backtick-free prefix passes through (`DeleteSkipsTickFree`) |
| `Fences.JsonFenceCanReform` | utils.py:4 | a single pass can leave a "```json" behind: deleting it from "```js```jsonon" gives "```json", as `replace` does |
| `Fences.Trim` | utils.py:4 | `strip()` returns a contiguous slice of its input with only whitespace before and after it, and neither end of the result is whitespace; these two facts leave only one possible result, the text between the first and last non-whitespace characters |
| `Fences.Strip` | utils.py:4 | the text handed to the decoder contains no "```" and has no surrounding whitespace |
| `Fences.DeleteLeavesNoFence` | utils.py:4 | left-to-right, non-overlapping deletion of "```" cannot join the surrounding pieces into a new "```" |
| `Fences.DeleteAbsent` | utils.py:4 | deleting a marker that does not occur leaves the text unchanged |
| `Fences.DeleteSkipsTickFree` | utils.py:4 | a backtick-free prefix passes through the deletion of a backtick marker untouched |
| `Fences.WrappedStripsToPayload` | utils.py:4 | a backtick-free, trimmed payload fenced as "```json\n" + p + "\n```" strips to exactly p, with no stray "json" left |
| `Fences.PlainPassesThrough` | utils.py:4 | a backtick-free, trimmed payload reaches the decoder unchanged |
| `Fences.StripIdempotent` | utils.py:4 | stripping the stripped text changes nothing |
| `Fences.ParseJson` | utils.py:3-8 | the result is the decoder's value on the stripped text; a rejected text gives ValueError("Invalid JSON: " + the original input) |
| `Fences.WrappedParsesAsPlain` | utils.py:3-6 | a fenced payload parses to the same value as the bare payload |
| `Session.ToolsDict` | react.py:18 | `tools_dict` has exactly one key for each tool name in the list |
| `Session.ToolsDictLaterWins` | react.py:18 | when names repeat, the last tool with that name is the one registered |
| `Session.Last` | react.py:22-24 | `last` is None exactly for an empty transcript, otherwise the newest record |
| `Session.StepsCount` | react.py:26-28 | `steps_count` is half of `len - 1`, and the integer `(len - 1) / 2` when the length is odd |
| `Session.IsMaxStepsReached` | react.py:30-32 | `is_max_steps_reached` holds iff `len(intermediate_steps) - 1 >= 2 * max_steps` |
| `Session.StepsCountOfPairs` | react.py:26-32 | after k thought/observation pairs, `steps_count` is k: budget k is reached and budget k + 1 is not |
| `Session.SumUsage` | react.py:48-55 | `token_usage` is, counter by counter, the sum of that counter over all logged responses |
| `Session.SumUsageConcat` | react.py:48-55 | usage over a log split in two is the sum of the usage of the parts |
| `Session.Extract` | react.py:76-78 | the decision is read iff the decoded reply is a dict with "thought", "action" and "action_input"; a non-dict gives TypeError; otherwise KeyError names the first missing key in the order "thought", "action", "action_input" |
| `Session.Decide` | react.py:74-78 | what `reason` makes of the reply: ValueError("Invalid JSON: " + the reply) when the decoder rejects the stripped text, otherwise the field lookups on the decoded value |
| `Session.Act` | react.py:82-85 | a registered name returns exactly what its tool returns or raises; a list or dict gives TypeError; any other value gives KeyError on the action |
| `Session.Finish` | react.py:111-115 | `finish` always sets `not_finished` false and labels by the integer budget test; it appends `{"answer": action_input}` and sets the end time iff the last record is a thought; otherwise it raises (TypeError on an empty transcript, KeyError('action_input') else) and leaves the transcript and end time alone |
| `Session.Next` | react.py:87-101 | `next`, step by step; it has no contract of its own: its properties are `NextRejectsUnlessRunning`, `NextLogsOneUsage`, `MalformedReplyKeepsTranscript`, `FailedActionKeepsThought`, `ToolStepAppendsPair`, `FinalAnswerAppendsAnswer` and `NextKeepsConsistent` |
| `Session.Proceed` | react.py:93-101 | the part of `next` after `reason`; no contract of its own. Its branches are stated by `MalformedReplyKeepsTranscript` (reason raised), `FinalAnswerAppendsAnswer` (final answer), `FailedActionKeepsThought` (the tool call raised) and `ToolStepAppendsPair` (the tool returned) |
| `Session.Observe` | react.py:98-101 | the part of `next` after `act`; no contract of its own, covered by `ToolStepAppendsPair` (the tool returned) and `FailedActionKeepsThought` (the tool call raised) |
| `Session.Started` | react.py:105-108 | the fields `start` sets before its step; no contract of its own, covered by `StartedConsistent` and `StartResetsTranscript` |
| `Session.Start` | react.py:103-109 | `start`; no contract of its own, covered by `StartResetsTranscript`, `StartKeepsConsistent`, `FirstReplyAnswers` and `ToolOnlySessionHitsBudget` |
| `Session.NextRejectsUnlessRunning` | react.py:87-91 | `next` before `start` or after finishing raises ValueError with the source's message and changes no field |
| `Session.NextLogsOneUsage` | react.py:60-64 | each `next` in a running session logs exactly one usage entry, so `token_usage` grows by exactly that usage |
| `Session.MalformedReplyKeepsTranscript` | react.py:74-78 | a reply that does not decode to a decision raises before any record is added; its usage is still logged and the session keeps running |
| `Session.FailedActionKeepsThought` | react.py:82-98 | when the tool call raises, whether from an unregistered name or inside a registered tool, that exception is passed on after the thought was appended. Nothing else changes except the usage log, and the session keeps running. An unregistered name raises KeyError, or TypeError for a list or dict |
| `Session.ToolStepAppendsPair` | react.py:97-101 | a tool step appends exactly a thought and then an observation. It finishes iff the budget is now reached. Finishing then raises KeyError with label "max_steps_reached" and records no end time |
| `Session.FinalAnswerAppendsAnswer` | react.py:93-114 | a "Final Answer" decision ends the session before any budget test: thought, then `{"answer": action_input}`, labelled by the budget test with the thought counted |
| `Session.FinalAnswerLabel` | react.py:111-113 | in a session whose steps all went through, a final answer is labelled "final answer" iff `max_steps >= 1` |
| `Session.StartResetsTranscript` | react.py:103-109 | `start` sets both flags and makes the question the first record. It always takes the first step. It keeps `completion_responses`, and keeps `finish_reason` and the end time unless that step finishes |
| `Session.RunningStartsWithQuestion` | react.py:67 | in a consistent running session the first record is the question, so `reason`'s lookup `intermediate_steps[0]["question"]` cannot fail |
| `Session.InitialConsistent` | react.py:8-17 | the fields as `__init__` sets them satisfy the transcript invariant |
| `Session.FinishKeepsConsistent` | react.py:111-115 | `finish` keeps the transcript invariant: an answer is appended only after a thought and repeats its `action_input` |
| `Session.NextKeepsConsistent` | react.py:87-101 | `next` keeps the transcript invariant: the question first and only first, each observation after a thought, an answer only last |
| `Session.StartKeepsConsistent` | react.py:103-109 | `start` establishes the transcript invariant from any state |
| `Session.Drive` | react.py:129-130 | the demo's driver loop `while agent.not_finished: agent.next()`, one reply per call; it stops when a call raises or finishes the session, or when the replies run out. It has no contract of its own: `DriveContinues` and `DriveStops` state its two cases, and the whole-session lemmas below are built on it |
| `Session.ToolStepKeepsPaired` | react.py:97-101 | in a session of whole pairs within budget, a tool step adds one pair, keeps the earlier records, and stops with KeyError and "max_steps_reached" exactly when the pair uses up the budget |
| `Session.ToolOnlyRunStopsAtBudget` | react.py:87-101 | a model that only calls tools runs to exactly `max_steps` pairs and then stops with "max_steps_reached" and KeyError; one usage entry is logged per step |
| `Session.ToolOnlySessionHitsBudget` | react.py:87-115 | for `max_steps >= 1`: from `start`, a model that only calls tools ends after exactly `max_steps` pairs, with no answer, "max_steps_reached" and KeyError |
| `Session.FirstReplyAnswers` | react.py:103-115 | for `max_steps >= 1`: a first reply with a final answer ends the session at `start` with question, thought and answer, labelled "final answer" |
| `Session.NoBudgetStillTakesOnePair` | react.py:94-115 | with `max_steps <= 0`, a first reply that calls a tool still gives question, thought and observation; then the session ends "max_steps_reached" with KeyError and `steps_count` 1, above the budget |
| `Session.DemoToolsDict` | react.py:18 | the demo's `tools=[my_tool]` registers exactly `my_tool` under its name |
| `Session.DemoScenario` | react.py:120-130 | the demo with `max_steps = 2` and `my_tool` doubling 'hello', then 'hellohello': the session ends on the observation 'hellohellohellohello' with "max_steps_reached", the loop's call raises KeyError and no third reply is requested |
| `Session.ToolThenAnswerScenario` | react.py:87-115 | one tool call and then a final answer ends with the answer 10, labelled "final answer", and `steps_count` reads 2 |
| `Session.UnknownToolThenAnswerScenario` | react.py:82-115 | with `max_steps = 1`, a dangling thought left by an unknown tool makes the next final answer be labelled "max_steps_reached" |
| `Agent.React.constructor` | react.py:8-18 | nothing started, `not_finished` true, no reason, empty logs, tools keyed by name |
| `Agent.React.Last` | react.py:22-24 | is `Session.Last` of the transcript field: None exactly when it is empty, otherwise its newest record |
| `Agent.React.IsMaxStepsReached` | react.py:30-32 | is `Session.IsMaxStepsReached` of the fields: at least `2 * max_steps` records after the question, whether or not they form complete pairs |
| `Agent.React.TokenUsage` | react.py:48-55 | the loop returns the element-wise sum of the logged usages |
| `Agent.React.AddStep` | react.py:57-58 | appends exactly one record |
| `Agent.React.Completion` | react.py:60-64 | logs the reply's usage and returns its text |
| `Agent.React.Reason` | react.py:66-80 | logs one usage and returns the decision that parsing and extraction give, or their error |
| `Agent.React.Finish` | react.py:111-115 | changes the fields as `Session.Finish` does and keeps the invariant |
| `Agent.React.Next` | react.py:87-101 | changes the fields and raises as `Session.Next` does and keeps the invariant |
| `Agent.React.Start` | react.py:103-109 | changes the fields as `Session.Start` does and establishes the invariant |

## Left out

- The chat-completion client and the network call (react.py:4, 9, 60-64) are not modelled: each call's answer is the `Reply` parameter. A failing call, and a reply whose content is None, are not modelled.
- `json.loads` is the `decode` parameter. Whatever it rejects raises ValueError. Only integral JSON numbers are modelled, and duplicate object keys are left to the decoder.
- Serialising the transcript with `json.dumps` (react.py:68) is left out. Tool results are modelled as JSON values, so it cannot fail here.
- Prompt templates and message assembly (react.py:69-73, prompts.py) have no invariants and are left out. The lookup of `intermediate_steps[0]["question"]` (react.py:67) is also left out: `Session.RunningStartsWithQuestion` proves that in a running session that keeps `Session.Consistent` the first record is always the question, so it cannot fail.
- Clocks: `start_time`, `end_time` and `duration` (react.py:42-46, 104, 115). Only whether `end_time` has been set is kept, as `endTimeSet`.
- `tools_names` (react.py:38-40) reads a `tools` attribute that does not exist and is never called.
- `tools_description` (react.py:34-36) only builds text: it is printed (react.py:20) and put into the system prompt (react.py:70), whose assembly is left out above. The other `print` calls (react.py:19) and the `__main__` demo's printing (react.py:131-134) are output only. The demo's run, with replies supplied as parameters, appears as `Session.DemoScenario`. Its loop (react.py:129-130) is `Session.Drive`, which also stops when the supplied replies run out. The source's loop asks the model again instead, so a run is only modelled as far as replies are given.
- Tool bodies and their side effects: a tool is a pure function from one JSON value to a value or an exception.
- Keyword-argument dispatch, duplicate-tool errors, a `start` that does not take the first step, and a clean finish on budget exhaustion are not modelled, because the code does none of them.
