/** The state machine of react.py's `React` class, as pure functions over a snapshot of its
    fields. The class in module Agent performs the same steps imperatively and proves that
    each of its methods moves its fields exactly as the functions here say; the properties
    of a session are proved here, once, about these functions.

    The reasoner (the chat-completion call) is an oracle: each call receives a `Reply`,
    the raw text the model answered plus the usage it reported. The JSON decoder and the
    tools are parameters of the session (`Config`). */
module Session {
  import opened Values
  import Fences

  /** The sentinel action that ends a session with an answer. */
  const FinalAnswerAction: string := "Final Answer"
  const NotStartedMessage: string := "React was not started"
  const FinishedMessage: string := "React is already finished. You can start again."
  const DefaultMaxSteps: int := 10

  /** A tool: called with one positional argument, it returns a value or raises. */
  type Tool = Json -> Result<Json>

  /** A tool as the constructor receives it: its `__name__` and the callable. */
  datatype NamedTool = NamedTool(name: string, call: Tool)

  /** The usage block of one chat completion. */
  datatype Usage = Usage(promptTokens: int, completionTokens: int, totalTokens: int)

  /** What one reasoner call hands back: the message content and its usage. */
  datatype Reply = Reply(content: string, usage: Usage)

  /** One entry of `intermediate_steps`; each is a one- or three-key dict in the source. */
  datatype Record =
    | Question(question: string)                               // {"question": q}
    | Thought(thought: Json, action: Json, actionInput: Json)  // {"thought", "action", "action_input"}
    | Observation(observation: Json)                           // {"observation": o}
    | Answer(answer: Json)                                     // {"answer": a}

  /** The three fields `reason` reads out of the decoded reply. */
  datatype Decision = Decision(thought: Json, action: Json, actionInput: Json) {
    predicate IsFinalAnswer() {
      action == Str(FinalAnswerAction)
    }
  }

  datatype FinishReason = FinalAnswer | MaxStepsReached {
    /** The string the source stores in `finish_reason`. */
    function Label(): string {
      match this
      case FinalAnswer => "final answer"
      case MaxStepsReached => "max_steps_reached"
    }
  }

  /** What a session is built with and never changes: `max_steps`, `tools_dict` and the
      JSON decoder. */
  datatype Config = Config(maxSteps: int, tools: map<string, Tool>, decode: Fences.Decoder)

  /** The fields of `React` that its methods change (`end_time` only as "has been set"). */
  datatype State = State(
    steps: seq<Record>,                 // intermediate_steps
    responses: seq<Usage>,              // completion_responses, one usage per call
    isStarted: bool,
    notFinished: bool,
    finishReason: Option<FinishReason>,
    endTimeSet: bool)

  /** The fields after a method call, and whether the call returned or raised. */
  datatype Transition = Transition(after: State, outcome: Outcome)

  /** The fields as the constructor leaves them. */
  const Initial: State := State([], [], false, true, None, false)

  predicate Running(s: State) {
    s.isStarted && s.notFinished
  }

  // ---------------------------------------------------------------------------------------
  // tools_dict

  /** `{tool.__name__: tool for tool in tools}`: one entry per name, built left to right. */
  function ToolsDict(tools: seq<NamedTool>): (d: map<string, Tool>)
    ensures d.Keys == set i | 0 <= i < |tools| :: tools[i].name
  {
    if tools == [] then map[]
    else
      var last := tools[|tools| - 1];
      var d := ToolsDict(tools[..|tools| - 1])[last.name := last.call];
      assert forall i | 0 <= i < |tools| - 1 :: tools[..|tools| - 1][i] == tools[i];
      d
  }

  /** When two tools share a name, the later one is the one registered. */
  lemma {:induction false} ToolsDictLaterWins(tools: seq<NamedTool>, i: int)
    requires 0 <= i < |tools|
    requires forall j :: i < j < |tools| ==> tools[j].name != tools[i].name
    ensures tools[i].name in ToolsDict(tools)
    ensures ToolsDict(tools)[tools[i].name] == tools[i].call
  {
    if i < |tools| - 1 {
      var init := tools[..|tools| - 1];
      assert init[i] == tools[i];
      ToolsDictLaterWins(init, i);
    }
  }

  // ---------------------------------------------------------------------------------------
  // The read-only properties: last, steps_count, is_max_steps_reached, token_usage

  /** `last`: the newest record, or None for an empty transcript. */
  function Last(steps: seq<Record>): (r: Option<Record>)
    ensures r.None? <==> steps == []
    ensures r.Some? ==> r.value == steps[|steps| - 1]
  {
    if |steps| > 0 then Some(steps[|steps| - 1]) else None
  }

  /** `steps_count`: `(len(intermediate_steps) - 1) / 2`, a true division, so a half when
      the length is even. */
  function StepsCount(steps: seq<Record>): (c: real)
    ensures 2.0 * c == (|steps| - 1) as real
    ensures |steps| % 2 == 1 ==> c == ((|steps| - 1) / 2) as real
  {
    (|steps| - 1) as real / 2.0
  }

  /** `is_max_steps_reached`: `steps_count >= max_steps`. The test needs no fractions: it
      is `len - 1 >= 2 * max_steps`. */
  predicate IsMaxStepsReached(steps: seq<Record>, maxSteps: int)
    ensures IsMaxStepsReached(steps, maxSteps) <==> |steps| - 1 >= 2 * maxSteps
  {
    StepsCount(steps) >= maxSteps as real
  }

  /** The transcript of a session in which every step went through: the question, then
      thought/observation pairs. */
  predicate Paired(steps: seq<Record>) {
    |steps| % 2 == 1 && steps[0].Question?
    && forall i :: 1 <= i < |steps| ==> if i % 2 == 1 then steps[i].Thought? else steps[i].Observation?
  }

  /** After `k` complete thought/observation pairs, `steps_count` is `k`. */
  lemma StepsCountOfPairs(steps: seq<Record>, k: nat)
    requires Paired(steps) && |steps| == 2 * k + 1
    ensures StepsCount(steps) == k as real
    ensures IsMaxStepsReached(steps, k) && !IsMaxStepsReached(steps, k + 1)
  {
  }

  const NoUsage: Usage := Usage(0, 0, 0)

  function AddUsage(a: Usage, b: Usage): Usage {
    Usage(a.promptTokens + b.promptTokens, a.completionTokens + b.completionTokens,
          a.totalTokens + b.totalTokens)
  }

  /** What `token_usage`'s loop accumulates: the responses added up from the first. Each
      counter is the sum of that counter over all responses. */
  function SumUsage(rs: seq<Usage>): (u: Usage)
    ensures u == Usage(Total(rs, (u: Usage) => u.promptTokens),
                       Total(rs, (u: Usage) => u.completionTokens),
                       Total(rs, (u: Usage) => u.totalTokens))
  {
    if rs == [] then NoUsage
    else
      var init, x := rs[..|rs| - 1], rs[|rs| - 1];
      assert rs == init + [x];
      TotalSnoc(init, x, (u: Usage) => u.promptTokens);
      TotalSnoc(init, x, (u: Usage) => u.completionTokens);
      TotalSnoc(init, x, (u: Usage) => u.totalTokens);
      AddUsage(SumUsage(init), x)
  }

  /** The sum of one field over a sequence of usages, as an independent reference. */
  function Total(rs: seq<Usage>, field: Usage -> int): int {
    if rs == [] then 0 else field(rs[0]) + Total(rs[1..], field)
  }

  lemma {:induction false} TotalSnoc(rs: seq<Usage>, x: Usage, field: Usage -> int)
    ensures Total(rs + [x], field) == Total(rs, field) + field(x)
  {
    if rs != [] {
      assert (rs + [x])[1..] == rs[1..] + [x];
      TotalSnoc(rs[1..], x, field);
    }
  }

  /** Usage logged in two parts adds up to the usage of the whole log. */
  lemma {:induction false} SumUsageConcat(a: seq<Usage>, b: seq<Usage>)
    ensures SumUsage(a + b) == AddUsage(SumUsage(a), SumUsage(b))
    decreases |b|
  {
    if b == [] {
      assert a + b == a;
    } else {
      var init, x := b[..|b| - 1], b[|b| - 1];
      assert a + b == (a + init) + [x];
      SumUsageConcat(a, init);
    }
  }

  // ---------------------------------------------------------------------------------------
  // reason and act

  /** `reason` after the completion call: `parsed["thought"]`, `parsed["action"]`,
      `parsed["action_input"]`, in that order; subscripting anything but a dict raises
      TypeError, a missing key raises KeyError. */
  function Extract(parsed: Json): (r: Result<Decision>)
    ensures r.Ok? <==> (parsed.Object? && "thought" in parsed.fields
                        && "action" in parsed.fields && "action_input" in parsed.fields)
    ensures r.Ok? ==> r.value == Decision(parsed.fields["thought"], parsed.fields["action"],
                                          parsed.fields["action_input"])
    ensures parsed.Object? && "thought" !in parsed.fields ==> r == Err(KeyError(Str("thought")))
    ensures parsed.Object? && "thought" in parsed.fields && "action" !in parsed.fields
            ==> r == Err(KeyError(Str("action")))
    ensures (parsed.Object? && "thought" in parsed.fields && "action" in parsed.fields
             && "action_input" !in parsed.fields) ==> r == Err(KeyError(Str("action_input")))
    ensures !parsed.Object? ==> r == Err(TypeError)
  {
    match parsed
    case Object(fields) =>
      if "thought" !in fields then Err(KeyError(Str("thought")))
      else if "action" !in fields then Err(KeyError(Str("action")))
      else if "action_input" !in fields then Err(KeyError(Str("action_input")))
      else Ok(Decision(fields["thought"], fields["action"], fields["action_input"]))
    case _ => Err(TypeError)
  }

  /** What `reason` makes of the reply's text: `parse_json`, then `Extract`. */
  function Decide(decode: Fences.Decoder, content: string): (r: Result<Decision>)
    ensures decode(Fences.Strip(content)).None? ==> r == Err(ValueError("Invalid JSON: " + content))
    ensures decode(Fences.Strip(content)).Some? ==> r == Extract(decode(Fences.Strip(content)).value)
  {
    match Fences.ParseJson(content, decode)
    case Err(e) => Err(e)
    case Ok(parsed) => Extract(parsed)
  }

  /** `act`: `tools_dict[action](action_input)`. A list or dict is not hashable (TypeError);
      any other value that is not a registered name raises KeyError; whatever the tool
      returns or raises is passed on unchanged. */
  function Act(tools: map<string, Tool>, action: Json, input: Json): (r: Result<Json>)
    ensures action.Str? && action.s in tools ==> r == tools[action.s](input)
    ensures (action.Array? || action.Object?) ==> r == Err(TypeError)
    ensures !(action.Str? && action.s in tools) && !action.Array? && !action.Object?
            ==> r == Err(KeyError(action))
  {
    match action
    case Str(name) => if name in tools then tools[name](input) else Err(KeyError(action))
    case Array(_) => Err(TypeError)
    case Object(_) => Err(TypeError)
    case _ => Err(KeyError(action))
  }

  // ---------------------------------------------------------------------------------------
  // finish, next, start

  /** `finish`: mark the session finished, choose the reason from the budget test, then read
      `last["action_input"]`. Only a thought record has that key; on any other record the
      lookup raises KeyError (TypeError on an empty transcript) after the flags were set,
      and neither the answer nor the end time is recorded. */
  function Finish(cfg: Config, s: State): (t: Transition)
    ensures !t.after.notFinished && t.after.isStarted == s.isStarted && t.after.responses == s.responses
    ensures t.after.finishReason
            == Some(if |s.steps| - 1 >= 2 * cfg.maxSteps then MaxStepsReached else FinalAnswer)
    ensures t.outcome == Done <==> |s.steps| > 0 && s.steps[|s.steps| - 1].Thought?
    ensures t.outcome == Done ==> t.after.steps == s.steps + [Answer(s.steps[|s.steps| - 1].actionInput)]
                                  && t.after.endTimeSet
    ensures t.outcome.Raised? ==> t.after.steps == s.steps && t.after.endTimeSet == s.endTimeSet
                                  && t.outcome.error == (if s.steps == [] then TypeError
                                                         else KeyError(Str("action_input")))
  {
    var reason := if !IsMaxStepsReached(s.steps, cfg.maxSteps) then FinalAnswer else MaxStepsReached;
    var flagged := s.(notFinished := false, finishReason := Some(reason));
    match Last(s.steps)
    case None => Transition(flagged, Raised(TypeError))
    case Some(last) =>
      if last.Thought? then
        Transition(flagged.(steps := s.steps + [Answer(last.actionInput)], endTimeSet := true), Done)
      else Transition(flagged, Raised(KeyError(Str("action_input"))))
  }

  /** `next`: check the flags, ask the reasoner (logging its usage), then go on with its
      decision. */
  function Next(cfg: Config, s: State, reply: Reply): Transition {
    if !s.isStarted then Transition(s, Raised(ValueError(NotStartedMessage)))
    else if !s.notFinished then Transition(s, Raised(ValueError(FinishedMessage)))
    else Proceed(cfg, s.(responses := s.responses + [reply.usage]), Decide(cfg.decode, reply.content))
  }

  /** The rest of `next` once `reason` has returned or raised: record the thought, then
      finish on "Final Answer" or run the tool. */
  function Proceed(cfg: Config, s: State, decision: Result<Decision>): Transition {
    match decision
    case Err(e) => Transition(s, Raised(e))
    case Ok(d) =>
      var thought := s.(steps := s.steps + [Thought(d.thought, d.action, d.actionInput)]);
      if d.IsFinalAnswer() then Finish(cfg, thought)
      else Observe(cfg, thought, Act(cfg.tools, d.action, d.actionInput))
  }

  /** The end of `next` once `act` has returned or raised: record the observation and
      finish if the budget is now reached. */
  function Observe(cfg: Config, s: State, observation: Result<Json>): Transition {
    match observation
    case Err(e) => Transition(s, Raised(e))
    case Ok(obs) =>
      var observed := s.(steps := s.steps + [Observation(obs)]);
      if IsMaxStepsReached(observed.steps, cfg.maxSteps) then Finish(cfg, observed)
      else Transition(observed, Done)
  }

  /** `start`: set both flags, replace the transcript by the question alone, and take the
      first step at once. */
  function Start(cfg: Config, s: State, question: string, reply: Reply): Transition {
    Next(cfg, Started(s, question), reply)
  }

  // ---------------------------------------------------------------------------------------
  // Properties of one call

  /** `next` outside a running session raises ValueError and changes nothing. */
  lemma NextRejectsUnlessRunning(cfg: Config, s: State, reply: Reply)
    requires !Running(s)
    ensures Next(cfg, s, reply).after == s
    ensures Next(cfg, s, reply).outcome
            == Raised(ValueError(if !s.isStarted then NotStartedMessage else FinishedMessage))
  {
  }

  /** Every `next` in a running session calls the reasoner exactly once and logs its usage,
      whatever happens afterwards; so `token_usage` grows by exactly that usage. */
  lemma NextLogsOneUsage(cfg: Config, s: State, reply: Reply)
    requires Running(s)
    ensures Next(cfg, s, reply).after.responses == s.responses + [reply.usage]
    ensures SumUsage(Next(cfg, s, reply).after.responses) == AddUsage(SumUsage(s.responses), reply.usage)
  {
    match Decide(cfg.decode, reply.content)
    case Err(_) =>
    case Ok(d) =>
      if !d.IsFinalAnswer() {
        match Act(cfg.tools, d.action, d.actionInput)
        case Err(_) =>
        case Ok(_) =>
      }
    SumUsageSnoc(s.responses, reply.usage);
  }

  lemma SumUsageSnoc(rs: seq<Usage>, x: Usage)
    ensures SumUsage(rs + [x]) == AddUsage(SumUsage(rs), x)
  {
    assert (rs + [x])[..|rs|] == rs;
  }

  /** A reply that does not decode to a decision raises before anything is recorded: the
      transcript is untouched, the usage is still logged, the session keeps running. */
  lemma MalformedReplyKeepsTranscript(cfg: Config, s: State, reply: Reply)
    requires Running(s) && Decide(cfg.decode, reply.content).Err?
    ensures Next(cfg, s, reply).after == s.(responses := s.responses + [reply.usage])
    ensures Next(cfg, s, reply).outcome == Raised(Decide(cfg.decode, reply.content).error)
  {
  }

  /** A decision whose tool call raises, because the name is not registered or because the
      tool itself raised, passes that exception on after its thought was recorded; no
      observation is added and the session keeps running. A name that is not registered
      raises KeyError, or TypeError for a list or dict. */
  lemma FailedActionKeepsThought(cfg: Config, s: State, reply: Reply, d: Decision)
    requires Running(s) && Decide(cfg.decode, reply.content) == Ok(d) && !d.IsFinalAnswer()
    requires Act(cfg.tools, d.action, d.actionInput).Err?
    ensures var t := Next(cfg, s, reply);
            t.after == s.(responses := s.responses + [reply.usage],
                           steps := s.steps + [Thought(d.thought, d.action, d.actionInput)])
            && t.outcome == Raised(Act(cfg.tools, d.action, d.actionInput).error)
            && Running(t.after)
    ensures !(d.action.Str? && d.action.s in cfg.tools) ==>
              Next(cfg, s, reply).outcome
              == Raised(if d.action.Array? || d.action.Object? then TypeError else KeyError(d.action))
  {
  }

  /** A step that runs a tool appends exactly a thought and then an observation, and
      finishes only if the budget is now reached; finishing then raises KeyError because
      the last record is an observation, so no answer and no end time are recorded. */
  lemma ToolStepAppendsPair(cfg: Config, s: State, reply: Reply, d: Decision, obs: Json)
    requires Running(s) && Decide(cfg.decode, reply.content) == Ok(d) && !d.IsFinalAnswer()
    requires Act(cfg.tools, d.action, d.actionInput) == Ok(obs)
    ensures var t := Next(cfg, s, reply);
            var steps := s.steps + [Thought(d.thought, d.action, d.actionInput), Observation(obs)];
            t.after.steps == steps
            && t.after.responses == s.responses + [reply.usage]
            && t.after.isStarted
            && t.after.endTimeSet == s.endTimeSet
            && (t.after.notFinished <==> |steps| - 1 < 2 * cfg.maxSteps)
            && (t.after.notFinished ==> t.outcome == Done && t.after.finishReason == s.finishReason)
            && (!t.after.notFinished ==> t.outcome == Raised(KeyError(Str("action_input")))
                                         && t.after.finishReason == Some(MaxStepsReached))
  {
    var steps := s.steps + [Thought(d.thought, d.action, d.actionInput), Observation(obs)];
    assert s.steps + [Thought(d.thought, d.action, d.actionInput)] + [Observation(obs)] == steps;
  }

  /** A "Final Answer" decision ends the session at once, whatever the budget: the thought and
      then `{"answer": action_input}` are appended. The label depends on the budget test
      made with the thought already counted. */
  lemma FinalAnswerAppendsAnswer(cfg: Config, s: State, reply: Reply, d: Decision)
    requires Running(s) && Decide(cfg.decode, reply.content) == Ok(d) && d.IsFinalAnswer()
    ensures var t := Next(cfg, s, reply);
            t.after.steps == s.steps + [Thought(d.thought, d.action, d.actionInput), Answer(d.actionInput)]
            && t.after.responses == s.responses + [reply.usage]
            && t.outcome == Done && t.after.isStarted && !t.after.notFinished && t.after.endTimeSet
            && t.after.finishReason == Some(if |s.steps| < 2 * cfg.maxSteps then FinalAnswer else MaxStepsReached)
  {
    var steps := s.steps + [Thought(d.thought, d.action, d.actionInput)];
    assert Last(steps) == Some(Thought(d.thought, d.action, d.actionInput));
  }

  /** The budget left in a running session whose steps all went through: at most the first
      step has been taken beyond the budget. */
  predicate WithinBudget(steps: seq<Record>, maxSteps: int) {
    |steps| == 1 || |steps| - 1 < 2 * maxSteps
  }

  /** In a session whose steps all went through, a "Final Answer" is labelled "final answer"
      exactly when `max_steps >= 1`: the answering step counts as `k + 0.5 < max_steps`. */
  lemma FinalAnswerLabel(cfg: Config, s: State, reply: Reply, d: Decision)
    requires Running(s) && Paired(s.steps) && WithinBudget(s.steps, cfg.maxSteps)
    requires Decide(cfg.decode, reply.content) == Ok(d) && d.IsFinalAnswer()
    ensures Next(cfg, s, reply).after.finishReason
            == Some(if cfg.maxSteps >= 1 then FinalAnswer else MaxStepsReached)
  {
    FinalAnswerAppendsAnswer(cfg, s, reply, d);
  }

  /** `start` sets both flags, replaces the transcript by `[{"question": q}]` and takes the
      first step; it leaves `finish_reason` and the end time alone unless that step finishes,
      and does not clear `completion_responses`. */
  lemma StartResetsTranscript(cfg: Config, s: State, question: string, reply: Reply)
    ensures var t := Start(cfg, s, question, reply);
            |t.after.steps| >= 1 && t.after.steps[0] == Question(question)
            && t.after.isStarted
            && t.after.responses == s.responses + [reply.usage]
            && (|t.after.steps| == 1 <==> Decide(cfg.decode, reply.content).Err?)
            && (t.after.notFinished ==> t.after.finishReason == s.finishReason
                                        && t.after.endTimeSet == s.endTimeSet)
  {
    NextLogsOneUsage(cfg, Started(s, question), reply);
  }

  // ---------------------------------------------------------------------------------------
  // The transcript invariant

  /** What holds of every state the class can reach, whatever the replies and tools do: the
      question comes first and only first; each observation follows a thought; an answer is
      only ever the last record, follows a thought and repeats its `action_input`; a running
      session has no answer yet. */
  predicate Consistent(s: State) {
    (s.isStarted <==> |s.steps| >= 1)
    && (|s.steps| >= 1 ==> s.steps[0].Question?)
    && (forall i :: 1 <= i < |s.steps| ==> !s.steps[i].Question?)
    && (forall i :: 0 <= i < |s.steps| && s.steps[i].Observation? ==> 1 <= i && s.steps[i - 1].Thought?)
    && (forall i :: 0 <= i < |s.steps| && s.steps[i].Answer? ==>
          1 <= i == |s.steps| - 1 && s.steps[i - 1].Thought?
          && s.steps[i].answer == s.steps[i - 1].actionInput)
    && (Running(s) ==> !s.steps[|s.steps| - 1].Answer?)
  }

  /** In a consistent running session the first record is the question, so the lookup
      `intermediate_steps[0]["question"]` in `reason` cannot fail. */
  lemma RunningStartsWithQuestion(s: State)
    requires Consistent(s) && Running(s)
    ensures |s.steps| >= 1 && s.steps[0].Question?
  {
  }

  lemma InitialConsistent()
    ensures Consistent(Initial)
  {
  }

  /** Appending a thought, or an observation right after a thought, to a running session. */
  lemma AppendKeepsConsistent(s: State, r: Record)
    requires Consistent(s) && Running(s)
    requires r.Thought? || (r.Observation? && s.steps[|s.steps| - 1].Thought?)
    ensures Consistent(s.(steps := s.steps + [r]))
  {
  }

  lemma FinishKeepsConsistent(cfg: Config, s: State)
    requires Consistent(s)
    ensures Consistent(Finish(cfg, s).after)
  {
    var t := Finish(cfg, s);
    var n := |s.steps|;
    if n > 0 && s.steps[n - 1].Thought? {
      var steps := s.steps + [Answer(s.steps[n - 1].actionInput)];
      assert t.after.steps == steps;
    }
  }

  lemma NextKeepsConsistent(cfg: Config, s: State, reply: Reply)
    requires Consistent(s)
    ensures Consistent(Next(cfg, s, reply).after)
  {
    var t := Next(cfg, s, reply);
    if Running(s) {
      var logged := s.(responses := s.responses + [reply.usage]);
      match Decide(cfg.decode, reply.content)
      case Err(_) =>
        assert t.after == logged;
      case Ok(d) =>
        var r := Thought(d.thought, d.action, d.actionInput);
        var thought := logged.(steps := logged.steps + [r]);
        AppendKeepsConsistent(logged, r);
        if d.IsFinalAnswer() {
          assert t == Finish(cfg, thought);
          FinishKeepsConsistent(cfg, thought);
        } else {
          match Act(cfg.tools, d.action, d.actionInput)
          case Err(_) =>
            assert t.after == thought;
          case Ok(obs) =>
            var observed := thought.(steps := thought.steps + [Observation(obs)]);
            AppendKeepsConsistent(thought, Observation(obs));
            FinishKeepsConsistent(cfg, observed);
            assert t.after == observed || t == Finish(cfg, observed);
        }
    } else {
      assert t.after == s;
    }
  }

  lemma StartedConsistent(s: State, question: string)
    ensures Consistent(Started(s, question))
  {
  }

  lemma StartKeepsConsistent(cfg: Config, s: State, question: string, reply: Reply)
    ensures Consistent(Start(cfg, s, question, reply).after)
  {
    StartedConsistent(s, question);
    NextKeepsConsistent(cfg, Started(s, question), reply);
  }

  // ---------------------------------------------------------------------------------------
  // Whole sessions

  /** The fields `start` sets before its first step. */
  function Started(s: State, question: string): State {
    s.(isStarted := true, notFinished := true, steps := [Question(question)])
  }

  /** Calling `next` once per reply for as long as the session runs and nothing is raised,
      as a driver loop `while agent.not_finished: agent.next()` does; it stops early when
      the replies run out. */
  function Drive(cfg: Config, s: State, replies: seq<Reply>): Transition
    decreases |replies|
  {
    if replies == [] then Transition(s, Done)
    else
      var t := Next(cfg, s, replies[0]);
      if t.outcome.Raised? || !t.after.notFinished then t else Drive(cfg, t.after, replies[1..])
  }

  lemma DriveContinues(cfg: Config, s: State, replies: seq<Reply>)
    requires replies != []
    requires Next(cfg, s, replies[0]).outcome == Done && Next(cfg, s, replies[0]).after.notFinished
    ensures Drive(cfg, s, replies) == Drive(cfg, Next(cfg, s, replies[0]).after, replies[1..])
  {
  }

  lemma DriveStops(cfg: Config, s: State, replies: seq<Reply>)
    requires replies != []
    requires Next(cfg, s, replies[0]).outcome.Raised? || !Next(cfg, s, replies[0]).after.notFinished
    ensures Drive(cfg, s, replies) == Next(cfg, s, replies[0])
  {
  }

  /** A reply that names a registered tool, which then returns normally. */
  predicate ActsWithTool(cfg: Config, reply: Reply) {
    var r := Decide(cfg.decode, reply.content);
    r.Ok? && !r.value.IsFinalAnswer() && Act(cfg.tools, r.value.action, r.value.actionInput).Ok?
  }

  lemma PairedExtend(steps: seq<Record>, t: Record, o: Record)
    requires Paired(steps) && t.Thought? && o.Observation?
    ensures Paired(steps + [t, o])
  {
  }

  /** One tool step of a paired session within budget: the pair is added, and the session
      stops, with KeyError and "max_steps_reached", exactly when the budget is now used up. */
  lemma ToolStepKeepsPaired(cfg: Config, s: State, reply: Reply, k: nat)
    requires Running(s) && Paired(s.steps) && |s.steps| == 2 * k + 1 && k < cfg.maxSteps
    requires ActsWithTool(cfg, reply)
    ensures var t := Next(cfg, s, reply);
            Paired(t.after.steps) && |t.after.steps| == 2 * k + 3
            && t.after.steps[..|s.steps|] == s.steps
            && t.after.responses == s.responses + [reply.usage]
            && t.after.isStarted && t.after.endTimeSet == s.endTimeSet
            && (t.after.notFinished <==> k + 1 < cfg.maxSteps)
            && (t.after.notFinished ==> t.outcome == Done)
            && (!t.after.notFinished ==> t.outcome == Raised(KeyError(Str("action_input")))
                                         && t.after.finishReason == Some(MaxStepsReached))
  {
    var d := Decide(cfg.decode, reply.content).value;
    var obs := Act(cfg.tools, d.action, d.actionInput).value;
    ToolStepAppendsPair(cfg, s, reply, d, obs);
    PairedExtend(s.steps, Thought(d.thought, d.action, d.actionInput), Observation(obs));
    assert Next(cfg, s, reply).after.steps[..|s.steps|] == s.steps;
  }

  /** A reasoner that never gives a final answer runs the session to exactly `max_steps`
      thought/observation pairs; then `finish` labels it "max_steps_reached" and raises
      KeyError, leaving an observation last and no answer. */
  lemma {:induction false} ToolOnlyRunStopsAtBudget(cfg: Config, s: State, replies: seq<Reply>, k: nat)
    requires Running(s) && Paired(s.steps) && |s.steps| == 2 * k + 1 && k < cfg.maxSteps
    requires |replies| >= cfg.maxSteps - k
    requires forall i :: 0 <= i < |replies| ==> ActsWithTool(cfg, replies[i])
    ensures var t := Drive(cfg, s, replies);
            Paired(t.after.steps) && |t.after.steps| == 2 * cfg.maxSteps + 1
            && t.after.steps[..|s.steps|] == s.steps
            && StepsCount(t.after.steps) == cfg.maxSteps as real
            && |t.after.responses| == |s.responses| + cfg.maxSteps - k
            && !t.after.notFinished && t.after.finishReason == Some(MaxStepsReached)
            && t.after.endTimeSet == s.endTimeSet
            && t.outcome == Raised(KeyError(Str("action_input")))
    decreases cfg.maxSteps - k
  {
    ToolStepKeepsPaired(cfg, s, replies[0], k);
    var t := Next(cfg, s, replies[0]);
    if k + 1 < cfg.maxSteps {
      DriveContinues(cfg, s, replies);
      forall i | 0 <= i < |replies[1..]| ensures ActsWithTool(cfg, replies[1..][i]) {
        assert replies[1..][i] == replies[i + 1];
      }
      ToolOnlyRunStopsAtBudget(cfg, t.after, replies[1..], k + 1);
      var u := Drive(cfg, t.after, replies[1..]);
      assert u.after.steps[..|t.after.steps|] == t.after.steps;
      assert u.after.steps[..|s.steps|] == t.after.steps[..|s.steps|];
    } else {
      DriveStops(cfg, s, replies);
    }
  }

  /** From `start` on, a reasoner that only ever calls tools ends the session after exactly
      `max_steps` pairs with "max_steps_reached", a KeyError and no answer. */
  lemma ToolOnlySessionHitsBudget(cfg: Config, s: State, question: string, replies: seq<Reply>)
    requires cfg.maxSteps >= 1 && |replies| >= cfg.maxSteps
    requires forall i :: 0 <= i < |replies| ==> ActsWithTool(cfg, replies[i])
    ensures var t := Drive(cfg, Started(s, question), replies);
            Paired(t.after.steps) && t.after.steps[0] == Question(question)
            && StepsCount(t.after.steps) == cfg.maxSteps as real
            && (forall i :: 0 <= i < |t.after.steps| ==> !t.after.steps[i].Answer?)
            && |t.after.responses| == |s.responses| + cfg.maxSteps
            && !t.after.notFinished && t.after.finishReason == Some(MaxStepsReached)
            && t.outcome == Raised(KeyError(Str("action_input")))
  {
    var s0 := Started(s, question);
    assert Paired(s0.steps) && |s0.steps| == 1;
    ToolOnlyRunStopsAtBudget(cfg, s0, replies, 0);
    var t := Drive(cfg, s0, replies);
    assert t.after.steps[0] == t.after.steps[..1][0];
    PairedHasNoAnswer(t.after.steps);
  }

  /** With a budget of zero or less, `start` still takes its one step: a tool call adds a
      thought and an observation, and only then does the budget test stop the session, so
      `steps_count` ends at 1, above the budget. */
  lemma NoBudgetStillTakesOnePair(cfg: Config, s: State, question: string, replies: seq<Reply>)
    requires cfg.maxSteps <= 0 && replies != [] && ActsWithTool(cfg, replies[0])
    ensures var t := Drive(cfg, Started(s, question), replies);
            var d := Decide(cfg.decode, replies[0].content).value;
            t.after.steps == [Question(question), Thought(d.thought, d.action, d.actionInput),
                              Observation(Act(cfg.tools, d.action, d.actionInput).value)]
            && StepsCount(t.after.steps) == 1.0
            && t.after.responses == s.responses + [replies[0].usage]
            && !t.after.notFinished && t.after.finishReason == Some(MaxStepsReached)
            && t.outcome == Raised(KeyError(Str("action_input")))
  {
    var s0 := Started(s, question);
    var d := Decide(cfg.decode, replies[0].content).value;
    ToolStepAppendsPair(cfg, s0, replies[0], d, Act(cfg.tools, d.action, d.actionInput).value);
    DriveStops(cfg, s0, replies);
  }

  lemma PairedHasNoAnswer(steps: seq<Record>)
    requires Paired(steps)
    ensures forall i :: 0 <= i < |steps| ==> !steps[i].Answer?
  {
  }

  /** A reasoner whose first reply is a final answer ends the session at `start`: question,
      thought, answer, labelled "final answer" as long as the budget is at least one. */
  lemma FirstReplyAnswers(cfg: Config, s: State, question: string, replies: seq<Reply>, d: Decision)
    requires cfg.maxSteps >= 1 && replies != []
    requires Decide(cfg.decode, replies[0].content) == Ok(d) && d.IsFinalAnswer()
    ensures var t := Drive(cfg, Started(s, question), replies);
            t.after.steps == [Question(question), Thought(d.thought, d.action, d.actionInput), Answer(d.actionInput)]
            && t.outcome == Done && !t.after.notFinished && t.after.endTimeSet
            && t.after.finishReason == Some(FinalAnswer)
  {
    FinalAnswerAppendsAnswer(cfg, Started(s, question), replies[0], d);
  }

  // ---------------------------------------------------------------------------------------
  // Concrete sessions with a doubling tool

  /** The question the demo asks. */
  const DemoQuestion: string := "Can you check what is my tool result for the input 'hello'?"

  /** The demo's `tools=[my_tool]` registers exactly `my_tool` under its name. */
  lemma DemoToolsDict(myTool: Tool)
    ensures ToolsDict([NamedTool("my_tool", myTool)]) == map["my_tool" := myTool]
  {
    ToolsDictLaterWins([NamedTool("my_tool", myTool)], 0);
  }

  /** The demo run: `max_steps = 2` and the single tool `my_tool`, which doubles its argument
      (`'hello' * 2`). When the model calls it on "hello" and then on what it returned, the
      second step reaches the budget: the last record is the observation
      "hellohellohellohello", the session is labelled "max_steps_reached", the loop's call
      raises KeyError, and a third reply is never asked for. */
  lemma DemoScenario(cfg: Config, s: State, myTool: Tool, r1: Reply, r2: Reply, r3: Reply,
                     t1: Json, t2: Json)
    requires cfg.maxSteps == 2 && cfg.tools == map["my_tool" := myTool]
    requires myTool(Str("hello")) == Ok(Str("hellohello"))
    requires myTool(Str("hellohello")) == Ok(Str("hellohellohellohello"))
    requires Decide(cfg.decode, r1.content) == Ok(Decision(t1, Str("my_tool"), Str("hello")))
    requires Decide(cfg.decode, r2.content) == Ok(Decision(t2, Str("my_tool"), Str("hellohello")))
    ensures var t := Drive(cfg, Started(s, DemoQuestion), [r1, r2, r3]);
            t.after.steps == [Question(DemoQuestion),
                              Thought(t1, Str("my_tool"), Str("hello")), Observation(Str("hellohello")),
                              Thought(t2, Str("my_tool"), Str("hellohello")),
                              Observation(Str("hellohellohellohello"))]
            && StepsCount(t.after.steps) == 2.0
            && t.after.responses == s.responses + [r1.usage, r2.usage]
            && !t.after.notFinished && t.after.finishReason == Some(MaxStepsReached)
            && t.outcome == Raised(KeyError(Str("action_input")))
  {
    var s0 := Started(s, DemoQuestion);
    var d1 := Decision(t1, Str("my_tool"), Str("hello"));
    var d2 := Decision(t2, Str("my_tool"), Str("hellohello"));
    ToolStepRecords(cfg, s0, r1, d1, Str("hellohello"));
    var a := Next(cfg, s0, r1);
    DriveContinues(cfg, s0, [r1, r2, r3]);
    assert [r1, r2, r3][1..] == [r2, r3];
    ToolStepRecords(cfg, a.after, r2, d2, Str("hellohellohellohello"));
    DriveStops(cfg, a.after, [r2, r3]);
  }

  /** The part of `ToolStepAppendsPair` the concrete runs need: the records a tool step adds
      and whether it stops the session. */
  lemma ToolStepRecords(cfg: Config, s: State, reply: Reply, d: Decision, obs: Json)
    requires Running(s) && Decide(cfg.decode, reply.content) == Ok(d) && !d.IsFinalAnswer()
    requires d.action.Str? && d.action.s in cfg.tools && cfg.tools[d.action.s](d.actionInput) == Ok(obs)
    ensures var t := Next(cfg, s, reply);
            var steps := s.steps + [Thought(d.thought, d.action, d.actionInput), Observation(obs)];
            t.after.steps == steps && t.after.responses == s.responses + [reply.usage]
            && (t.after.notFinished <==> |steps| - 1 < 2 * cfg.maxSteps)
            && (t.after.notFinished ==> t.outcome == Done && t.after.isStarted)
            && (!t.after.notFinished ==> t.outcome == Raised(KeyError(Str("action_input")))
                                         && t.after.finishReason == Some(MaxStepsReached))
  {
    ToolStepAppendsPair(cfg, s, reply, d, obs);
  }

  /** With `max_steps = 5`, one tool call (double 5 gives 10) and then a final answer 10: the
      session ends labelled "final answer" with the answer 10, and `steps_count` reads 2,
      not 1, because the closing thought and answer count as a pair. */
  lemma ToolThenAnswerScenario(cfg: Config, s: State, question: string, r1: Reply, r2: Reply,
                               t1: Json, t2: Json)
    requires cfg.maxSteps == 5 && "double" in cfg.tools && cfg.tools["double"](Int(5)) == Ok(Int(10))
    requires Decide(cfg.decode, r1.content) == Ok(Decision(t1, Str("double"), Int(5)))
    requires Decide(cfg.decode, r2.content) == Ok(Decision(t2, Str(FinalAnswerAction), Int(10)))
    ensures var t := Drive(cfg, Started(s, question), [r1, r2]);
            t.after.steps == [Question(question), Thought(t1, Str("double"), Int(5)), Observation(Int(10)),
                              Thought(t2, Str(FinalAnswerAction), Int(10)), Answer(Int(10))]
            && StepsCount(t.after.steps) == 2.0
            && t.outcome == Done && !t.after.notFinished
            && t.after.finishReason == Some(FinalAnswer)
  {
    var s0 := Started(s, question);
    ToolStepRecords(cfg, s0, r1, Decision(t1, Str("double"), Int(5)), Int(10));
    var a := Next(cfg, s0, r1);
    DriveContinues(cfg, s0, [r1, r2]);
    assert [r1, r2][1..] == [r2];
    assert a.after.steps == [Question(question), Thought(t1, Str("double"), Int(5)), Observation(Int(10))];
    assert Running(a.after);
    FinalAnswerAppendsAnswer(cfg, a.after, r2, Decision(t2, Str(FinalAnswerAction), Int(10)));
    var b := Next(cfg, a.after, r2);
    assert |b.after.steps| == 5;
    DriveStops(cfg, a.after, [r2]);
  }

  /** After a step that named an unknown tool, the dangling thought shifts the count by a
      half: with `max_steps = 1`, a final answer on the next call is labelled
      "max_steps_reached" although the answer is recorded. */
  lemma UnknownToolThenAnswerScenario(cfg: Config, s: State, question: string, r1: Reply, r2: Reply,
                                      name: string, t1: Json, t2: Json, v: Json)
    requires cfg.maxSteps == 1 && name !in cfg.tools && name != FinalAnswerAction
    requires Decide(cfg.decode, r1.content) == Ok(Decision(t1, Str(name), v))
    requires Decide(cfg.decode, r2.content) == Ok(Decision(t2, Str(FinalAnswerAction), v))
    ensures var first := Start(cfg, s, question, r1);
            var second := Next(cfg, first.after, r2);
            first.outcome == Raised(KeyError(Str(name))) && Running(first.after)
            && second.after.steps == [Question(question), Thought(t1, Str(name), v),
                                      Thought(t2, Str(FinalAnswerAction), v), Answer(v)]
            && second.outcome == Done
            && second.after.finishReason == Some(MaxStepsReached)
  {
    var s0 := Started(s, question);
    FailedActionKeepsThought(cfg, s0, r1, Decision(t1, Str(name), v));
    var first := Start(cfg, s, question, r1);
    assert first == Next(cfg, s0, r1);
    assert first.after.steps == [Question(question), Thought(t1, Str(name), v)];
    assert Running(first.after);
    FinalAnswerAppendsAnswer(cfg, first.after, r2, Decision(t2, Str(FinalAnswerAction), v));
  }
}
