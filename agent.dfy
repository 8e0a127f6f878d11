/** The `React` class of react.py: its fields, updated in place by `start`, `next` and
    `finish`. Each method is proved to move the fields exactly as the matching function of
    module Session says, so every property proved there holds of the class. */
module Agent {
  import opened Values
  import Fences
  import Session

  class React {
    var steps: seq<Session.Record>           // intermediate_steps
    var responses: seq<Session.Usage>        // completion_responses, the usage of each call
    var isStarted: bool
    var notFinished: bool
    var finishReason: Option<Session.FinishReason>
    var endTimeSet: bool                      // end_time is not None
    const maxSteps: int
    const tools: map<string, Session.Tool>    // tools_dict
    const decode: Fences.Decoder              // json.loads

    /** The fields the methods change, as one value. */
    function Snapshot(): Session.State
      reads this
    {
      Session.State(steps, responses, isStarted, notFinished, finishReason, endTimeSet)
    }

    /** The transcript invariant of Session.Consistent, kept by every method. */
    ghost predicate Valid()
      reads this
    {
      Session.Consistent(Snapshot())
    }

    /** What the session was built with. */
    function Cfg(): Session.Config {
      Session.Config(maxSteps, tools, decode)
    }

    /** `__init__`: nothing started, the flag `not_finished` already true, tools keyed by
        name with later duplicates overwriting earlier ones. */
    constructor (decode: Fences.Decoder, toolList: seq<Session.NamedTool>,
                 maxSteps: int := Session.DefaultMaxSteps)
      ensures Snapshot() == Session.Initial && Valid()
      ensures Cfg() == Session.Config(maxSteps, Session.ToolsDict(toolList), decode)
    {
      steps := [];
      responses := [];
      isStarted := false;
      notFinished := true;
      finishReason := None;
      endTimeSet := false;
      this.maxSteps := maxSteps;
      this.tools := Session.ToolsDict(toolList);
      this.decode := decode;
    }

    /** `last`, as Session.Last states it of the transcript field. */
    function Last(): (r: Option<Session.Record>)
      reads this
      ensures r == Session.Last(steps)
    {
      Session.Last(steps)
    }

    /** `is_max_steps_reached`, as Session.IsMaxStepsReached states it of the fields. */
    predicate IsMaxStepsReached()
      reads this
      ensures IsMaxStepsReached() == Session.IsMaxStepsReached(steps, maxSteps)
    {
      Session.IsMaxStepsReached(steps, maxSteps)
    }

    /** `token_usage`: add the three counters of every logged response, in order. */
    method TokenUsage() returns (usage: Session.Usage)
      ensures usage == Session.SumUsage(responses)
    {
      usage := Session.NoUsage;
      var i := 0;
      while i < |responses|
        invariant 0 <= i <= |responses|
        invariant usage == Session.SumUsage(responses[..i])
      {
        var res := responses[i];
        usage := Session.Usage(usage.promptTokens + res.promptTokens,
                               usage.completionTokens + res.completionTokens,
                               usage.totalTokens + res.totalTokens);
        assert responses[..i + 1][..i] == responses[..i];
        i := i + 1;
      }
      assert responses[..i] == responses;
    }

    /** `add_step` */
    method AddStep(step: Session.Record)
      modifies this`steps
      ensures steps == old(steps) + [step]
    {
      steps := steps + [step];
    }

    /** `completion`: the model call is the given reply; its usage is logged and its text
        returned. */
    method Completion(reply: Session.Reply) returns (content: string)
      modifies this`responses
      ensures responses == old(responses) + [reply.usage]
      ensures content == reply.content
    {
      responses := responses + [reply.usage];
      content := reply.content;
    }

    /** `reason`: one completion, then `parse_json` and the three field lookups. */
    method Reason(reply: Session.Reply) returns (decision: Result<Session.Decision>)
      modifies this`responses
      ensures responses == old(responses) + [reply.usage]
      ensures decision == Session.Decide(decode, reply.content)
    {
      var content := Completion(reply);
      var parsed := Fences.ParseJson(content, decode);
      if parsed.Err? {
        return Err(parsed.error);
      }
      decision := Session.Extract(parsed.value);
    }

    /** `finish` */
    method Finish() returns (outcome: Outcome)
      modifies this
      ensures Session.Transition(Snapshot(), outcome) == Session.Finish(Cfg(), old(Snapshot()))
      ensures old(Valid()) ==> Valid()
    {
      if Valid() {
        Session.FinishKeepsConsistent(Cfg(), Snapshot());
      }
      notFinished := false;
      finishReason := Some(if !IsMaxStepsReached() then Session.FinalAnswer else Session.MaxStepsReached);
      var last := Last();
      if last.None? {
        return Raised(TypeError);
      }
      if !last.value.Thought? {
        return Raised(KeyError(Str("action_input")));
      }
      AddStep(Session.Answer(last.value.actionInput));
      endTimeSet := true;
      outcome := Done;
    }

    /** `next` */
    method Next(reply: Session.Reply) returns (outcome: Outcome)
      modifies this
      ensures Session.Transition(Snapshot(), outcome) == Session.Next(Cfg(), old(Snapshot()), reply)
      ensures old(Valid()) ==> Valid()
    {
      if Valid() {
        Session.NextKeepsConsistent(Cfg(), Snapshot(), reply);
      }
      if !isStarted {
        return Raised(ValueError(Session.NotStartedMessage));
      }
      if !notFinished {
        return Raised(ValueError(Session.FinishedMessage));
      }
      var decision := Reason(reply);
      if decision.Err? {
        return Raised(decision.error);
      }
      var d := decision.value;
      AddStep(Session.Thought(d.thought, d.action, d.actionInput));
      if d.IsFinalAnswer() {
        outcome := Finish();
      } else {
        var observation := Session.Act(tools, d.action, d.actionInput);
        if observation.Err? {
          return Raised(observation.error);
        }
        AddStep(Session.Observation(observation.value));
        if IsMaxStepsReached() {
          outcome := Finish();
        } else {
          outcome := Done;
        }
      }
    }

    /** `start` */
    method Start(question: string, reply: Session.Reply) returns (outcome: Outcome)
      modifies this
      ensures Session.Transition(Snapshot(), outcome) == Session.Start(Cfg(), old(Snapshot()), question, reply)
      ensures Valid()
    {
      Session.StartKeepsConsistent(Cfg(), Snapshot(), question, reply);
      isStarted := true;
      notFinished := true;
      steps := [];
      AddStep(Session.Question(question));
      assert Snapshot() == Session.Started(old(Snapshot()), question);
      Session.StartedConsistent(old(Snapshot()), question);
      outcome := Next(reply);
    }
  }
}
