/**
 Runs of the hand-off sample. Published messages wait in a multiset and are delivered in any
 order; handlers that have started run interleaved, one queue entry or publication at a time.
 */
module HandoffProtocol {
  import opened Wrappers
  import opened Handoff

  datatype Pending = Task(topic: string, context: Context) | AgentResponse(context: Context)

  /** A started handler: what it will still do, and then whether it awaits the model. */
  datatype Handler =
    | AIHandler(agent: Agent, todo: seq<Effect>, control: Control)
    | UserHandler(todo: seq<Effect>)

  datatype State = State(pending: multiset<Pending>, running: seq<Handler>, log: seq<Item>)

  datatype Step =
    | Start(task: Pending)
    | Answer(i: nat, stream: seq<StreamItem>)
    | Emit(i: nat)
    | Save(response: Pending)

  type Registry = map<string, Agent>

  ghost predicate Waiting(h: Handler) { h.AIHandler? && h.control.Await? }

  ghost predicate Enabled(reg: Registry, s: State, step: Step) {
    match step
    case Start(p) => p in s.pending && p.Task? && p.topic in reg
    case Answer(i, _) => i < |s.running| && Waiting(s.running[i]) && s.running[i].todo == []
    case Emit(i) => i < |s.running| && s.running[i].todo != []
    case Save(p) => p in s.pending && p.AgentResponse?
  }

  ghost function Answered(h: Handler, stream: seq<StreamItem>): Handler
    requires Waiting(h)
  {
    var r := React(h.agent, h.control.context, stream);
    h.(todo := r.effects, control := r.control)
  }

  ghost function Perform(s: State, e: Effect): State {
    match e
    case Put(item) => s.(log := s.log + [item])
    case Delegate(topic, context) => s.(pending := s.pending + multiset{Task(topic, context)})
    case Respond(context) => s.(pending := s.pending + multiset{AgentResponse(context)})
  }

  ghost function Apply(reg: Registry, s: State, step: Step): State
    requires Enabled(reg, s, step)
  {
    match step
    case Start(p) =>
      s.(pending := s.pending - multiset{p}, running := s.running + [AIHandler(reg[p.topic], [], Await(p.context))])
    case Answer(i, stream) => s.(running := s.running[i := Answered(s.running[i], stream)])
    case Emit(i) =>
      var h := s.running[i];
      Perform(s.(running := s.running[i := h.(todo := h.todo[1..])]), h.todo[0])
    case Save(p) =>
      s.(pending := s.pending - multiset{p}, running := s.running + [UserHandler([Put(StreamDone)])])
  }

  /** `steps` is a run from `s` in which every answer of the model satisfies `ok`. */
  ghost predicate Run(reg: Registry, s: State, steps: seq<Step>, ok: (Agent, seq<StreamItem>) -> bool)
    decreases |steps|
  {
    steps == [] ||
    (&& Enabled(reg, s, steps[0])
     && (steps[0].Answer? ==> ok(s.running[steps[0].i].agent, steps[0].stream))
     && Run(reg, Apply(reg, s, steps[0]), steps[1..], ok))
  }

  ghost function After(reg: Registry, s: State, steps: seq<Step>, ok: (Agent, seq<StreamItem>) -> bool): State
    requires Run(reg, s, steps, ok)
    decreases |steps|
  {
    if steps == [] then s else After(reg, Apply(reg, s, steps[0]), steps[1..], ok)
  }

  /** One request: its task has just been published. */
  ghost function Requested(topic: string, context: Context): State {
    State(multiset{Task(topic, context)}, [], [])
  }

  // ----- Token counting -----

  ghost predicate IsToken(e: Effect) { !e.Put? || e.item == StreamDone }

  ghost function TokenCount(effects: seq<Effect>): nat {
    if effects == [] then 0 else (if IsToken(effects[0]) then 1 else 0) + TokenCount(effects[1..])
  }

  ghost function HandlerTokens(h: Handler): nat {
    TokenCount(h.todo) + if Waiting(h) then 1 else 0
  }

  ghost function RunningTokens(hs: seq<Handler>): nat {
    if hs == [] then 0 else HandlerTokens(hs[0]) + RunningTokens(hs[1..])
  }

  ghost function Dones(log: seq<Item>): nat {
    if log == [] then 0 else (if log[0] == StreamDone then 1 else 0) + Dones(log[1..])
  }

  /** Pending messages, work still owed by started handlers, and sentinels already put. */
  ghost function Tokens(s: State): nat {
    |s.pending| + RunningTokens(s.running) + Dones(s.log)
  }

  /** What one answer adds: the publications it causes, and the handler itself if it goes on. */
  ghost function Gain(s: State, step: Step): int
    requires step.Answer? ==> step.i < |s.running| && Waiting(s.running[step.i])
  {
    if step.Answer? then HandlerTokens(Answered(s.running[step.i], step.stream)) - 1 else 0
  }

  ghost function TotalGain(reg: Registry, s: State, steps: seq<Step>, ok: (Agent, seq<StreamItem>) -> bool): int
    requires Run(reg, s, steps, ok)
    decreases |steps|
  {
    if steps == [] then 0
    else Gain(s, steps[0]) + TotalGain(reg, Apply(reg, s, steps[0]), steps[1..], ok)
  }

  lemma {:induction false} TokenCountAppend(a: seq<Effect>, b: seq<Effect>)
    ensures TokenCount(a + b) == TokenCount(a) + TokenCount(b)
  {
    if a == [] {
      assert a + b == b;
    } else {
      assert (a + b)[1..] == a[1..] + b;
      TokenCountAppend(a[1..], b);
    }
  }

  lemma {:induction false} RunningTokensAppend(hs: seq<Handler>, h: Handler)
    ensures RunningTokens(hs + [h]) == RunningTokens(hs) + HandlerTokens(h)
  {
    if hs == [] {
    } else {
      assert (hs + [h])[1..] == hs[1..] + [h];
      RunningTokensAppend(hs[1..], h);
    }
  }

  lemma {:induction false} RunningTokensUpdate(hs: seq<Handler>, i: nat, h: Handler)
    requires i < |hs|
    ensures RunningTokens(hs[i := h]) == RunningTokens(hs) - HandlerTokens(hs[i]) + HandlerTokens(h)
    ensures HandlerTokens(hs[i]) <= RunningTokens(hs)
  {
    if i > 0 {
      assert hs[i := h][1..] == hs[1..][i - 1 := h];
      RunningTokensUpdate(hs[1..], i - 1, h);
    } else {
      assert hs[i := h][1..] == hs[1..];
    }
  }

  lemma {:induction false} DonesAppend(log: seq<Item>, item: Item)
    ensures Dones(log + [item]) == Dones(log) + if item == StreamDone then 1 else 0
  {
    if log == [] {
    } else {
      assert (log + [item])[1..] == log[1..] + [item];
      DonesAppend(log[1..], item);
    }
  }

  lemma TokensStep(reg: Registry, s: State, step: Step)
    requires Enabled(reg, s, step)
    ensures Tokens(Apply(reg, s, step)) == Tokens(s) + Gain(s, step)
  {
    match step
    case Start(p) => RunningTokensAppend(s.running, AIHandler(reg[p.topic], [], Await(p.context)));
    case Save(p) =>
      RunningTokensAppend(s.running, UserHandler([Put(StreamDone)]));
    case Answer(i, stream) => RunningTokensUpdate(s.running, i, Answered(s.running[i], stream));
    case Emit(i) => TokensEmit(reg, s, i);
  }

  lemma PerformTokens(s: State, e: Effect)
    ensures Tokens(Perform(s, e)) == Tokens(s) + if IsToken(e) then 1 else 0
  {
    if e.Put? {
      DonesAppend(s.log, e.item);
    }
  }

  lemma TokensEmit(reg: Registry, s: State, i: nat)
    requires Enabled(reg, s, Emit(i))
    ensures Tokens(Apply(reg, s, Emit(i))) == Tokens(s)
  {
    var h := s.running[i];
    var h' := h.(todo := h.todo[1..]);
    RunningTokensUpdate(s.running, i, h');
    PerformTokens(s.(running := s.running[i := h']), h.todo[0]);
  }

  /** The count changes only at answers, and then by what the answer owes minus one. */
  lemma {:induction false} TokenLaw(reg: Registry, s: State, steps: seq<Step>, ok: (Agent, seq<StreamItem>) -> bool)
    requires Run(reg, s, steps, ok)
    ensures Tokens(After(reg, s, steps, ok)) == Tokens(s) + TotalGain(reg, s, steps, ok)
    decreases |steps|
  {
    if steps == [] {
    } else {
      TokensStep(reg, s, steps[0]);
      TokenLaw(reg, Apply(reg, s, steps[0]), steps[1..], ok);
    }
  }

  // ----- What one answer emits -----

  ghost predicate Quiet(effects: seq<Effect>) {
    forall i :: 0 <= i < |effects| ==> !IsToken(effects[i])
  }

  ghost predicate NoSentinel(effects: seq<Effect>) {
    forall i :: 0 <= i < |effects| ==> effects[i] != Put(StreamDone)
  }

  /** The call is known, its arguments parse and its tool does not raise. */
  predicate Succeeds(a: Agent, call: FunctionCall) {
    && a.parses(call.arguments)
    && (if call.name in a.tools then a.tools[call.name](call.arguments).Some?
        else call.name in a.delegates && a.delegates[call.name](call.arguments).Some?)
  }

  ghost function PlainIds(a: Agent, calls: seq<FunctionCall>): seq<string> {
    if calls == [] then []
    else
      var last := calls[|calls| - 1];
      PlainIds(a, calls[..|calls| - 1]) + if last.name in a.tools then [last.id] else []
  }

  ghost function CallIds(calls: seq<FunctionCall>): seq<string> {
    seq(|calls|, i requires 0 <= i < |calls| => calls[i].id)
  }

  ghost function ResultIds(results: seq<ExecutionResult>): seq<string> {
    seq(|results|, i requires 0 <= i < |results| => results[i].callId)
  }

  /** The results of the plain tool calls, as the tools return them. */
  ghost function PlainResults(a: Agent, calls: seq<FunctionCall>): seq<ExecutionResult>
    requires forall i :: 0 <= i < |calls| ==> Succeeds(a, calls[i])
  {
    if calls == [] then []
    else
      var last := calls[|calls| - 1];
      assert Succeeds(a, last);
      PlainResults(a, calls[..|calls| - 1]) +
      if last.name in a.tools then
        [ExecutionResult(last.id, a.tools[last.name](last.arguments).value, last.name)]
      else []
  }

  /** If nothing raises, the round holds exactly the plain tools' results, in call order. */
  lemma {:induction false} CallsRun(a: Agent, context: Context, calls: seq<FunctionCall>)
    requires forall i :: 0 <= i < |calls| ==> Succeeds(a, calls[i])
    ensures var r := ProcessCalls(a, context, calls); !r.failed && r.results == PlainResults(a, calls)
    decreases |calls|
  {
    if calls == [] {
    } else {
      CallsRun(a, context, calls[..|calls| - 1]);
    }
  }

  ghost predicate IsTransfer(a: Agent, context: Context, calls: seq<FunctionCall>, t: (string, Context)) {
    exists c :: c in calls && c.name in a.delegates && a.delegates[c.name](c.arguments) == Some(t.0) &&
      t.1 == context + Transfer(c, t.0, a.topic)
  }

  lemma {:induction false} CallsQuiet(a: Agent, context: Context, calls: seq<FunctionCall>)
    ensures Quiet(ProcessCalls(a, context, calls).puts)
    decreases |calls|
  {
    if calls == [] {
    } else {
      CallsQuiet(a, context, calls[..|calls| - 1]);
    }
  }

  lemma SucceedsSnoc(a: Agent, front: seq<FunctionCall>, call: FunctionCall)
    ensures (exists i :: 0 <= i < |front + [call]| && !Succeeds(a, (front + [call])[i])) <==>
      (exists i :: 0 <= i < |front| && !Succeeds(a, front[i])) || !Succeeds(a, call)
  {
    var calls := front + [call];
    assert calls[|front|] == call;
    assert forall i :: 0 <= i < |front| ==> calls[i] == front[i];
  }

  lemma {:induction false} CallsOutcome(a: Agent, context: Context, calls: seq<FunctionCall>)
    ensures var r := ProcessCalls(a, context, calls);
      && Quiet(r.puts)
      && (r.failed <==> exists i :: 0 <= i < |calls| && !Succeeds(a, calls[i]))
    decreases |calls|
  {
    CallsQuiet(a, context, calls);
    if calls == [] {
    } else {
      var front, call := calls[..|calls| - 1], calls[|calls| - 1];
      CallsOutcome(a, context, front);
      assert front + [call] == calls;
      SucceedsSnoc(a, front, call);
    }
  }

  lemma {:induction false} CallsAnswered(a: Agent, context: Context, calls: seq<FunctionCall>)
    ensures var r := ProcessCalls(a, context, calls);
      !r.failed ==> |r.results| + |r.targets| == |calls| && ResultIds(r.results) == PlainIds(a, calls)
    decreases |calls|
  {
    if calls == [] {
    } else {
      CallsAnswered(a, context, calls[..|calls| - 1]);
    }
  }

  lemma {:induction false} CallsTransferred(a: Agent, context: Context, calls: seq<FunctionCall>)
    ensures var r := ProcessCalls(a, context, calls);
      forall t :: t in r.targets ==> IsTransfer(a, context, calls, t)
    decreases |calls|
  {
    if calls == [] {
    } else {
      var n := |calls| - 1;
      var front, call := calls[..n], calls[n];
      CallsTransferred(a, context, front);
      var r, r' := ProcessCalls(a, context, front), ProcessCalls(a, context, calls);
      forall t | t in r'.targets ensures IsTransfer(a, context, calls, t) {
        if t in r.targets {
          assert IsTransfer(a, context, front, t);
          assert forall c :: c in front ==> c in calls;
        } else {
          assert call in calls && t.1 == context + Transfer(call, t.0, a.topic);
        }
      }
    }
  }

  lemma {:induction false} ChunksQuiet(stream: seq<StreamItem>)
    ensures Quiet(ChunkPuts(stream))
    decreases |stream|
  {
    if stream == [] {
    } else {
      ChunksQuiet(stream[..|stream| - 1]);
    }
  }

  lemma {:induction false} PublicationsFacts(targets: seq<(string, Context)>)
    ensures NoSentinel(Publications(targets))
    ensures forall e :: e in Publications(targets) && !e.Put? ==>
      e.Delegate? && (e.topic, e.context) in targets
    decreases |targets|
  {
    if targets == [] {
    } else {
      PublicationsFacts(targets[..|targets| - 1]);
    }
  }

  ghost function Delegations(effects: seq<Effect>): nat {
    if effects == [] then 0 else (if effects[0].Delegate? then 1 else 0) + Delegations(effects[1..])
  }

  ghost function Responses(effects: seq<Effect>): nat {
    if effects == [] then 0 else (if effects[0].Respond? then 1 else 0) + Responses(effects[1..])
  }

  lemma {:induction false} TokensArePublications(effects: seq<Effect>)
    requires NoSentinel(effects)
    ensures TokenCount(effects) == Delegations(effects) + Responses(effects)
    ensures Quiet(effects) ==> TokenCount(effects) == 0
    decreases |effects|
  {
    if effects == [] {
    } else {
      assert effects[0] != Put(StreamDone);
      assert Quiet(effects) ==> !IsToken(effects[0]);
      TokensArePublications(effects[1..]);
    }
  }

  lemma ReactFacts(a: Agent, context: Context, stream: seq<StreamItem>)
    ensures NoSentinel(React(a, context, stream).effects)
  {
    ChunksQuiet(stream);
    var f := FinalResponse(stream);
    if f.Some? && f.value.Calls? {
      CallsOutcome(a, context, f.value.calls);
      PublicationsFacts(ProcessCalls(a, context, f.value.calls).targets);
    }
  }

  /** The gains of all answers consumed by one handling of a task. */
  ghost function TaskGain(a: Agent, context: Context, streams: seq<seq<StreamItem>>): int
    decreases |streams|
  {
    if streams == [] then 0
    else
      var r := React(a, context, streams[0]);
      HandlerTokens(AIHandler(a, r.effects, r.control)) - 1 +
      if r.control.Stop? then 0 else TaskGain(a, r.control.context, streams[1..])
  }

  /** One handling's gain is its delegations and final responses, less one once it has ended. */
  lemma {:induction false} TaskGainCounts(a: Agent, context: Context, streams: seq<seq<StreamItem>>)
    ensures NoSentinel(Drive(a, context, streams).effects)
    ensures var d := Drive(a, context, streams);
      TaskGain(a, context, streams) ==
        Delegations(d.effects) + Responses(d.effects) + (if d.control.Stop? then -1 else 0)
    decreases |streams|
  {
    if streams == [] {
    } else {
      var r := React(a, context, streams[0]);
      ReactFacts(a, context, streams[0]);
      TokensArePublications(r.effects);
      if r.control.Await? {
        TaskGainCounts(a, r.control.context, streams[1..]);
        var rest := Drive(a, r.control.context, streams[1..]);
        TokensArePublications(rest.effects);
        TokenCountAppend(r.effects, rest.effects);
        TokensArePublications(r.effects + rest.effects);
      }
    }
  }

  // ----- One handling of a task inside a run -----

  ghost predicate AnswersHandler(step: Step, i: nat) { step.Answer? && step.i == i }

  /** The model streams that handler `i` is answered with. */
  ghost function AnswersTo(i: nat, steps: seq<Step>): seq<seq<StreamItem>> {
    if steps == [] then []
    else (if AnswersHandler(steps[0], i) then [steps[0].stream] else []) + AnswersTo(i, steps[1..])
  }

  /** What the answers to handler `i` add to the count (`own`), or what all other answers add. */
  ghost function GainFrom(
      reg: Registry, s: State, steps: seq<Step>, ok: (Agent, seq<StreamItem>) -> bool, i: nat, own: bool): int
    requires Run(reg, s, steps, ok)
    decreases |steps|
  {
    if steps == [] then 0
    else
      (if AnswersHandler(steps[0], i) == own then Gain(s, steps[0]) else 0) +
      GainFrom(reg, Apply(reg, s, steps[0]), steps[1..], ok, i, own)
  }

  lemma {:induction false} GainsSplit(
      reg: Registry, s: State, steps: seq<Step>, ok: (Agent, seq<StreamItem>) -> bool, i: nat)
    requires Run(reg, s, steps, ok)
    ensures TotalGain(reg, s, steps, ok) == GainFrom(reg, s, steps, ok, i, true) + GainFrom(reg, s, steps, ok, i, false)
    decreases |steps|
  {
    if steps == [] {
    } else {
      GainsSplit(reg, Apply(reg, s, steps[0]), steps[1..], ok, i);
    }
  }

  /** Only its own answers change what a handler awaits. */
  lemma OtherStepsKeepControl(reg: Registry, s: State, step: Step, i: nat)
    requires Enabled(reg, s, step) && i < |s.running| && s.running[i].AIHandler? && !AnswersHandler(step, i)
    ensures var s' := Apply(reg, s, step);
      && i < |s'.running| && s'.running[i].AIHandler?
      && s'.running[i].agent == s.running[i].agent && s'.running[i].control == s.running[i].control
  {
  }

  /** In any run handler `i` does what `Drive` says for the answers it gets, and these gain what that task gains. */
  lemma {:induction false} HandlerDrives(
      reg: Registry, s: State, steps: seq<Step>, ok: (Agent, seq<StreamItem>) -> bool, i: nat)
    requires Run(reg, s, steps, ok) && i < |s.running| && s.running[i].AIHandler?
    ensures var h, answers, end := s.running[i], AnswersTo(i, steps), After(reg, s, steps, ok);
      && i < |end.running| && end.running[i].AIHandler?
      && end.running[i].control == (if Waiting(h) then Drive(h.agent, h.control.context, answers).control else Stop)
      && GainFrom(reg, s, steps, ok, i, true) ==
           (if Waiting(h) then TaskGain(h.agent, h.control.context, answers) else 0)
    decreases |steps|
  {
    if steps == [] {
    } else {
      var h, s', rest := s.running[i], Apply(reg, s, steps[0]), AnswersTo(i, steps[1..]);
      if AnswersHandler(steps[0], i) {
        assert s'.running[i] == Answered(h, steps[0].stream);
        assert ([steps[0].stream] + rest)[1..] == rest;
      } else {
        OtherStepsKeepControl(reg, s, steps[0], i);
        assert [] + rest == rest;
      }
      HandlerDrives(reg, s', steps[1..], ok, i);
    }
  }

  /**
   In any run from a state where handler `i` awaits the model, that handler's d delegations and r
   final responses change the token count by d + r, less one once it has ended; everything else
   that changes the count is the gains of answers to other handlers.
   */
  lemma HandledTaskGain(reg: Registry, s: State, steps: seq<Step>, ok: (Agent, seq<StreamItem>) -> bool, i: nat)
    requires Run(reg, s, steps, ok) && i < |s.running| && Waiting(s.running[i])
    ensures var h, end := s.running[i], After(reg, s, steps, ok);
      var done := Drive(h.agent, h.control.context, AnswersTo(i, steps));
      && i < |end.running| && end.running[i].AIHandler? && end.running[i].control == done.control
      && Tokens(end) == Tokens(s) + Delegations(done.effects) + Responses(done.effects)
                        + (if done.control.Stop? then -1 else 0) + GainFrom(reg, s, steps, ok, i, false)
  {
    var h := s.running[i];
    TokenLaw(reg, s, steps, ok);
    GainsSplit(reg, s, steps, ok, i);
    HandlerDrives(reg, s, steps, ok, i);
    TaskGainCounts(h.agent, h.control.context, AnswersTo(i, steps));
  }
}
