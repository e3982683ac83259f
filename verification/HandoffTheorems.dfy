/** What every run of the hand-off sample keeps: one token, one sentinel, paired contexts. */
module HandoffTheorems {
  import opened Wrappers
  import opened Handoff
  import opened HandoffProtocol

  // ----- One token, one sentinel -----

  /** Every call is a plain tool call. */
  predicate AllPlain(a: Agent, calls: seq<FunctionCall>) {
    forall i :: 0 <= i < |calls| ==> calls[i].name in a.tools
  }

  /** No call is a plain tool call. */
  predicate NonePlain(a: Agent, calls: seq<FunctionCall>) {
    forall i :: 0 <= i < |calls| ==> calls[i].name !in a.tools
  }

  /** Text, a non-empty list of plain tool calls, or exactly one delegate call; all succeed. */
  predicate GoodAnswer(a: Agent, stream: seq<StreamItem>) {
    match FinalResponse(stream)
    case None => false
    case Some(Text(_)) => true
    case Some(Calls(calls)) =>
      && calls != []
      && (forall i :: 0 <= i < |calls| ==> Succeeds(a, calls[i]))
      && (AllPlain(a, calls)
          || (|calls| == 1 && calls[0].name !in a.tools))
  }

  /** A waiting handler owes nothing else; a stopping one publishes once, at the very end. */
  ghost predicate Shaped(h: Handler) {
    if Waiting(h) then Quiet(h.todo)
    else h.todo == [] || (Quiet(h.todo[..|h.todo| - 1]) && IsToken(h.todo[|h.todo| - 1]))
  }

  ghost predicate AllShaped(hs: seq<Handler>) { forall i :: 0 <= i < |hs| ==> Shaped(hs[i]) }

  ghost predicate OneToken(s: State) {
    && Tokens(s) == 1
    && AllShaped(s.running)
    && (forall i :: 0 <= i < |s.log| - 1 ==> s.log[i] != StreamDone)
  }

  lemma ShapedTokens(h: Handler)
    requires Shaped(h)
    ensures HandlerTokens(h) <= 1
    ensures HandlerTokens(h) == 0 <==> !Waiting(h) && h.todo == []
  {
    if Waiting(h) {
      TokensArePublications(h.todo);
    } else if h.todo != [] {
      var n := |h.todo| - 1;
      assert h.todo == h.todo[..n] + [h.todo[n]];
      TokensArePublications(h.todo[..n]);
      TokenCountAppend(h.todo[..n], [h.todo[n]]);
    }
  }

  lemma {:induction false} PlainIdsAll(a: Agent, calls: seq<FunctionCall>)
    requires AllPlain(a, calls)
    ensures PlainIds(a, calls) == CallIds(calls)
    decreases |calls|
  {
    if calls == [] {
    } else {
      PlainIdsAll(a, calls[..|calls| - 1]);
    }
  }

  /** Plain calls only: the handler goes on and publishes nothing. */
  lemma PlainRound(a: Agent, context: Context, calls: seq<FunctionCall>)
    requires calls != [] && (forall i :: 0 <= i < |calls| ==> Succeeds(a, calls[i]))
    requires AllPlain(a, calls)
    ensures var round := ProcessCalls(a, context, calls);
      !round.failed && Quiet(round.puts) && round.results != [] && round.targets == []
  {
    CallsOutcome(a, context, calls);
    CallsAnswered(a, context, calls);
    PlainIdsAll(a, calls);
    assert |ResultIds(ProcessCalls(a, context, calls).results)| == |CallIds(calls)|;
  }

  lemma ProcessOne(a: Agent, context: Context, call: FunctionCall)
    ensures ProcessCalls(a, context, [call]) == ProcessCall(a, context, Round([], [], [], false), call)
  {
    assert [call][..0] == [];
    assert ProcessCalls(a, context, []) == Round([], [], [], false);
  }

  lemma PublishOne(t: (string, Context))
    ensures Publications([t]) == [Put(Dict("function", "You are now talking to " + t.0)), Delegate(t.0, t.1)]
  {
    assert [t][..0] == [];
    assert Publications([]) == [];
  }

  /** One delegate call: the handler stops after one publication. */
  lemma DelegateRound(a: Agent, context: Context, call: FunctionCall)
    requires Succeeds(a, call) && call.name !in a.tools
    ensures var round := ProcessCalls(a, context, [call]);
      !round.failed && Quiet(round.puts) && round.results == [] && |round.targets| == 1
  {
    CallsQuiet(a, context, [call]);
    ProcessOne(a, context, call);
  }

  /** The handler owes exactly one token, at the very end. */
  ghost predicate OwesOne(h: Handler) { Shaped(h) && HandlerTokens(h) == 1 }

  lemma QuietThenToken(a: Agent, quiet: seq<Effect>, e: Effect)
    requires Quiet(quiet) && IsToken(e)
    ensures OwesOne(AIHandler(a, quiet + [e], Stop))
  {
    assert (quiet + [e])[..|quiet|] == quiet;
    ShapedTokens(AIHandler(a, quiet + [e], Stop));
  }

  lemma QuietWaits(a: Agent, quiet: seq<Effect>, context: Context)
    requires Quiet(quiet)
    ensures OwesOne(AIHandler(a, quiet, Await(context)))
  {
    ShapedTokens(AIHandler(a, quiet, Await(context)));
  }

  lemma PlainCallsShaped(a: Agent, context: Context, stream: seq<StreamItem>, calls: seq<FunctionCall>)
    requires FinalResponse(stream) == Some(Calls(calls)) && Quiet(ChunkPuts(stream)) && calls != []
    requires forall i :: 0 <= i < |calls| ==> Succeeds(a, calls[i])
    requires AllPlain(a, calls)
    ensures var r := React(a, context, stream); OwesOne(AIHandler(a, r.effects, r.control))
  {
    PlainRound(a, context, calls);
    var r := React(a, context, stream);
    assert r.effects == ChunkPuts(stream) + ProcessCalls(a, context, calls).puts;
    QuietWaits(a, r.effects, r.control.context);
  }

  lemma DelegateCallShaped(a: Agent, context: Context, stream: seq<StreamItem>, call: FunctionCall)
    requires FinalResponse(stream) == Some(Calls([call])) && Quiet(ChunkPuts(stream))
    requires Succeeds(a, call) && call.name !in a.tools
    ensures var r := React(a, context, stream); OwesOne(AIHandler(a, r.effects, r.control))
  {
    DelegateRound(a, context, call);
    var round := ProcessCalls(a, context, [call]);
    var t := round.targets[0];
    PublishOne(t);
    assert round.targets == [t];
    var quiet := ChunkPuts(stream) + round.puts + [Put(Dict("function", "You are now talking to " + t.0))];
    assert React(a, context, stream) == Reaction(quiet + [Delegate(t.0, t.1)], Stop);
    QuietThenToken(a, quiet, Delegate(t.0, t.1));
  }

  lemma GoodAnswerShaped(a: Agent, context: Context, stream: seq<StreamItem>)
    requires GoodAnswer(a, stream)
    ensures var r := React(a, context, stream); OwesOne(AIHandler(a, r.effects, r.control))
  {
    ChunksQuiet(stream);
    match FinalResponse(stream).value
    case Text(text) =>
      QuietThenToken(a, ChunkPuts(stream), Respond(context + [AssistantText(text, a.topic)]));
    case Calls(calls) =>
      if AllPlain(a, calls) {
        PlainCallsShaped(a, context, stream, calls);
      } else {
        assert calls == [calls[0]];
        DelegateCallShaped(a, context, stream, calls[0]);
      }
  }

  lemma {:induction false} DonesZero(log: seq<Item>)
    requires Dones(log) == 0
    ensures StreamDone !in log
  {
    if log == [] {
    } else {
      DonesZero(log[1..]);
    }
  }

  lemma ShapedTail(h: Handler)
    requires Shaped(h) && h.todo != []
    ensures Shaped(h.(todo := h.todo[1..]))
  {
    var h' := h.(todo := h.todo[1..]);
    if !Waiting(h) && h'.todo != [] {
      assert h'.todo[..|h'.todo| - 1] == h.todo[..|h.todo| - 1][1..];
    }
  }

  lemma OneTokenEmit(reg: Registry, s: State, i: nat)
    requires OneToken(s) && Enabled(reg, s, Emit(i))
    ensures OneToken(Apply(reg, s, Emit(i)))
  {
    var s', h := Apply(reg, s, Emit(i)), s.running[i];
    TokensStep(reg, s, Emit(i));
    ShapedTail(h);
    assert StreamDone !in s.log by {
      ShapedTokens(h);
      RunningTokensUpdate(s.running, i, h);
      DonesZero(s.log);
    }
    assert forall j :: 0 <= j < |s'.log| - 1 ==> s'.log[j] in s.log;
    assert s'.running == s.running[i := h.(todo := h.todo[1..])];
  }

  lemma ShapedStarted(hs: seq<Handler>, h: Handler)
    requires Shaped(h) && AllShaped(hs)
    ensures AllShaped(hs + [h])
  {
  }

  lemma ShapedReplaced(hs: seq<Handler>, i: nat, h: Handler)
    requires i < |hs| && Shaped(h) && AllShaped(hs)
    ensures AllShaped(hs[i := h])
  {
  }

  lemma OneTokenStep(reg: Registry, s: State, step: Step)
    requires OneToken(s) && Enabled(reg, s, step)
    requires step.Answer? ==> GoodAnswer(s.running[step.i].agent, step.stream)
    ensures OneToken(Apply(reg, s, step))
  {
    TokensStep(reg, s, step);
    match step
    case Start(p) => ShapedStarted(s.running, AIHandler(reg[p.topic], [], Await(p.context)));
    case Save(_) => ShapedStarted(s.running, UserHandler([Put(StreamDone)]));
    case Answer(i, stream) =>
      GoodAnswerShaped(s.running[i].agent, s.running[i].control.context, stream);
      ShapedReplaced(s.running, i, Answered(s.running[i], stream));
    case Emit(i) => OneTokenEmit(reg, s, i);
  }

  lemma {:induction false} OneTokenRun(reg: Registry, s: State, steps: seq<Step>)
    requires OneToken(s) && Run(reg, s, steps, GoodAnswer)
    ensures OneToken(After(reg, s, steps, GoodAnswer))
    decreases |steps|
  {
    if steps == [] {
    } else {
      OneTokenStep(reg, s, steps[0]);
      OneTokenRun(reg, Apply(reg, s, steps[0]), steps[1..]);
    }
  }

  lemma {:induction false} NothingOwed(hs: seq<Handler>)
    requires RunningTokens(hs) == 0 && AllShaped(hs)
    ensures forall i :: 0 <= i < |hs| ==> !Waiting(hs[i]) && hs[i].todo == []
  {
    if hs == [] {
    } else {
      ShapedTokens(hs[0]);
      NothingOwed(hs[1..]);
    }
  }

  lemma {:induction false} DonesPositive(log: seq<Item>)
    requires StreamDone in log
    ensures Dones(log) > 0
  {
    if log[0] != StreamDone {
      DonesPositive(log[1..]);
    }
  }

  /**
   One request in flight: in every reachable state there is exactly one token, and once the
   sentinel is on the queue it is the last entry and nothing can happen any more.
   */
  lemma OneSentinel(reg: Registry, topic: string, context: Context, steps: seq<Step>)
    requires Run(reg, Requested(topic, context), steps, GoodAnswer)
    ensures var s := After(reg, Requested(topic, context), steps, GoodAnswer);
      && Tokens(s) == 1
      && (StreamDone in s.log ==>
            && s.log[|s.log| - 1] == StreamDone
            && StreamDone !in s.log[..|s.log| - 1]
            && forall step :: !Enabled(reg, s, step))
  {
    OneTokenRun(reg, Requested(topic, context), steps);
    var s := After(reg, Requested(topic, context), steps, GoodAnswer);
    if StreamDone in s.log {
      DonesPositive(s.log);
      NothingOwed(s.running);
      assert s.pending == multiset{};
    }
  }

  // ----- The consumer -----

  predicate IsError(item: Item) { item.Raw? && "ERROR:" <= item.text }

  /** `response_stream`: yields queue entries until the sentinel or an error string. */
  method ResponseStream(queue: seq<Item>) returns (yielded: seq<Item>, stopped: bool)
    ensures yielded <= queue
    ensures forall i :: 0 <= i < |yielded| ==> yielded[i] != StreamDone && !IsError(yielded[i])
    ensures stopped <==> |yielded| < |queue|
    ensures stopped ==> queue[|yielded|] == StreamDone || IsError(queue[|yielded|])
  {
    yielded := [];
    var k := 0;
    while k < |queue|
      invariant 0 <= k <= |queue| && yielded == queue[..k]
      invariant forall i :: 0 <= i < k ==> queue[i] != StreamDone && !IsError(queue[i])
    {
      var item := queue[k];
      if item == StreamDone {
        return yielded, true;
      } else if IsError(item) {
        return yielded, true;
      } else {
        yielded := yielded + [item];
      }
      k := k + 1;
    }
    stopped := false;
  }

  ghost predicate OnlyDicts(s: State) {
    && (forall i :: 0 <= i < |s.log| ==> !s.log[i].Raw?)
    && (forall i :: 0 <= i < |s.running| ==> NoRaw(s.running[i].todo))
  }

  ghost predicate NoRaw(effects: seq<Effect>) {
    forall i :: 0 <= i < |effects| ==> effects[i].Put? ==> !effects[i].item.Raw?
  }

  lemma {:induction false} ChunksNoRaw(stream: seq<StreamItem>)
    ensures NoRaw(ChunkPuts(stream))
    decreases |stream|
  {
    if stream == [] {
    } else {
      ChunksNoRaw(stream[..|stream| - 1]);
    }
  }

  lemma {:induction false} CallsNoRaw(a: Agent, context: Context, calls: seq<FunctionCall>)
    ensures NoRaw(ProcessCalls(a, context, calls).puts)
    decreases |calls|
  {
    if calls == [] {
    } else {
      CallsNoRaw(a, context, calls[..|calls| - 1]);
    }
  }

  lemma {:induction false} PublicationsNoRaw(targets: seq<(string, Context)>)
    ensures NoRaw(Publications(targets))
    decreases |targets|
  {
    if targets == [] {
    } else {
      PublicationsNoRaw(targets[..|targets| - 1]);
    }
  }

  lemma ReactNoRaw(a: Agent, context: Context, stream: seq<StreamItem>)
    ensures NoRaw(React(a, context, stream).effects)
  {
    ChunksNoRaw(stream);
    var f := FinalResponse(stream);
    if f.Some? && f.value.Calls? {
      CallsNoRaw(a, context, f.value.calls);
      PublicationsNoRaw(ProcessCalls(a, context, f.value.calls).targets);
    }
  }

  lemma OnlyDictsStep(reg: Registry, s: State, step: Step)
    requires OnlyDicts(s) && Enabled(reg, s, step)
    ensures OnlyDicts(Apply(reg, s, step))
  {
    match step
    case Start(_) => assert NoRaw([]);
    case Save(_) => assert NoRaw([Put(StreamDone)]);
    case Answer(i, stream) => ReactNoRaw(s.running[i].agent, s.running[i].control.context, stream);
    case Emit(i) =>
      var h := s.running[i];
      assert NoRaw(h.todo) && NoRaw(h.todo[1..]);
  }

  lemma {:induction false} OnlyDictsRun(
      reg: Registry, s: State, steps: seq<Step>, ok: (Agent, seq<StreamItem>) -> bool)
    requires OnlyDicts(s) && Run(reg, s, steps, ok)
    ensures OnlyDicts(After(reg, s, steps, ok))
    decreases |steps|
  {
    if steps == [] {
    } else {
      OnlyDictsStep(reg, s, steps[0]);
      OnlyDictsRun(reg, Apply(reg, s, steps[0]), steps[1..], ok);
    }
  }

  /** When the run has put the sentinel, the consumer has yielded every other entry, and stops. */
  lemma ConsumerSeesWholeRun(
      reg: Registry, topic: string, context: Context, steps: seq<Step>, yielded: seq<Item>)
    requires Run(reg, Requested(topic, context), steps, GoodAnswer)
    requires var log := After(reg, Requested(topic, context), steps, GoodAnswer).log;
      && yielded < log
      && (forall i :: 0 <= i < |yielded| ==> yielded[i] != StreamDone && !IsError(yielded[i]))
      && (log[|yielded|] == StreamDone || IsError(log[|yielded|]))
    ensures After(reg, Requested(topic, context), steps, GoodAnswer).log == yielded + [StreamDone]
  {
    OneSentinel(reg, topic, context, steps);
    OnlyDictsRun(reg, Requested(topic, context), steps, GoodAnswer);
    YieldedThenSentinel(After(reg, Requested(topic, context), steps, GoodAnswer).log, yielded);
  }

  lemma YieldedThenSentinel(log: seq<Item>, yielded: seq<Item>)
    requires yielded < log && log[|yielded|] == StreamDone
    requires forall i :: 0 <= i < |log| - 1 ==> log[i] != StreamDone
    ensures log == yielded + [StreamDone]
  {
    assert |yielded| == |log| - 1;
  }

  // ----- Which answers keep the token -----

  lemma {:induction false} PublicationTokens(targets: seq<(string, Context)>)
    ensures TokenCount(Publications(targets)) == |targets|
    decreases |targets|
  {
    if targets == [] {
    } else {
      var last := targets[|targets| - 1];
      PublicationTokens(targets[..|targets| - 1]);
      var pair := [Put(Dict("function", "You are now talking to " + last.0)), Delegate(last.0, last.1)];
      TokenCountAppend(Publications(targets[..|targets| - 1]), pair);
      assert TokenCount(pair) == TokenCount(pair[1..]) == 1 + TokenCount(pair[1..][1..]);
    }
  }

  lemma PlainSnoc(a: Agent, front: seq<FunctionCall>, call: FunctionCall)
    ensures AllPlain(a, front + [call]) <==> AllPlain(a, front) && call.name in a.tools
    ensures NonePlain(a, front + [call]) <==> NonePlain(a, front) && call.name !in a.tools
  {
    var calls := front + [call];
    assert calls[|front|] == call && forall i :: 0 <= i < |front| ==> front[i] == calls[i];
  }

  lemma {:induction false} PlainIdsCount(a: Agent, calls: seq<FunctionCall>)
    ensures |PlainIds(a, calls)| <= |calls|
    ensures |PlainIds(a, calls)| == |calls| <==> AllPlain(a, calls)
    ensures |PlainIds(a, calls)| == 0 <==> NonePlain(a, calls)
    decreases |calls|
  {
    if calls == [] {
    } else {
      var front, call := calls[..|calls| - 1], calls[|calls| - 1];
      PlainIdsCount(a, front);
      PlainSnoc(a, front, call);
      assert front + [call] == calls;
    }
  }

  /** An answer hands on exactly one token if and only if it is good. */
  lemma KeepsTokenExactlyWhenGood(a: Agent, context: Context, stream: seq<StreamItem>)
    ensures var r := React(a, context, stream);
      HandlerTokens(AIHandler(a, r.effects, r.control)) == 1 <==> GoodAnswer(a, stream)
  {
    if GoodAnswer(a, stream) {
      GoodAnswerShaped(a, context, stream);
    } else {
      ChunksQuiet(stream);
      TokensArePublications(ChunkPuts(stream));
      if FinalResponse(stream).Some? {
        var calls := FinalResponse(stream).value.calls;
        var round := ProcessCalls(a, context, calls);
        CallsOutcome(a, context, calls);
        CallsAnswered(a, context, calls);
        PlainIdsCount(a, calls);
        PublicationTokens(round.targets);
        TokensArePublications(round.puts);
        TokenCountAppend(round.puts, Publications(round.targets));
        TokenCountAppend(ChunkPuts(stream), CallsReaction(a, context, calls).effects);
        assert round.failed || |round.results| == |PlainIds(a, calls)|;
      }
    }
  }

  // ----- A run is never stuck before the sentinel -----

  ghost predicate Closed(reg: Registry) {
    forall t, name, args: string :: t in reg && name in reg[t].delegates ==>
      reg[t].delegates[name](args).Some? ==> reg[t].delegates[name](args).value in reg
  }

  ghost predicate Registered(reg: Registry, effects: seq<Effect>) {
    forall i :: 0 <= i < |effects| ==> effects[i].Delegate? ==> effects[i].topic in reg
  }

  ghost predicate KnownHandler(reg: Registry, h: Handler) {
    Registered(reg, h.todo) && (h.AIHandler? ==> exists t :: t in reg && reg[t] == h.agent)
  }

  ghost predicate Reachable(reg: Registry, s: State) {
    && (forall p :: p in s.pending ==> p.Task? ==> p.topic in reg)
    && (forall i :: 0 <= i < |s.running| ==> KnownHandler(reg, s.running[i]))
  }

  lemma ReactRegistered(reg: Registry, t: string, context: Context, stream: seq<StreamItem>)
    requires Closed(reg) && t in reg
    ensures Registered(reg, React(reg[t], context, stream).effects)
  {
    var a := reg[t];
    ChunksQuiet(stream);
    var f := FinalResponse(stream);
    if f.Some? && f.value.Calls? {
      var round := ProcessCalls(a, context, f.value.calls);
      CallsOutcome(a, context, f.value.calls);
      CallsTransferred(a, context, f.value.calls);
      PublicationsFacts(round.targets);
      forall e | e in Publications(round.targets) && e.Delegate? ensures e.topic in reg {
        assert IsTransfer(a, context, f.value.calls, (e.topic, e.context));
      }
    }
  }

  lemma ReachableStep(reg: Registry, s: State, step: Step)
    requires Closed(reg) && Reachable(reg, s) && Enabled(reg, s, step)
    ensures Reachable(reg, Apply(reg, s, step))
  {
    match step
    case Start(p) =>
      assert reg[p.topic] == reg[p.topic] && KnownHandler(reg, AIHandler(reg[p.topic], [], Await(p.context)));
    case Save(_) =>
      assert KnownHandler(reg, UserHandler([Put(StreamDone)]));
    case Answer(i, stream) =>
      var h := s.running[i];
      assert KnownHandler(reg, h);
      var t :| t in reg && reg[t] == h.agent;
      ReactRegistered(reg, t, h.control.context, stream);
      assert KnownHandler(reg, Answered(h, stream));
    case Emit(i) =>
      var h := s.running[i];
      assert KnownHandler(reg, h);
      var h' := h.(todo := h.todo[1..]);
      assert KnownHandler(reg, h');
      ReachablePerform(reg, s.(running := s.running[i := h']), h.todo[0]);
  }

  lemma ReachablePerform(reg: Registry, s: State, e: Effect)
    requires Reachable(reg, s) && Registered(reg, [e])
    ensures Reachable(reg, Perform(s, e))
  {
    assert [e][0] == e;
  }

  lemma {:induction false} ReachableRun(
      reg: Registry, s: State, steps: seq<Step>, ok: (Agent, seq<StreamItem>) -> bool)
    requires Closed(reg) && Reachable(reg, s) && Run(reg, s, steps, ok)
    ensures Reachable(reg, After(reg, s, steps, ok))
    decreases |steps|
  {
    if steps == [] {
    } else {
      ReachableStep(reg, s, steps[0]);
      ReachableRun(reg, Apply(reg, s, steps[0]), steps[1..], ok);
    }
  }

  lemma {:induction false} SomeoneOwes(hs: seq<Handler>) returns (i: nat)
    requires RunningTokens(hs) > 0
    ensures i < |hs| && (Waiting(hs[i]) || hs[i].todo != [])
  {
    if HandlerTokens(hs[0]) > 0 {
      i := 0;
    } else {
      i := SomeoneOwes(hs[1..]);
      i := i + 1;
    }
  }

  /** Where every topic is known, a waiting message or a handler that owes a token enables a step. */
  lemma OwingEnables(reg: Registry, s: State)
    requires Reachable(reg, s)
    ensures |s.pending| + RunningTokens(s.running) > 0 ==> exists step :: Enabled(reg, s, step)
  {
    if s.pending != multiset{} {
      var p :| p in s.pending;
      assert Enabled(reg, s, if p.Task? then Start(p) else Save(p));
    } else if RunningTokens(s.running) > 0 {
      var i := SomeoneOwes(s.running);
      assert Enabled(reg, s, if s.running[i].todo != [] then Emit(i) else Answer(i, []));
    }
  }

  /**
   Whatever the model answers, a request that has come to rest has put as many sentinels on the
   queue as one and the gains of all its answers; the consumer takes only the first of them.
   */
  lemma SentinelsAtRest(
      reg: Registry, topic: string, context: Context, steps: seq<Step>, ok: (Agent, seq<StreamItem>) -> bool)
    requires Closed(reg) && topic in reg && Run(reg, Requested(topic, context), steps, ok)
    requires forall step :: !Enabled(reg, After(reg, Requested(topic, context), steps, ok), step)
    ensures Dones(After(reg, Requested(topic, context), steps, ok).log) ==
      1 + TotalGain(reg, Requested(topic, context), steps, ok)
  {
    var start := Requested(topic, context);
    TokenLaw(reg, start, steps, ok);
    ReachableRun(reg, start, steps, ok);
    OwingEnables(reg, After(reg, start, steps, ok));
  }

  /** If every delegate topic is registered, some step is enabled exactly until the sentinel is out. */
  lemma StuckExactlyAfterSentinel(reg: Registry, topic: string, context: Context, steps: seq<Step>)
    requires Closed(reg) && topic in reg && Run(reg, Requested(topic, context), steps, GoodAnswer)
    ensures var s := After(reg, Requested(topic, context), steps, GoodAnswer);
      StreamDone !in s.log <==> exists step :: Enabled(reg, s, step)
  {
    OneSentinel(reg, topic, context, steps);
    ReachableRun(reg, Requested(topic, context), steps, GoodAnswer);
    var s := After(reg, Requested(topic, context), steps, GoodAnswer);
    if StreamDone !in s.log {
      NoDones(s.log);
      OwingEnables(reg, s);
    }
  }

  lemma {:induction false} NoDones(log: seq<Item>)
    requires StreamDone !in log
    ensures Dones(log) == 0
  {
    if log == [] {
    } else {
      NoDones(log[1..]);
    }
  }

  // ----- Calls and results stay paired -----

  ghost predicate Answers(call: LLMMessage, result: LLMMessage) {
    call.AssistantCalls? && result.ExecutionResults? && ResultIds(result.results) == CallIds(call.calls)
  }

  /** Each call message is followed by results for exactly its ids, and each result message answers one. */
  ghost predicate WellPaired(context: Context) {
    && (forall i :: 0 <= i < |context| && context[i].AssistantCalls? ==>
          i + 1 < |context| && Answers(context[i], context[i + 1]))
    && (forall i :: 0 <= i < |context| && context[i].ExecutionResults? ==>
          i > 0 && Answers(context[i - 1], context[i]))
  }

  /** The response does not mix plain tool calls with delegate calls. */
  predicate Unmixed(a: Agent, stream: seq<StreamItem>) {
    var f := FinalResponse(stream);
    f.Some? && f.value.Calls? ==>
      || AllPlain(a, f.value.calls)
      || NonePlain(a, f.value.calls)
  }

  ghost predicate PairedHandler(h: Handler) {
    && (forall i :: 0 <= i < |h.todo| && !h.todo[i].Put? ==> WellPaired(h.todo[i].context))
    && (Waiting(h) ==> WellPaired(h.control.context))
  }

  ghost predicate PairedState(s: State) {
    && (forall p :: p in s.pending ==> WellPaired(p.context))
    && (forall i :: 0 <= i < |s.running| ==> PairedHandler(s.running[i]))
  }

  lemma PairAppended(context: Context, call: LLMMessage, result: LLMMessage)
    requires WellPaired(context) && call.AssistantCalls? && result.ExecutionResults?
    ensures WellPaired(context + [call, result]) <==> Answers(call, result)
  {
    var n, extended := |context|, context + [call, result];
    assert extended[n] == call && extended[n + 1] == result;
    assert forall i :: 0 <= i < n ==> extended[i] == context[i];
  }

  /** The results of a round answer all its calls exactly when no call was a delegate call. */
  lemma AnswersExactlyWhenAllPlain(a: Agent, context: Context, calls: seq<FunctionCall>)
    requires !ProcessCalls(a, context, calls).failed
    ensures Answers(AssistantCalls(calls, a.topic), ExecutionResults(ProcessCalls(a, context, calls).results)) <==>
      AllPlain(a, calls)
  {
    CallsAnswered(a, context, calls);
    if AllPlain(a, calls) {
      PlainIdsAll(a, calls);
    } else {
      PlainIdsCount(a, calls);
      assert |PlainIds(a, calls)| != |CallIds(calls)|;
    }
  }

  lemma RoundContext(a: Agent, context: Context, stream: seq<StreamItem>)
    requires React(a, context, stream).control.Await?
    ensures FinalResponse(stream).Some? && FinalResponse(stream).value.Calls?
    ensures var calls := FinalResponse(stream).value.calls;
      var round := ProcessCalls(a, context, calls);
      && !round.failed
      && React(a, context, stream).control.context ==
           context + [AssistantCalls(calls, a.topic), ExecutionResults(round.results)]
  {
  }

  /** After a successful round the extended context is paired exactly when no call was a delegate call. */
  lemma PairedExactlyWhenAllPlain(a: Agent, context: Context, stream: seq<StreamItem>)
    requires WellPaired(context) && React(a, context, stream).control.Await?
    ensures FinalResponse(stream).Some? && FinalResponse(stream).value.Calls?
    ensures WellPaired(React(a, context, stream).control.context) <==> AllPlain(a, FinalResponse(stream).value.calls)
  {
    RoundContext(a, context, stream);
    var calls := FinalResponse(stream).value.calls;
    AnswersExactlyWhenAllPlain(a, context, calls);
    PairAppended(
      context, AssistantCalls(calls, a.topic), ExecutionResults(ProcessCalls(a, context, calls).results));
  }

  /** Every context handed to a delegate is paired. */
  lemma TransfersPaired(a: Agent, context: Context, calls: seq<FunctionCall>)
    requires WellPaired(context)
    ensures forall e :: e in Publications(ProcessCalls(a, context, calls).targets) && !e.Put? ==> WellPaired(e.context)
  {
    var targets := ProcessCalls(a, context, calls).targets;
    CallsTransferred(a, context, calls);
    PublicationsFacts(targets);
    forall e | e in Publications(targets) && !e.Put? ensures WellPaired(e.context) {
      assert IsTransfer(a, context, calls, (e.topic, e.context));
      var c :| c in calls && e.context == context + Transfer(c, e.topic, a.topic);
      PairAppended(context, Transfer(c, e.topic, a.topic)[0], Transfer(c, e.topic, a.topic)[1]);
    }
  }

  /** A round that goes on had plain calls only, if it was not mixed. */
  lemma UnmixedAwaits(a: Agent, context: Context, stream: seq<StreamItem>)
    requires Unmixed(a, stream) && React(a, context, stream).control.Await?
    ensures FinalResponse(stream).Some? && FinalResponse(stream).value.Calls?
    ensures AllPlain(a, FinalResponse(stream).value.calls)
  {
    RoundContext(a, context, stream);
    var calls := FinalResponse(stream).value.calls;
    CallsAnswered(a, context, calls);
    PlainIdsCount(a, calls);
    assert |ResultIds(ProcessCalls(a, context, calls).results)| == |PlainIds(a, calls)|;
  }

  lemma ReactPaired(a: Agent, context: Context, stream: seq<StreamItem>)
    requires WellPaired(context) && Unmixed(a, stream)
    ensures var r := React(a, context, stream); PairedHandler(AIHandler(a, r.effects, r.control))
  {
    ChunksQuiet(stream);
    if React(a, context, stream).control.Await? {
      PairedExactlyWhenAllPlain(a, context, stream);
      UnmixedAwaits(a, context, stream);
    }
    var f := FinalResponse(stream);
    if f.Some? && f.value.Calls? {
      CallsQuiet(a, context, f.value.calls);
      TransfersPaired(a, context, f.value.calls);
    }
  }

  lemma PairedStarted(s: State, p: Pending, h: Handler)
    requires PairedState(s) && PairedHandler(h)
    ensures PairedState(s.(pending := s.pending - multiset{p}, running := s.running + [h]))
  {
  }

  lemma PairedReplaced(s: State, i: nat, h: Handler)
    requires PairedState(s) && PairedHandler(h) && i < |s.running|
    ensures PairedState(s.(running := s.running[i := h]))
  {
  }

  lemma PairedStep(reg: Registry, s: State, step: Step)
    requires PairedState(s) && Enabled(reg, s, step)
    requires step.Answer? ==> Unmixed(s.running[step.i].agent, step.stream)
    ensures PairedState(Apply(reg, s, step))
  {
    match step
    case Start(p) => PairedStarted(s, p, AIHandler(reg[p.topic], [], Await(p.context)));
    case Save(p) => PairedStarted(s, p, UserHandler([Put(StreamDone)]));
    case Answer(i, stream) =>
      assert PairedHandler(s.running[i]);
      ReactPaired(s.running[i].agent, s.running[i].control.context, stream);
      PairedReplaced(s, i, Answered(s.running[i], stream));
    case Emit(i) =>
      var h := s.running[i];
      PairedTail(h);
      PairedReplaced(s, i, h.(todo := h.todo[1..]));
      PairedPerform(s.(running := s.running[i := h.(todo := h.todo[1..])]), h.todo[0]);
  }

  lemma PairedTail(h: Handler)
    requires PairedHandler(h) && h.todo != []
    ensures PairedHandler(h.(todo := h.todo[1..])) && (!h.todo[0].Put? ==> WellPaired(h.todo[0].context))
  {
  }

  lemma PairedPerform(s: State, e: Effect)
    requires PairedState(s) && (!e.Put? ==> WellPaired(e.context))
    ensures PairedState(Perform(s, e))
  {
  }

  /** In runs without mixed responses, every context published to a delegate or to the user is paired. */
  lemma {:induction false} PairedRun(reg: Registry, s: State, steps: seq<Step>)
    requires PairedState(s) && Run(reg, s, steps, Unmixed)
    ensures PairedState(After(reg, s, steps, Unmixed))
    decreases |steps|
  {
    if steps == [] {
    } else {
      PairedStep(reg, s, steps[0]);
      PairedRun(reg, Apply(reg, s, steps[0]), steps[1..]);
    }
  }

  // ----- No context loses a message -----

  ghost predicate ExtendsAll(base: Context, effects: seq<Effect>) {
    forall i :: 0 <= i < |effects| ==> effects[i].Put? || base <= effects[i].context
  }

  ghost predicate ExtendsHandler(base: Context, h: Handler) {
    ExtendsAll(base, h.todo) && (Waiting(h) ==> base <= h.control.context)
  }

  ghost predicate ExtendsState(base: Context, s: State) {
    && (forall p :: p in s.pending ==> base <= p.context)
    && (forall i :: 0 <= i < |s.running| ==> ExtendsHandler(base, s.running[i]))
  }

  lemma ReactExtends(base: Context, a: Agent, context: Context, stream: seq<StreamItem>)
    requires base <= context
    ensures var r := React(a, context, stream); ExtendsHandler(base, AIHandler(a, r.effects, r.control))
  {
    ChunksQuiet(stream);
    var f := FinalResponse(stream);
    if f.Some? && f.value.Calls? {
      var round := ProcessCalls(a, context, f.value.calls);
      CallsOutcome(a, context, f.value.calls);
      CallsTransferred(a, context, f.value.calls);
      PublicationsFacts(round.targets);
      forall e | e in Publications(round.targets) && e.Delegate? ensures base <= e.context {
        assert IsTransfer(a, context, f.value.calls, (e.topic, e.context));
      }
    }
  }

  lemma ExtendsPerform(base: Context, s: State, e: Effect)
    requires ExtendsState(base, s) && (e.Put? || base <= e.context)
    ensures ExtendsState(base, Perform(s, e))
  {
  }

  lemma ExtendsStep(base: Context, reg: Registry, s: State, step: Step)
    requires ExtendsState(base, s) && Enabled(reg, s, step)
    ensures ExtendsState(base, Apply(reg, s, step))
  {
    match step
    case Start(p) => assert ExtendsHandler(base, AIHandler(reg[p.topic], [], Await(p.context)));
    case Save(_) => assert ExtendsHandler(base, UserHandler([Put(StreamDone)]));
    case Answer(i, stream) =>
      assert ExtendsHandler(base, s.running[i]);
      ReactExtends(base, s.running[i].agent, s.running[i].control.context, stream);
    case Emit(i) =>
      var h := s.running[i];
      assert ExtendsHandler(base, h) && ExtendsHandler(base, h.(todo := h.todo[1..]));
      ExtendsPerform(base, s.(running := s.running[i := h.(todo := h.todo[1..])]), h.todo[0]);
  }

  /** In every run, whatever the model answers, every context in flight starts with the requested one. */
  lemma {:induction false} ContextsExtendRequest(
      base: Context, reg: Registry, s: State, steps: seq<Step>, ok: (Agent, seq<StreamItem>) -> bool)
    requires ExtendsState(base, s) && Run(reg, s, steps, ok)
    ensures ExtendsState(base, After(reg, s, steps, ok))
    decreases |steps|
  {
    if steps == [] {
    } else {
      ExtendsStep(base, reg, s, steps[0]);
      ContextsExtendRequest(base, reg, Apply(reg, s, steps[0]), steps[1..], ok);
    }
  }

  // ----- From one request to the next -----

  /** The last `size` messages, without a leading result message whose call was cut off. */
  function Window(messages: Context, size: nat): Context {
    var tail := if |messages| <= size then messages else messages[|messages| - size..];
    if tail != [] && tail[0].ExecutionResults? then tail[1..] else tail
  }

  lemma SuffixPaired(context: Context, k: nat)
    requires WellPaired(context) && k <= |context|
    requires k < |context| ==> !context[k].ExecutionResults?
    ensures WellPaired(context[k..])
  {
    var suffix := context[k..];
    forall i | 0 <= i < |suffix| && suffix[i].ExecutionResults?
      ensures i > 0 && Answers(suffix[i - 1], suffix[i])
    {
      assert suffix[i] == context[k + i];
      assert Answers(context[k + i - 1], context[k + i]);
    }
    forall i | 0 <= i < |suffix| && suffix[i].AssistantCalls?
      ensures i + 1 < |suffix| && Answers(suffix[i], suffix[i + 1])
    {
      assert suffix[i] == context[k + i];
    }
  }

  /** A suffix of the history of at most `size` messages that does not begin with results. */
  ghost predicate Usable(saved: Context, size: nat, k: nat) {
    k <= |saved| && |saved| - k <= size && (k < |saved| ==> !saved[k].ExecutionResults?)
  }

  /** Of a paired history the window keeps the longest usable suffix. */
  lemma WindowIsLongest(saved: Context, size: nat) returns (k: nat)
    requires WellPaired(saved)
    ensures Usable(saved, size, k) && Window(saved, size) == saved[k..]
    ensures forall j: nat :: Usable(saved, size, j) ==> k <= j
  {
    k := if |saved| <= size then 0 else |saved| - size;
    if k < |saved| && saved[k].ExecutionResults? {
      assert k > 0 && Answers(saved[k - 1], saved[k]);
      k := k + 1;
      assert k < |saved| && saved[k].ExecutionResults? ==> Answers(saved[k - 1], saved[k]);
    }
  }

  /** The next request of the conversation starts from a paired context again. */
  lemma NextRequestPaired(saved: Context, size: nat, text: string)
    requires WellPaired(saved)
    ensures WellPaired(Window(saved, size) + [UserMessage(text)])
  {
    var k := if |saved| <= size then 0 else |saved| - size;
    var from := if k < |saved| && saved[k].ExecutionResults? then k + 1 else k;
    assert from < |saved| ==> !saved[from].ExecutionResults?;
    SuffixPaired(saved, from);
    assert Window(saved, size) == saved[from..];
    UserAppended(saved[from..], text);
  }

  lemma UserAppended(context: Context, text: string)
    requires WellPaired(context)
    ensures WellPaired(context + [UserMessage(text)])
  {
    var extended := context + [UserMessage(text)];
    assert forall i :: 0 <= i < |context| ==> extended[i] == context[i];
  }
}
