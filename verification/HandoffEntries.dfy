/** What the hand-off sample puts on the response queue and publishes, entry by entry. */
module HandoffEntries {
  import opened Wrappers
  import opened Handoff
  import opened HandoffProtocol
  import opened HandoffTheorems

  // ----- One answer -----

  predicate IsChunk(x: StreamItem) { x.Chunk? }

  /** The texts of the string chunks of a stream, in order. */
  function ChunkTexts(stream: seq<StreamItem>): seq<string> {
    var chunks := Where(stream, IsChunk);
    seq(|chunks|, i requires 0 <= i < |chunks| => chunks[i].text)
  }

  function StringPuts(texts: seq<string>): seq<Effect> {
    seq(|texts|, i requires 0 <= i < |texts| => Put(Dict("string", texts[i])))
  }

  function Executing(calls: seq<FunctionCall>): seq<Effect> {
    seq(|calls|, i requires 0 <= i < |calls| => Put(Dict("function", "Executing " + calls[i].name)))
  }

  lemma ExecutingSnoc(calls: seq<FunctionCall>, call: FunctionCall)
    ensures Executing([call]) == [Put(Dict("function", "Executing " + call.name))]
    ensures Executing(calls + [call]) == Executing(calls) + Executing([call])
  {
  }

  lemma {:induction false} ChunksArePut(stream: seq<StreamItem>)
    ensures ChunkPuts(stream) == StringPuts(ChunkTexts(stream))
    decreases |stream|
  {
    if stream == [] {
      WhereNone(IsChunk);
    } else {
      var front, last := stream[..|stream| - 1], stream[|stream| - 1];
      ChunksArePut(front);
      WhereSnoc(front, last, IsChunk);
      assert front + [last] == stream;
    }
  }

  /** Position `k` holds the completion that counts. */
  ghost predicate LastCompletion(stream: seq<StreamItem>, k: nat) {
    k < |stream| && stream[k].Completion? && forall j :: k < j < |stream| ==> stream[j].Chunk?
  }

  lemma {:induction false} LastCompletionCounts(stream: seq<StreamItem>, k: nat)
    requires LastCompletion(stream, k)
    ensures FinalResponse(stream) == Some(stream[k].content)
    decreases |stream|
  {
    if k == |stream| - 1 {
    } else {
      LastCompletionCounts(stream[..|stream| - 1], k);
    }
  }

  lemma {:induction false} NoCompletionFails(stream: seq<StreamItem>)
    requires forall j :: 0 <= j < |stream| ==> stream[j].Chunk?
    ensures FinalResponse(stream) == None
    decreases |stream|
  {
    if stream == [] {
    } else {
      NoCompletionFails(stream[..|stream| - 1]);
    }
  }

  /** Without a completion only the chunks are put, and the handler ends. */
  lemma ReactsToNothing(a: Agent, context: Context, stream: seq<StreamItem>)
    requires forall j :: 0 <= j < |stream| ==> stream[j].Chunk?
    ensures React(a, context, stream) == Reaction(StringPuts(ChunkTexts(stream)), Stop)
  {
    NoCompletionFails(stream);
    ChunksArePut(stream);
  }

  /** A text is published as the final response, after its chunks were put. */
  lemma ReactsToText(a: Agent, context: Context, stream: seq<StreamItem>, k: nat)
    requires LastCompletion(stream, k) && stream[k].content.Text?
    ensures React(a, context, stream) ==
      Reaction(
        StringPuts(ChunkTexts(stream)) + [Respond(context + [AssistantText(stream[k].content.text, a.topic)])], Stop)
  {
    LastCompletionCounts(stream, k);
    ChunksArePut(stream);
  }

  predicate IsDelegateCall(a: Agent, call: FunctionCall) { call.name !in a.tools }

  function DelegateCalls(a: Agent): FunctionCall -> bool {
    (call: FunctionCall) => IsDelegateCall(a, call)
  }

  /** A delegate call that succeeds: the notice, and the task with the call and its transfer result added. */
  function Handover(a: Agent, context: Context, call: FunctionCall): seq<Effect>
    requires Succeeds(a, call) && IsDelegateCall(a, call)
  {
    var topic := a.delegates[call.name](call.arguments).value;
    [Put(Dict("function", "You are now talking to " + topic)),
     Delegate(topic, context + [
       AssistantCalls([call], a.topic),
       ExecutionResults([
         ExecutionResult(call.id, "Transferred to " + topic + ". Adopt persona immediately.", call.name)])])]
  }

  predicate AllSucceed(a: Agent, calls: seq<FunctionCall>) {
    forall i :: 0 <= i < |calls| ==> Succeeds(a, calls[i])
  }

  /** The hand-overs of the delegate calls among `calls`, in order. */
  function Handovers(a: Agent, context: Context, calls: seq<FunctionCall>): seq<Effect>
    requires AllSucceed(a, calls)
  {
    var ds := Where(calls, DelegateCalls(a));
    assert forall j :: 0 <= j < |ds| ==> ds[j] == calls[Positions(calls, DelegateCalls(a))[j]];
    EachHandover(a, context, ds)
  }

  function EachHandover(a: Agent, context: Context, ds: seq<FunctionCall>): seq<Effect>
    requires AllSucceed(a, ds) && forall j :: 0 <= j < |ds| ==> IsDelegateCall(a, ds[j])
  {
    if ds == [] then [] else EachHandover(a, context, ds[..|ds| - 1]) + Handover(a, context, ds[|ds| - 1])
  }

  lemma EachHandoverSnoc(a: Agent, context: Context, ds: seq<FunctionCall>, d: FunctionCall)
    requires AllSucceed(a, ds + [d]) && forall j :: 0 <= j < |ds + [d]| ==> IsDelegateCall(a, (ds + [d])[j])
    requires AllSucceed(a, ds) && forall j :: 0 <= j < |ds| ==> IsDelegateCall(a, ds[j])
    requires Succeeds(a, d) && IsDelegateCall(a, d)
    ensures EachHandover(a, context, ds + [d]) == EachHandover(a, context, ds) + Handover(a, context, d)
  {
    assert (ds + [d])[..|ds|] == ds;
  }

  lemma DelegatesSucceed(a: Agent, calls: seq<FunctionCall>)
    requires AllSucceed(a, calls)
    ensures var ds := Where(calls, DelegateCalls(a));
      AllSucceed(a, ds) && forall j :: 0 <= j < |ds| ==> IsDelegateCall(a, ds[j])
  {
    var ds := Where(calls, DelegateCalls(a));
    assert forall j :: 0 <= j < |ds| ==> ds[j] == calls[Positions(calls, DelegateCalls(a))[j]];
  }

  lemma DelegatesSnoc(a: Agent, front: seq<FunctionCall>, call: FunctionCall)
    ensures Where(front + [call], DelegateCalls(a)) ==
      Where(front, DelegateCalls(a)) + if IsDelegateCall(a, call) then [call] else []
  {
    WhereSnoc(front, call, DelegateCalls(a));
  }

  lemma HandoversSnoc(a: Agent, context: Context, front: seq<FunctionCall>, call: FunctionCall)
    requires AllSucceed(a, front) && Succeeds(a, call)
    ensures AllSucceed(a, front + [call])
    ensures Handovers(a, context, front + [call]) ==
      Handovers(a, context, front) + if IsDelegateCall(a, call) then Handover(a, context, call) else []
  {
    var calls := front + [call];
    assert AllSucceed(a, calls);
    DelegatesSucceed(a, front);
    DelegatesSucceed(a, calls);
    DelegatesSnoc(a, front, call);
    if IsDelegateCall(a, call) {
      EachHandoverSnoc(a, context, Where(front, DelegateCalls(a)), call);
    } else {
      assert Where(calls, DelegateCalls(a)) == Where(front, DelegateCalls(a));
    }
  }

  lemma ProcessSnoc(a: Agent, context: Context, front: seq<FunctionCall>, call: FunctionCall)
    requires !ProcessCalls(a, context, front).failed
    ensures ProcessCalls(a, context, front + [call]) == ProcessCall(a, context, ProcessCalls(a, context, front), call)
  {
    assert (front + [call])[..|front|] == front;
  }

  lemma PublicationsSnoc(targets: seq<(string, Context)>, t: (string, Context))
    ensures Publications(targets + [t]) ==
      Publications(targets) + [Put(Dict("function", "You are now talking to " + t.0)), Delegate(t.0, t.1)]
  {
    assert (targets + [t])[..|targets|] == targets;
  }

  /** The round has one notice per call, and will publish the hand-overs. */
  ghost predicate RoundOf(a: Agent, context: Context, calls: seq<FunctionCall>) {
    && AllSucceed(a, calls)
    && var r := ProcessCalls(a, context, calls);
       !r.failed && r.puts == Executing(calls) && Publications(r.targets) == Handovers(a, context, calls)
  }

  lemma RoundSnoc(a: Agent, context: Context, front: seq<FunctionCall>, call: FunctionCall)
    requires RoundOf(a, context, front) && Succeeds(a, call)
    ensures RoundOf(a, context, front + [call])
  {
    ProcessSnoc(a, context, front, call);
    HandoversSnoc(a, context, front, call);
    RoundNext(a, context, ProcessCalls(a, context, front), call);
    ExecutingSnoc(front, call);
  }

  lemma {:induction false} RoundIs(a: Agent, context: Context, calls: seq<FunctionCall>)
    requires AllSucceed(a, calls)
    ensures RoundOf(a, context, calls)
    decreases |calls|
  {
    if calls == [] {
      WhereNone(DelegateCalls(a));
    } else {
      var front, call := calls[..|calls| - 1], calls[|calls| - 1];
      assert front + [call] == calls && AllSucceed(a, front);
      RoundIs(a, context, front);
      RoundSnoc(a, context, front, call);
    }
  }

  lemma RoundNext(a: Agent, context: Context, r: Round, call: FunctionCall)
    requires Succeeds(a, call) && !r.failed
    ensures var r' := ProcessCall(a, context, r, call);
      && !r'.failed && r'.puts == r.puts + [Put(Dict("function", "Executing " + call.name))]
      && Publications(r'.targets) ==
           Publications(r.targets) + if IsDelegateCall(a, call) then Handover(a, context, call) else []
  {
    if IsDelegateCall(a, call) {
      var topic := a.delegates[call.name](call.arguments).value;
      PublicationsSnoc(r.targets, (topic, context + Transfer(call, topic, a.topic)));
    }
  }

  /**
   Calls that all succeed: the chunks, one notice per call, then notice and task for every
   delegate call; the handler goes on exactly when there was a plain call, with the calls and the
   plain tools' results added to its context.
   */
  lemma ReactsToCalls(a: Agent, context: Context, stream: seq<StreamItem>, k: nat)
    requires LastCompletion(stream, k) && stream[k].content.Calls? && AllSucceed(a, stream[k].content.calls)
    ensures var calls, r := stream[k].content.calls, React(a, context, stream);
      && r.effects == StringPuts(ChunkTexts(stream)) + (Executing(calls) + Handovers(a, context, calls))
      && r.control ==
           if NonePlain(a, calls) then Stop
           else Await(context + [AssistantCalls(calls, a.topic), ExecutionResults(PlainResults(a, calls))])
  {
    var calls := stream[k].content.calls;
    LastCompletionCounts(stream, k);
    ChunksArePut(stream);
    RoundIs(a, context, calls);
    CallsRun(a, context, calls);
    CallsAnswered(a, context, calls);
    PlainIdsCount(a, calls);
    assert |ResultIds(PlainResults(a, calls))| == |PlainIds(a, calls)|;
  }

  /** The first call that fails ends the handler, after the notices up to it. */
  lemma ReactsToFailure(a: Agent, context: Context, stream: seq<StreamItem>, k: nat, i: nat)
    requires LastCompletion(stream, k) && stream[k].content.Calls? && i < |stream[k].content.calls|
    requires AllSucceed(a, stream[k].content.calls[..i]) && !Succeeds(a, stream[k].content.calls[i])
    ensures var calls := stream[k].content.calls;
      React(a, context, stream) ==
        Reaction(
          StringPuts(ChunkTexts(stream)) + Executing(calls[..if a.parses(calls[i].arguments) then i + 1 else i]), Stop)
  {
    var calls := stream[k].content.calls;
    LastCompletionCounts(stream, k);
    ChunksArePut(stream);
    RoundFails(a, context, calls, i);
  }

  lemma FailNext(a: Agent, context: Context, r: Round, call: FunctionCall)
    requires !Succeeds(a, call) && !r.failed
    ensures var r' := ProcessCall(a, context, r, call);
      r'.failed && r'.puts == r.puts + if a.parses(call.arguments) then Executing([call]) else []
  {
  }

  lemma RoundFails(a: Agent, context: Context, calls: seq<FunctionCall>, i: nat)
    requires i < |calls| && AllSucceed(a, calls[..i]) && !Succeeds(a, calls[i])
    ensures var r := ProcessCalls(a, context, calls);
      r.failed && r.puts == Executing(calls[..if a.parses(calls[i].arguments) then i + 1 else i])
  {
    var front := calls[..i];
    assert front + [calls[i]] == calls[..i + 1];
    RoundIs(a, context, front);
    ProcessSnoc(a, context, front, calls[i]);
    FailNext(a, context, ProcessCalls(a, context, front), calls[i]);
    FailureStays(a, context, calls, i + 1);
    ExecutingSnoc(front, calls[i]);
  }

  // ----- Strings among effects and entries -----

  predicate IsString(e: Effect) { e.Put? && e.item.Dict? && e.item.kind == "string" }

  function Strings(effects: seq<Effect>): seq<string> {
    if effects == [] then []
    else (if IsString(effects[0]) then [effects[0].item.message] else []) + Strings(effects[1..])
  }

  lemma Regrouped<T>(a: seq<T>, b: seq<T>, c: seq<T>)
    ensures a + (b + c) == (a + b) + c
  {
  }

  lemma {:induction false} StringsAppend(a: seq<Effect>, b: seq<Effect>)
    ensures Strings(a + b) == Strings(a) + Strings(b)
  {
    if a == [] {
      assert a + b == b;
    } else {
      assert (a + b)[1..] == a[1..] + b;
      StringsAppend(a[1..], b);
      Regrouped(if IsString(a[0]) then [a[0].item.message] else [], Strings(a[1..]), Strings(b));
    }
  }

  lemma StringsCons(effects: seq<Effect>)
    requires effects != []
    ensures Strings(effects) == Strings([effects[0]]) + Strings(effects[1..])
  {
    assert effects == [effects[0]] + effects[1..];
    StringsAppend([effects[0]], effects[1..]);
  }

  lemma {:induction false} StringsOfPuts(texts: seq<string>)
    ensures Strings(StringPuts(texts)) == texts
  {
    if texts == [] {
    } else {
      StringsOfPuts(texts[1..]);
      assert StringPuts(texts)[1..] == StringPuts(texts[1..]);
    }
  }

  ghost predicate Stringless(effects: seq<Effect>) {
    forall i :: 0 <= i < |effects| ==> !IsString(effects[i])
  }

  lemma NoticeIsNoString(message: string)
    ensures !IsString(Put(Dict("function", message)))
  {
    assert |"function"| != |"string"|;
  }

  lemma {:induction false} NoStrings(effects: seq<Effect>)
    requires Stringless(effects)
    ensures Strings(effects) == []
  {
    if effects == [] {
    } else {
      NoStrings(effects[1..]);
    }
  }

  lemma {:induction false} PublicationsNoString(targets: seq<(string, Context)>)
    ensures Stringless(Publications(targets))
    decreases |targets|
  {
    if targets == [] {
    } else {
      PublicationsNoString(targets[..|targets| - 1]);
      NoticeIsNoString("You are now talking to " + targets[|targets| - 1].0);
    }
  }

  lemma {:induction false} CallsNoString(a: Agent, context: Context, calls: seq<FunctionCall>)
    ensures Stringless(ProcessCalls(a, context, calls).puts)
    decreases |calls|
  {
    if calls == [] {
    } else {
      CallsNoString(a, context, calls[..|calls| - 1]);
      NoticeIsNoString("Executing " + calls[|calls| - 1].name);
    }
  }

  lemma ChunksThenRest(a: Agent, context: Context, stream: seq<StreamItem>) returns (rest: seq<Effect>)
    ensures React(a, context, stream).effects == StringPuts(ChunkTexts(stream)) + rest && Stringless(rest)
  {
    ChunksArePut(stream);
    match FinalResponse(stream)
    case None => rest := [];
    case Some(Text(text)) => rest := [Respond(context + [AssistantText(text, a.topic)])];
    case Some(Calls(calls)) =>
      rest := CallsReaction(a, context, calls).effects;
      CallsNoString(a, context, calls);
      PublicationsNoString(ProcessCalls(a, context, calls).targets);
  }

  /** For any stream, its chunks are put first, each once and in order, and nothing after them is a string entry. */
  lemma ChunksFirst(a: Agent, context: Context, stream: seq<StreamItem>)
    ensures var effects, texts := React(a, context, stream).effects, ChunkTexts(stream);
      && |texts| <= |effects| && effects[..|texts|] == StringPuts(texts)
      && Stringless(effects[|texts|..])
      && Strings(effects) == texts
  {
    var texts := ChunkTexts(stream);
    var rest := ChunksThenRest(a, context, stream);
    assert (StringPuts(texts) + rest)[|texts|..] == rest;
    StringsAppend(StringPuts(texts), rest);
    StringsOfPuts(texts);
    NoStrings(rest);
  }

  // ----- Runs -----

  /** Whose effect a step performs, and which. */
  ghost function Emission(reg: Registry, s: State, step: Step): seq<(nat, Effect)>
    requires Enabled(reg, s, step)
  {
    if step.Emit? then [(step.i, s.running[step.i].todo[0])] else []
  }

  /** Who performed which effect, in order. */
  ghost function Trace(reg: Registry, s: State, steps: seq<Step>, ok: (Agent, seq<StreamItem>) -> bool)
    : seq<(nat, Effect)>
    requires Run(reg, s, steps, ok)
    decreases |steps|
  {
    if steps == [] then []
    else Emission(reg, s, steps[0]) + Trace(reg, Apply(reg, s, steps[0]), steps[1..], ok)
  }

  /** The queue entries of a trace. */
  ghost function Entries(trace: seq<(nat, Effect)>): seq<Item> {
    if trace == [] then []
    else (if trace[0].1.Put? then [trace[0].1.item] else []) + Entries(trace[1..])
  }

  /** The effects of handler `i`. */
  ghost function By(i: nat, trace: seq<(nat, Effect)>): seq<Effect> {
    if trace == [] then [] else (if trace[0].0 == i then [trace[0].1] else []) + By(i, trace[1..])
  }

  lemma {:induction false} EntriesAppend(a: seq<(nat, Effect)>, b: seq<(nat, Effect)>)
    ensures Entries(a + b) == Entries(a) + Entries(b)
  {
    if a == [] {
      assert a + b == b;
    } else {
      assert (a + b)[1..] == a[1..] + b;
      EntriesAppend(a[1..], b);
      Regrouped(if a[0].1.Put? then [a[0].1.item] else [], Entries(a[1..]), Entries(b));
    }
  }

  lemma {:induction false} ByAppend(i: nat, a: seq<(nat, Effect)>, b: seq<(nat, Effect)>)
    ensures By(i, a + b) == By(i, a) + By(i, b)
  {
    if a == [] {
      assert a + b == b;
    } else {
      assert (a + b)[1..] == a[1..] + b;
      ByAppend(i, a[1..], b);
      Regrouped(if a[0].0 == i then [a[0].1] else [], By(i, a[1..]), By(i, b));
    }
  }

  /** The first step of a run, and the rest. */
  lemma RunCons(reg: Registry, s: State, step: Step, rest: seq<Step>, ok: (Agent, seq<StreamItem>) -> bool)
    requires Run(reg, s, [step] + rest, ok)
    ensures Enabled(reg, s, step) && Run(reg, Apply(reg, s, step), rest, ok)
    ensures step.Answer? ==> ok(s.running[step.i].agent, step.stream)
    ensures After(reg, s, [step] + rest, ok) == After(reg, Apply(reg, s, step), rest, ok)
    ensures Trace(reg, s, [step] + rest, ok) == Emission(reg, s, step) + Trace(reg, Apply(reg, s, step), rest, ok)
  {
    assert ([step] + rest)[1..] == rest;
  }

  lemma LogStep(reg: Registry, s: State, step: Step)
    requires Enabled(reg, s, step)
    ensures Apply(reg, s, step).log == s.log + Entries(Emission(reg, s, step))
  {
    var now := Emission(reg, s, step);
    if now != [] {
      assert now[1..] == [];
    }
  }

  /** The queue receives exactly the entries that handlers put. */
  lemma {:induction false} LogIsTrace(reg: Registry, s: State, steps: seq<Step>, ok: (Agent, seq<StreamItem>) -> bool)
    requires Run(reg, s, steps, ok)
    ensures After(reg, s, steps, ok).log == s.log + Entries(Trace(reg, s, steps, ok))
    decreases |steps|
  {
    if steps == [] {
    } else {
      var step, rest := steps[0], steps[1..];
      assert steps == [step] + rest;
      RunCons(reg, s, step, rest, ok);
      var s' := Apply(reg, s, step);
      LogStep(reg, s, step);
      LogIsTrace(reg, s', rest, ok);
      var now, later := Emission(reg, s, step), Trace(reg, s', rest, ok);
      EntriesAppend(now, later);
      Regrouped(s.log, Entries(now), Entries(later));
    }
  }

  /** The chunks of several streams, in order. */
  ghost function AllChunks(streams: seq<seq<StreamItem>>): seq<string> {
    if streams == [] then [] else ChunkTexts(streams[0]) + AllChunks(streams[1..])
  }

  /** What handler `i` still has to do; nothing before it has started. */
  ghost function TodoAt(s: State, i: nat): seq<Effect> {
    if i < |s.running| then s.running[i].todo else []
  }

  /** The chunks a step answers handler `i` with. */
  ghost function AnsweredChunks(step: Step, i: nat): seq<string> {
    if AnswersHandler(step, i) then ChunkTexts(step.stream) else []
  }

  lemma AnswersCons(i: nat, step: Step, rest: seq<Step>)
    ensures AllChunks(AnswersTo(i, [step] + rest)) == AnsweredChunks(step, i) + AllChunks(AnswersTo(i, rest))
  {
    assert ([step] + rest)[1..] == rest;
    if AnswersHandler(step, i) {
      assert ([step.stream] + AnswersTo(i, rest))[1..] == AnswersTo(i, rest);
    } else {
      assert [] + AnswersTo(i, rest) == AnswersTo(i, rest);
    }
  }

  lemma AnswerStrings(reg: Registry, s: State, i: nat, stream: seq<StreamItem>)
    requires Enabled(reg, s, Answer(i, stream))
    ensures TodoAt(s, i) == [] && Strings(TodoAt(Apply(reg, s, Answer(i, stream)), i)) == ChunkTexts(stream)
  {
    ChunksFirst(s.running[i].agent, s.running[i].control.context, stream);
  }

  lemma EmitStrings(reg: Registry, s: State, i: nat)
    requires Enabled(reg, s, Emit(i))
    ensures Strings(By(i, Emission(reg, s, Emit(i)))) + Strings(TodoAt(Apply(reg, s, Emit(i)), i)) ==
      Strings(TodoAt(s, i))
  {
    var todo := s.running[i].todo;
    assert Emission(reg, s, Emit(i))[1..] == [];
    assert By(i, Emission(reg, s, Emit(i))) == [todo[0]];
    StringsCons(todo);
  }

  lemma OtherTodo(reg: Registry, s: State, step: Step, i: nat)
    requires Enabled(reg, s, step) && !AnswersHandler(step, i) && step != Emit(i)
    ensures By(i, Emission(reg, s, step)) == [] && Strings(TodoAt(Apply(reg, s, step), i)) == Strings(TodoAt(s, i))
  {
    if step.Emit? {
      assert Emission(reg, s, step)[1..] == [];
    }
    if step.Save? && i == |s.running| {
      NoStrings([Put(StreamDone)]);
    }
  }

  lemma HandlerStep(reg: Registry, s: State, step: Step, i: nat)
    requires Enabled(reg, s, step)
    ensures Strings(By(i, Emission(reg, s, step))) + Strings(TodoAt(Apply(reg, s, step), i)) ==
      Strings(TodoAt(s, i)) + AnsweredChunks(step, i)
  {
    if AnswersHandler(step, i) {
      AnswerStrings(reg, s, i, step.stream);
    } else if step == Emit(i) {
      EmitStrings(reg, s, i);
    } else {
      OtherTodo(reg, s, step, i);
    }
  }

  lemma Exchange<T>(now: seq<T>, later: seq<T>, end: seq<T>, mid: seq<T>, rest: seq<T>, start: seq<T>, new': seq<T>)
    requires later + end == mid + rest && now + mid == start + new'
    ensures (now + later) + end == start + (new' + rest)
  {
    Regrouped(now, later, end);
    Regrouped(now, mid, rest);
    Regrouped(start, new', rest);
  }

  /**
   In any run, whatever the model answers and however handlers interleave: the string entries a
   handler has put, and those it still will, are the chunks of the streams it was answered with.
   */
  lemma {:induction false} HandlerPutsItsChunks(
      reg: Registry, s: State, steps: seq<Step>, ok: (Agent, seq<StreamItem>) -> bool, i: nat)
    requires Run(reg, s, steps, ok)
    ensures Strings(By(i, Trace(reg, s, steps, ok))) + Strings(TodoAt(After(reg, s, steps, ok), i)) ==
      Strings(TodoAt(s, i)) + AllChunks(AnswersTo(i, steps))
    decreases |steps|
  {
    if steps == [] {
    } else {
      var step, rest := steps[0], steps[1..];
      assert steps == [step] + rest;
      RunCons(reg, s, step, rest, ok);
      var s' := Apply(reg, s, step);
      HandlerPutsItsChunks(reg, s', rest, ok, i);
      HandlerStep(reg, s, step, i);
      AnswersCons(i, step, rest);
      var now, later := Emission(reg, s, step), Trace(reg, s', rest, ok);
      ByAppend(i, now, later);
      StringsAppend(By(i, now), By(i, later));
      Exchange(
        Strings(By(i, now)), Strings(By(i, later)), Strings(TodoAt(After(reg, s', rest, ok), i)),
        Strings(TodoAt(s', i)), AllChunks(AnswersTo(i, rest)), Strings(TodoAt(s, i)), AnsweredChunks(step, i));
    }
  }

  /** What a handler does with the answers still to come. */
  ghost function ToCome(h: Handler, answers: seq<seq<StreamItem>>): seq<Effect> {
    if Waiting(h) then Drive(h.agent, h.control.context, answers).effects else []
  }

  lemma OwnAnswer(h: Handler, stream: seq<StreamItem>, rest: seq<seq<StreamItem>>)
    requires Waiting(h)
    ensures Answered(h, stream).todo + ToCome(Answered(h, stream), rest) == ToCome(h, [stream] + rest)
  {
    assert ([stream] + rest)[1..] == rest;
    assert Answered(h, stream).todo + [] == Answered(h, stream).todo;
  }

  lemma OtherStep(reg: Registry, s: State, step: Step, i: nat)
    requires Enabled(reg, s, step) && i < |s.running| && s.running[i].AIHandler? && !AnswersHandler(step, i)
    ensures var s' := Apply(reg, s, step);
      && i < |s'.running| && s'.running[i].AIHandler?
      && s'.running[i].agent == s.running[i].agent && s'.running[i].control == s.running[i].control
      && By(i, Emission(reg, s, step)) + s'.running[i].todo == s.running[i].todo
  {
    OtherStepsKeepControl(reg, s, step, i);
    if step.Emit? {
      OtherEmit(reg, s, step.i, i);
    }
  }

  lemma OtherEmit(reg: Registry, s: State, j: nat, i: nat)
    requires Enabled(reg, s, Emit(j)) && i < |s.running|
    ensures By(i, Emission(reg, s, Emit(j))) + Apply(reg, s, Emit(j)).running[i].todo == s.running[i].todo
  {
    EmitMoves(reg, s, j);
    ByOne(i, j, s.running[j].todo[0]);
    if i == j {
      var todo := s.running[i].todo;
      assert [todo[0]] + todo[1..] == todo;
    }
  }

  lemma EmitMoves(reg: Registry, s: State, j: nat)
    requires Enabled(reg, s, Emit(j))
    ensures var h := s.running[j];
      && Apply(reg, s, Emit(j)).running == s.running[j := h.(todo := h.todo[1..])]
      && Emission(reg, s, Emit(j)) == [(j, h.todo[0])]
  {
  }

  lemma ByOne(i: nat, j: nat, e: Effect)
    ensures By(i, [(j, e)]) == if i == j then [e] else []
  {
    assert [(j, e)][1..] == [];
  }

  lemma SameToCome(h: Handler, h': Handler, answers: seq<seq<StreamItem>>)
    requires h.AIHandler? && h'.AIHandler? && h.agent == h'.agent && h.control == h'.control
    ensures ToCome(h, answers) == ToCome(h', answers)
  {
  }

  /**
   In any run a handler performs exactly what one undisturbed handling of its task would perform,
   given the answers it gets: what it has done and still has to do is what it had to do and `Drive`.
   */
  lemma {:induction false} HandlerPerformsDrive(
      reg: Registry, s: State, steps: seq<Step>, ok: (Agent, seq<StreamItem>) -> bool, i: nat)
    requires Run(reg, s, steps, ok) && i < |s.running| && s.running[i].AIHandler?
    ensures By(i, Trace(reg, s, steps, ok)) + TodoAt(After(reg, s, steps, ok), i) ==
      s.running[i].todo + ToCome(s.running[i], AnswersTo(i, steps))
    decreases |steps|
  {
    if steps == [] {
    } else {
      var step, rest, h := steps[0], steps[1..], s.running[i];
      assert steps == [step] + rest && ([step] + rest)[1..] == rest;
      RunCons(reg, s, step, rest, ok);
      var s', now := Apply(reg, s, step), Emission(reg, s, step);
      var later, todo := Trace(reg, s', rest, ok), TodoAt(After(reg, s', rest, ok), i);
      ByAppend(i, now, later);
      Regrouped(By(i, now), By(i, later), todo);
      if AnswersHandler(step, i) {
        OwnAnswer(h, step.stream, AnswersTo(i, rest));
        HandlerPerformsDrive(reg, s', rest, ok, i);
      } else {
        OtherStep(reg, s, step, i);
        SameToCome(h, s'.running[i], AnswersTo(i, rest));
        HandlerPerformsDrive(reg, s', rest, ok, i);
        assert [] + AnswersTo(i, rest) == AnswersTo(i, rest);
        Regrouped(By(i, now), s'.running[i].todo, ToCome(h, AnswersTo(i, rest)));
      }
    }
  }

  // ----- With good answers, everything reaches the consumer -----

  /** The texts of the string entries among queue items. */
  function Shown(items: seq<Item>): seq<string> {
    if items == [] then []
    else
      var last := items[|items| - 1];
      Shown(items[..|items| - 1]) + if last.Dict? && last.kind == "string" then [last.message] else []
  }

  /** The chunks of all answers of a run, in the order of the answers. */
  function AnswerTexts(steps: seq<Step>): seq<string> {
    if steps == [] then []
    else (if steps[0].Answer? then ChunkTexts(steps[0].stream) else []) + AnswerTexts(steps[1..])
  }

  /** The string entries that handlers still owe. */
  ghost function Owed(hs: seq<Handler>): seq<string> {
    if hs == [] then [] else Strings(hs[0].todo) + Owed(hs[1..])
  }

  lemma {:induction false} OwedAppend(hs: seq<Handler>, h: Handler)
    ensures Owed(hs + [h]) == Owed(hs) + Strings(h.todo)
  {
    if hs == [] {
      assert hs + [h] == [h];
    } else {
      assert (hs + [h])[1..] == hs[1..] + [h];
      OwedAppend(hs[1..], h);
    }
  }

  /** Only handler `i` has anything left to do. */
  ghost predicate OnlyBusy(hs: seq<Handler>, i: nat) {
    i < |hs| && forall j :: 0 <= j < |hs| && j != i ==> hs[j].todo == []
  }

  lemma {:induction false} OwedIdle(hs: seq<Handler>)
    requires forall j :: 0 <= j < |hs| ==> hs[j].todo == []
    ensures Owed(hs) == []
  {
    if hs == [] {
    } else {
      OwedIdle(hs[1..]);
    }
  }

  lemma {:induction false} OwedByOne(hs: seq<Handler>, i: nat)
    requires OnlyBusy(hs, i)
    ensures Owed(hs) == Strings(hs[i].todo)
  {
    if i == 0 {
      OwedIdle(hs[1..]);
    } else {
      assert hs[0].todo == [] && hs[1..][i - 1] == hs[i];
      OwedByOne(hs[1..], i - 1);
    }
  }

  lemma {:induction false} TokenHeldOnce(hs: seq<Handler>, i: nat, j: nat)
    requires i < |hs| && j < |hs| && i != j
    ensures HandlerTokens(hs[i]) + HandlerTokens(hs[j]) <= RunningTokens(hs)
    decreases |hs|
  {
    if i == 0 {
      RunningTokensUpdate(hs[1..], j - 1, hs[j]);
    } else if j == 0 {
      RunningTokensUpdate(hs[1..], i - 1, hs[i]);
    } else {
      TokenHeldOnce(hs[1..], i - 1, j - 1);
    }
  }

  /** In a state with one token, whoever holds it is the only one with work left. */
  lemma HolderIsBusy(s: State, i: nat)
    requires OneToken(s) && i < |s.running| && (Waiting(s.running[i]) || s.running[i].todo != [])
    ensures OnlyBusy(s.running, i)
  {
    ShapedTokens(s.running[i]);
    forall j | 0 <= j < |s.running| && j != i ensures s.running[j].todo == [] {
      TokenHeldOnce(s.running, i, j);
      ShapedTokens(s.running[j]);
    }
  }

  lemma ShownSnoc(items: seq<Item>, item: Item)
    ensures Shown(items + [item]) == Shown(items) + Strings([Put(item)])
  {
    assert (items + [item])[..|items|] == items;
    assert [Put(item)][1..] == [];
  }

  lemma OwedReplaced(hs: seq<Handler>, i: nat, h: Handler)
    requires OnlyBusy(hs, i)
    ensures Owed(hs[i := h]) == Strings(h.todo)
  {
    OwedByOne(hs[i := h], i);
  }

  lemma OwedAnswer(reg: Registry, s: State, i: nat, stream: seq<StreamItem>)
    requires OneToken(s) && Enabled(reg, s, Answer(i, stream))
    ensures Owed(s.running) == [] && Owed(Apply(reg, s, Answer(i, stream)).running) == ChunkTexts(stream)
  {
    HolderIsBusy(s, i);
    OwedByOne(s.running, i);
    AnswerStrings(reg, s, i, stream);
    OwedReplaced(s.running, i, Answered(s.running[i], stream));
  }

  lemma ShownPerform(s: State, e: Effect)
    ensures Shown(Perform(s, e).log) == Shown(s.log) + Strings([e]) && Perform(s, e).running == s.running
  {
    if e.Put? {
      ShownSnoc(s.log, e.item);
    } else {
      NoStrings([e]);
    }
  }

  lemma OwedEmit(reg: Registry, s: State, i: nat)
    requires OneToken(s) && Enabled(reg, s, Emit(i))
    ensures var s' := Apply(reg, s, Emit(i)); Shown(s'.log) + Owed(s'.running) == Shown(s.log) + Owed(s.running)
  {
    var h := s.running[i];
    var h' := h.(todo := h.todo[1..]);
    HolderIsBusy(s, i);
    OwedByOne(s.running, i);
    OwedReplaced(s.running, i, h');
    ShownPerform(s.(running := s.running[i := h']), h.todo[0]);
    StringsCons(h.todo);
    Regrouped(Shown(s.log), Strings([h.todo[0]]), Strings(h.todo[1..]));
  }

  lemma OwedStarted(hs: seq<Handler>, h: Handler)
    requires Stringless(h.todo)
    ensures Owed(hs + [h]) == Owed(hs)
  {
    OwedAppend(hs, h);
    NoStrings(h.todo);
  }

  lemma OwedStep(reg: Registry, s: State, step: Step)
    requires OneToken(s) && Enabled(reg, s, step)
    ensures var s' := Apply(reg, s, step);
      Shown(s'.log) + Owed(s'.running) ==
        Shown(s.log) + Owed(s.running) + if step.Answer? then ChunkTexts(step.stream) else []
  {
    match step
    case Start(p) => OwedStarted(s.running, AIHandler(reg[p.topic], [], Await(p.context)));
    case Save(_) => OwedStarted(s.running, UserHandler([Put(StreamDone)]));
    case Answer(i, stream) => OwedAnswer(reg, s, i, stream);
    case Emit(i) => OwedEmit(reg, s, i);
  }

  lemma AnswerTextsCons(step: Step, rest: seq<Step>)
    ensures AnswerTexts([step] + rest) == (if step.Answer? then ChunkTexts(step.stream) else []) + AnswerTexts(rest)
  {
    assert ([step] + rest)[1..] == rest;
  }

  lemma {:induction false} OwedRun(reg: Registry, s: State, steps: seq<Step>)
    requires OneToken(s) && Run(reg, s, steps, GoodAnswer)
    ensures var end := After(reg, s, steps, GoodAnswer);
      Shown(end.log) + Owed(end.running) == Shown(s.log) + Owed(s.running) + AnswerTexts(steps)
    decreases |steps|
  {
    if steps == [] {
    } else {
      var step, rest := steps[0], steps[1..];
      assert steps == [step] + rest;
      RunCons(reg, s, step, rest, GoodAnswer);
      OneTokenStep(reg, s, step);
      OwedStep(reg, s, step);
      OwedRun(reg, Apply(reg, s, step), rest);
      AnswerTextsCons(step, rest);
      Regrouped(
        Shown(s.log) + Owed(s.running), if step.Answer? then ChunkTexts(step.stream) else [], AnswerTexts(rest));
    }
  }

  lemma Begins(topic: string, context: Context)
    ensures OneToken(Requested(topic, context))
    ensures Shown(Requested(topic, context).log) + Owed(Requested(topic, context).running) == []
  {
    assert |multiset{Task(topic, context)}| == 1;
  }

  /**
   With good answers: once the consumer has stopped, the string entries it has yielded are exactly
   the chunks of all the model's answers, in the order of the answers.
   */
  lemma ConsumerSeesAllText(reg: Registry, topic: string, context: Context, steps: seq<Step>, yielded: seq<Item>)
    requires Run(reg, Requested(topic, context), steps, GoodAnswer)
    requires var log := After(reg, Requested(topic, context), steps, GoodAnswer).log;
      && yielded < log
      && (forall i :: 0 <= i < |yielded| ==> yielded[i] != StreamDone && !IsError(yielded[i]))
      && (log[|yielded|] == StreamDone || IsError(log[|yielded|]))
    ensures Shown(yielded) == AnswerTexts(steps)
  {
    var start := Requested(topic, context);
    var end := After(reg, start, steps, GoodAnswer);
    Begins(topic, context);
    OwedRun(reg, start, steps);
    ConsumerSeesWholeRun(reg, topic, context, steps, yielded);
    OneSentinel(reg, topic, context, steps);
    AllShown(reg, end, yielded);
  }

  /** At rest nothing is owed, so what was yielded before the sentinel is everything. */
  lemma AllShown(reg: Registry, end: State, yielded: seq<Item>)
    requires end.log == yielded + [StreamDone]
    requires StreamDone in end.log ==> forall step :: !Enabled(reg, end, step)
    ensures Shown(end.log) + Owed(end.running) == Shown(yielded)
  {
    assert StreamDone == end.log[|yielded|];
    forall j | 0 <= j < |end.running| ensures end.running[j].todo == [] {
      assert !Enabled(reg, end, Emit(j));
    }
    OwedIdle(end.running);
    ShownSnoc(yielded, StreamDone);
    NoStrings([Put(StreamDone)]);
  }
}
