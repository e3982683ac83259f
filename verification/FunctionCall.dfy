/** `FunctionCallMiddleware`: tools run before or after the inner agent, streaming or not. */
module FunctionCall {
  import opened Wrappers
  import opened ToolCalls

  /** The contents of a `ToolCallMessage`. */
  datatype ToolMessage = ToolMessage(calls: seq<ToolCall>, from: Option<string>, content: Option<string>)

  datatype Message =
    | ToolUpdate(update: Update)
    | Tools(tools: ToolMessage)
    | ToolResults(results: seq<ToolCall>, from: Option<string>)
    | Aggregate(request: ToolMessage, results: seq<ToolCall>, from: Option<string>)
    | Text(text: string, from: Option<string>)
    | TextUpdate(text: string, from: Option<string>)

  type FunctionMap = Option<map<string, string -> string>>

  predicate Has(functions: FunctionMap, name: string) { functions.Some? && name in functions.value }

  function Executed(functions: FunctionMap, c: ToolCall): ToolCall
    requires Has(functions, c.name)
  {
    ToolCall(c.name, c.args, c.id, Some(functions.value[c.name](c.args)))
  }

  /** The available calls, each with its result. */
  function Results(functions: FunctionMap, calls: seq<ToolCall>): seq<ToolCall> {
    if calls == [] then []
    else
      var last := calls[|calls| - 1];
      Results(functions, calls[..|calls| - 1]) + if Has(functions, last.name) then [Executed(functions, last)] else []
  }

  function AfterAgent(functions: FunctionMap, m: ToolMessage, agent: string): Result<Message> {
    var results := Results(functions, m.calls);
    if results == [] then Ok(Tools(m))
    else if m.from != Some(agent) then Err("The from property of the message is different")
    else Ok(Aggregate(m, results, Some(agent)))
  }

  /** One invocation of a function: its name and its arguments. */
  type Invocation = (string, string)

  /** The invocations that `calls` stand for, in order. */
  function Log(calls: seq<ToolCall>): seq<Invocation> {
    seq(|calls|, i requires 0 <= i < |calls| => (calls[i].name, calls[i].args))
  }

  lemma LogNext(functions: FunctionMap, calls: seq<ToolCall>, i: nat)
    requires i < |calls|
    ensures var c := calls[i];
      Log(Results(functions, calls[..i + 1])) ==
        Log(Results(functions, calls[..i])) + if Has(functions, c.name) then [(c.name, c.args)] else []
  {
    assert calls[..i + 1][..i] == calls[..i];
  }

  /** Calls that name a function of the map. */
  function Runnable(functions: FunctionMap): ToolCall -> bool {
    (c: ToolCall) => functions.Some? && c.name in functions.value
  }

  /** `r` is `c` with what its function returns for its arguments. */
  ghost predicate IsResultOf(functions: FunctionMap, c: ToolCall, r: ToolCall) {
    && functions.Some? && c.name in functions.value
    && r.name == c.name && r.args == c.args && r.id == c.id && r.result == Some(functions.value[c.name](c.args))
  }

  /** `results` are those of the runnable calls, one for each and in order. */
  ghost predicate AnswersRunnable(functions: FunctionMap, calls: seq<ToolCall>, results: seq<ToolCall>) {
    var run := Where(calls, Runnable(functions));
    |results| == |run| && forall j :: 0 <= j < |run| ==> IsResultOf(functions, run[j], results[j])
  }

  lemma {:induction false} ResultsAnswer(functions: FunctionMap, calls: seq<ToolCall>)
    ensures AnswersRunnable(functions, calls, Results(functions, calls))
    ensures Log(Results(functions, calls)) == Log(Where(calls, Runnable(functions)))
    decreases |calls|
  {
    var p := Runnable(functions);
    if calls == [] {
      WhereNone(p);
    } else {
      var front, c := calls[..|calls| - 1], calls[|calls| - 1];
      assert front + [c] == calls;
      ResultsAnswer(functions, front);
      WhereSnoc(front, c, p);
      if p(c) {
        assert Results(functions, calls) == Results(functions, front) + [Executed(functions, c)];
        assert Where(calls, p) == Where(front, p) + [c];
      } else {
        assert Results(functions, calls) == Results(functions, front);
        assert Where(calls, p) == Where(front, p);
      }
    }
  }

  /**
   What becomes of the inner agent's tool call message: it is passed on if none of its calls can be
   run; otherwise, if it is the agent's own, it comes back with the results; and else this fails.
   */
  ghost predicate RepliesTo(functions: FunctionMap, m: ToolMessage, agent: string, r: Result<Message>) {
    if Where(m.calls, Runnable(functions)) == [] then r == Ok(Tools(m))
    else if m.from == Some(agent) then
      && r.Ok? && r.value.Aggregate? && r.value.request == m && r.value.from == Some(agent)
      && AnswersRunnable(functions, m.calls, r.value.results)
    else r.Err?
  }

  lemma AfterAgentReplies(functions: FunctionMap, m: ToolMessage, agent: string)
    ensures RepliesTo(functions, m, agent, AfterAgent(functions, m, agent))
  {
    ResultsAnswer(functions, m.calls);
  }

  /** The loop over the calls of the inner agent's message; `ran` logs the invocations. */
  method RunCalls(functions: FunctionMap, calls: seq<ToolCall>) returns (results: seq<ToolCall>, ran: seq<Invocation>)
    ensures results == Results(functions, calls) && ran == Log(results)
  {
    results, ran := [], [];
    for i := 0 to |calls|
      invariant results == Results(functions, calls[..i]) && ran == Log(results)
    {
      assert calls[..i + 1][..i] == calls[..i];
      var c := calls[i];
      if Has(functions, c.name) {
        ran := ran + [(c.name, c.args)];
        results := results + [ToolCall(c.name, c.args, c.id, Some(functions.value[c.name](c.args)))];
      }
    }
    assert calls[..|calls|] == calls;
  }

  /** `InvokeToolCallMessagesAfterInvokingAgentAsync`; `ran` logs the invocations. */
  method InvokeAfterAgent(functions: FunctionMap, m: ToolMessage, agent: string)
    returns (r: Result<Message>, ran: seq<Invocation>)
    ensures r == AfterAgent(functions, m, agent) && RepliesTo(functions, m, agent, r)
    ensures ran == Log(Results(functions, m.calls)) == Log(Where(m.calls, Runnable(functions)))
  {
    AfterAgentReplies(functions, m, agent);
    ResultsAnswer(functions, m.calls);
    var results;
    results, ran := RunCalls(functions, m.calls);
    if |results| > 0 {
      if m.from != Some(agent) {
        r := Err("The from property of the message is different");
      } else {
        r := Ok(Aggregate(m, results, Some(agent)));
      }
    } else {
      r := Ok(Tools(m));
    }
  }

  /** Without a function map nothing runs. */
  lemma {:induction false} NothingAvailable(calls: seq<ToolCall>)
    ensures Results(None, calls) == []
    decreases |calls|
  {
    if calls == [] {
    } else {
      NothingAvailable(calls[..|calls| - 1]);
    }
  }

  /** What a call is answered with: its function's result, or an error text. */
  function Answer(functions: FunctionMap, unavailable: string -> string, c: ToolCall): string {
    if Has(functions, c.name) then functions.value[c.name](c.args) else unavailable(c.name)
  }

  /** Tools run for a tool call message that is the last input; unavailable ones get an error text. */
  function BeforeAgent(functions: FunctionMap, unavailable: string -> string, calls: seq<ToolCall>)
    : Result<seq<ToolCall>>
  {
    if calls == [] then Ok([])
    else if functions.None? then Err("FunctionMap is not available")
    else
      var c := calls[0];
      var r :=
        if c.name in functions.value then ToolCall(c.name, c.args, c.id, Some(functions.value[c.name](c.args)))
        else ToolCall(c.name, c.args, c.id, Some(unavailable(c.name)));
      match BeforeAgent(functions, unavailable, calls[1..])
      case Err(e) => Err(e)
      case Ok(rest) => Ok([r] + rest)
  }

  /** Every call of the last input is answered in place: same name, arguments and id, with a result or an error text. */
  lemma {:induction false} BeforeAnswersEveryCall(
      functions: FunctionMap, unavailable: string -> string, calls: seq<ToolCall>)
    ensures var r := BeforeAgent(functions, unavailable, calls);
      && (r.Ok? <==> calls == [] || functions.Some?)
      && (r.Ok? ==> |r.value| == |calls| && forall i :: 0 <= i < |calls| ==>
            r.value[i] == calls[i].(result := Some(Answer(functions, unavailable, calls[i]))))
  {
    if calls == [] {
    } else {
      BeforeAnswersEveryCall(functions, unavailable, calls[1..]);
    }
  }

  lemma AnsweredAll(
      functions: FunctionMap, unavailable: string -> string, calls: seq<ToolCall>, results: seq<ToolCall>)
    requires |results| == |calls| && (calls == [] || functions.Some?)
    requires forall i :: 0 <= i < |calls| ==>
      results[i] == calls[i].(result := Some(Answer(functions, unavailable, calls[i])))
    ensures BeforeAgent(functions, unavailable, calls) == Ok(results)
  {
    BeforeAnswersEveryCall(functions, unavailable, calls);
    assert results == BeforeAgent(functions, unavailable, calls).value;
  }

  /** `InvokeToolCallMessagesBeforeInvokingAgentAsync`; `ran` logs the invocations, one per available call. */
  method InvokeBeforeAgent(functions: FunctionMap, unavailable: string -> string, calls: seq<ToolCall>)
    returns (r: Result<seq<ToolCall>>, ran: seq<Invocation>)
    ensures r == BeforeAgent(functions, unavailable, calls)
    ensures ran == Log(Results(functions, calls)) == Log(Where(calls, Runnable(functions)))
  {
    r, ran := AnswerCalls(functions, unavailable, calls);
    ResultsAnswer(functions, calls);
  }

  method AnswerCalls(functions: FunctionMap, unavailable: string -> string, calls: seq<ToolCall>)
    returns (r: Result<seq<ToolCall>>, ran: seq<Invocation>)
    ensures r == BeforeAgent(functions, unavailable, calls) && ran == Log(Results(functions, calls))
  {
    var results: seq<ToolCall> := [];
    ran := [];
    for i := 0 to |calls|
      invariant ran == Log(Results(functions, calls[..i]))
      invariant |results| == i && (i > 0 ==> functions.Some?)
      invariant forall j :: 0 <= j < i ==>
        results[j] == calls[j].(result := Some(Answer(functions, unavailable, calls[j])))
    {
      LogNext(functions, calls, i);
      var c := calls[i];
      if Has(functions, c.name) {
        ran := ran + [(c.name, c.args)];
        results := results + [ToolCall(c.name, c.args, c.id, Some(functions.value[c.name](c.args)))];
      } else if functions.Some? {
        results := results + [ToolCall(c.name, c.args, c.id, Some(unavailable(c.name)))];
      } else {
        NothingAvailable(calls);
        NothingAvailable(calls[..i]);
        return Err("FunctionMap is not available"), ran;
      }
    }
    assert calls[..|calls|] == calls;
    AnsweredAll(functions, unavailable, calls, results);
    r := Ok(results);
  }

  /** The middleware's configuration: its function map, its error text, and the inner agent's name. */
  datatype Config = Config(functions: FunctionMap, unavailable: string -> string, agent: string)

  function ShortCut(k: Config, calls: seq<ToolCall>): Result<Message> {
    match BeforeAgent(k.functions, k.unavailable, calls)
    case Err(e) => Err(e)
    case Ok(results) => Ok(ToolResults(results, Some(k.agent)))
  }

  /** The non-streaming form, given the last input and the inner agent's reply. */
  function Invoke(k: Config, last: Message, reply: Message): Result<Message> {
    if last.Tools? then ShortCut(k, last.tools.calls)
    else if reply.Tools? then AfterAgent(k.functions, reply.tools, k.agent)
    else Ok(reply)
  }

  /** The non-streaming form: the last input's calls are answered, or the inner agent's reply is. */
  lemma InvokeReplies(k: Config, last: Message, reply: Message)
    ensures var r := Invoke(k, last, reply);
      && (last.Tools? ==>
            var calls := last.tools.calls;
            && (r.Ok? <==> calls == [] || k.functions.Some?)
            && (r.Ok? ==>
                  && r.value.ToolResults? && r.value.from == Some(k.agent) && |r.value.results| == |calls|
                  && forall i :: 0 <= i < |calls| ==>
                       r.value.results[i] == calls[i].(result := Some(Answer(k.functions, k.unavailable, calls[i])))))
      && (!last.Tools? && reply.Tools? ==> RepliesTo(k.functions, reply.tools, k.agent, r))
      && (!last.Tools? && !reply.Tools? ==> r == Ok(reply))
  {
    if last.Tools? {
      BeforeAnswersEveryCall(k.functions, k.unavailable, last.tools.calls);
    } else if reply.Tools? {
      AfterAgentReplies(k.functions, reply.tools, k.agent);
    }
  }

  // ----- The streaming form -----

  datatype Output = Output(yielded: seq<Message>, error: Option<string>)

  /** What the loop over the inner stream yields, and the tool call message it has merged. */
  datatype Consumed = Consumed(yielded: seq<Message>, merged: Option<ToolMessage>, error: Option<string>)

  /** One message of the inner stream. */
  function Take(functions: FunctionMap, merged: Option<ToolMessage>, m: Message): Consumed {
    if m.ToolUpdate? && functions.Some? then
      var u := m.update;
      if merged.None? then Consumed([], Some(ToolMessage(Absorb([], u), u.from, None)), None)
      else if u.from != merged.value.from then Consumed([], merged, Some("From mismatch"))
      else Consumed([], Some(merged.value.(calls := Absorb(merged.value.calls, u))), None)
    else if m.Tools? then Consumed([], Some(m.tools), None)
    else Consumed([m], merged, None)
  }

  function Consume(functions: FunctionMap, merged: Option<ToolMessage>, inner: seq<Message>): Consumed
    decreases |inner|
  {
    if inner == [] then Consumed([], merged, None)
    else
      var one := Take(functions, merged, inner[0]);
      if one.error.Some? then one
      else
        var rest := Consume(functions, one.merged, inner[1..]);
        rest.(yielded := one.yielded + rest.yielded)
  }

  /** The part after the short cut, which runs whether or not there was one. */
  function StreamInner(k: Config, inner: seq<Message>): Output {
    var c := Consume(k.functions, None, inner);
    if c.error.Some? || c.merged.None? then Output(c.yielded, c.error)
    else
      match AfterAgent(k.functions, c.merged.value, k.agent)
      case Err(e) => Output(c.yielded, Some(e))
      case Ok(m) => Output(c.yielded + [m], None)
  }

  /** What runs after the inner agent: the available calls of the merged message. */
  function InnerLog(k: Config, inner: seq<Message>): seq<Invocation> {
    var c := Consume(k.functions, None, inner);
    if c.error.Some? || c.merged.None? then [] else Log(Results(k.functions, c.merged.value.calls))
  }

  function InvokeStreaming(k: Config, last: Message, inner: seq<Message>): Output {
    var rest := StreamInner(k, inner);
    if !last.Tools? then rest
    else
      match ShortCut(k, last.tools.calls)
      case Err(e) => Output([], Some(e))
      case Ok(m) => Output([m] + rest.yielded, rest.error)
  }

  function StreamingLog(k: Config, last: Message, inner: seq<Message>): seq<Invocation> {
    var rest := InnerLog(k, inner);
    if !last.Tools? then rest
    else if ShortCut(k, last.tools.calls).Err? then []
    else Log(Results(k.functions, last.tools.calls)) + rest
  }

  ghost function ValueOf(m: ToolCallMessage?, content: Option<string>): Option<ToolMessage>
    reads m
  {
    if m == null then None else Some(ToolMessage(m.calls, m.from, content))
  }

  /** One message of the inner stream, with the merged message an object updated in place. */
  method TakeInto(functions: FunctionMap, before: ToolCallMessage?, kept: Option<string>, message: Message)
    returns (merged: ToolCallMessage?, content: Option<string>, yielded: seq<Message>, error: Option<string>)
    modifies before
    ensures Consumed(yielded, ValueOf(merged, content), error) == Take(functions, old(ValueOf(before, kept)), message)
    ensures merged != null ==> merged == before || fresh(merged)
  {
    merged, content, yielded, error := before, kept, [], None;
    if message.ToolUpdate? && functions.Some? {
      if merged == null {
        merged := new ToolCallMessage.FromUpdate(message.update);
        content := None;
      } else {
        var ok := merged.Apply(message.update);
        if !ok {
          error := Some("From mismatch");
        }
      }
    } else if message.Tools? {
      merged := new ToolCallMessage(message.tools.calls, message.tools.from);
      content := message.tools.content;
    } else {
      yielded := [message];
    }
  }

  method ConsumeLoop(functions: FunctionMap, inner: seq<Message>)
    returns (merged: ToolCallMessage?, content: Option<string>, yielded: seq<Message>, error: Option<string>)
    ensures Consumed(yielded, ValueOf(merged, content), error) == Consume(functions, None, inner)
    ensures merged != null ==> fresh(merged)
  {
    merged, content, yielded, error := null, None, [], None;
    ghost var whole, state := Consume(functions, None, inner), None;
    for i := 0 to |inner|
      invariant error.None? && (merged != null ==> fresh(merged)) && state == ValueOf(merged, content)
      invariant var rest := Consume(functions, state, inner[i..]);
        whole == Consumed(yielded + rest.yielded, rest.merged, rest.error)
    {
      ConsumeCons(functions, state, inner[i], inner[i..], inner[i + 1..]);
      var more;
      merged, content, more, error := TakeInto(functions, merged, content, inner[i]);
      yielded, state := yielded + more, ValueOf(merged, content);
      if error.Some? {
        return;
      }
    }
  }

  lemma ConsumeCons(
      functions: FunctionMap, merged: Option<ToolMessage>, m: Message, inner: seq<Message>, rest: seq<Message>)
    requires inner == [m] + rest
    ensures var one := Take(functions, merged, m);
      Consume(functions, merged, inner) ==
        if one.error.Some? then one
        else
          var c := Consume(functions, one.merged, rest);
          Consumed(one.yielded + c.yielded, c.merged, c.error)
  {
    assert inner[1..] == rest;
  }

  /** The part after the short cut; `ran` logs the invocations. */
  method StreamLoop(k: Config, inner: seq<Message>)
    returns (yielded: seq<Message>, error: Option<string>, ran: seq<Invocation>)
    ensures Output(yielded, error) == StreamInner(k, inner) && ran == InnerLog(k, inner)
  {
    var merged, content;
    ran := [];
    merged, content, yielded, error := ConsumeLoop(k.functions, inner);
    if error.None? && merged != null {
      var r;
      r, ran := InvokeAfterAgent(k.functions, ToolMessage(merged.calls, merged.from, content), k.agent);
      match r {
        case Err(e) => error := Some(e);
        case Ok(m) => yielded := yielded + [m];
      }
    }
  }

  /** The whole streaming form: after the short cut has yielded, the inner agent's stream is read all the same. */
  method InvokeAsStream(k: Config, last: Message, inner: seq<Message>)
    returns (yielded: seq<Message>, error: Option<string>, ran: seq<Invocation>)
    ensures Output(yielded, error) == InvokeStreaming(k, last, inner) && ran == StreamingLog(k, last, inner)
  {
    var first: seq<Message>, before: seq<Invocation> := [], [];
    if last.Tools? {
      var r;
      r, before := InvokeBeforeAgent(k.functions, k.unavailable, last.tools.calls);
      match r {
        case Err(e) =>
          BeforeAnswersEveryCall(k.functions, k.unavailable, last.tools.calls);
          NothingAvailable(last.tools.calls);
          return [], Some(e), before;
        case Ok(results) => first := [ToolResults(results, Some(k.agent))];
      }
    }
    yielded, error, ran := StreamLoop(k, inner);
    yielded, ran := first + yielded, before + ran;
  }

  /** Messages the middleware passes on: all but whole tool calls and, with a function map, their updates. */
  function PassedOn(functions: FunctionMap): Message -> bool {
    (m: Message) => !m.Tools? && !(m.ToolUpdate? && functions.Some?)
  }

  lemma TakePasses(functions: FunctionMap, merged: Option<ToolMessage>, m: Message)
    ensures Take(functions, merged, m).yielded == if PassedOn(functions)(m) then [m] else []
  {
  }

  lemma {:induction false} OthersPassedOn(functions: FunctionMap, inner: seq<Message>)
    requires Consume(functions, None, inner).error.None?
    ensures Consume(functions, None, inner).yielded == Where(inner, PassedOn(functions))
    decreases |inner|
  {
    var p := PassedOn(functions);
    if inner == [] {
      WhereNone(p);
    } else {
      var front, m := inner[..|inner| - 1], inner[|inner| - 1];
      assert front + [m] == inner;
      ConsumePrefix(functions, None, front, [m]);
      OthersPassedOn(functions, front);
      var c := Consume(functions, None, front);
      ConsumeSnoc(functions, None, front, m);
      TakePasses(functions, c.merged, m);
      WhereSnoc(front, m, p);
    }
  }

  /** A failure does not go away. */
  lemma {:induction false} ConsumePrefix(
      functions: FunctionMap, merged: Option<ToolMessage>, front: seq<Message>, rest: seq<Message>)
    ensures Consume(functions, merged, front).error.Some? ==>
      Consume(functions, merged, front + rest).error == Consume(functions, merged, front).error
    decreases |front|
  {
    if front == [] {
    } else {
      assert (front + rest)[1..] == front[1..] + rest && (front + rest)[0] == front[0];
      ConsumePrefix(functions, Take(functions, merged, front[0]).merged, front[1..], rest);
    }
  }

  /** The calls with all updates absorbed, in order. */
  function AbsorbAll(calls: seq<ToolCall>, us: seq<Update>): seq<ToolCall> {
    if us == [] then calls else Absorb(AbsorbAll(calls, us[..|us| - 1]), us[|us| - 1])
  }

  /** A whole tool call message replaces what was merged before, and the updates after it extend it. */
  lemma {:induction false} WholeThenUpdates(
      functions: FunctionMap, pre: seq<Message>, t: ToolMessage, rest: seq<Message>)
    requires functions.Some? && Consume(functions, None, pre).error.None?
    requires forall i :: 0 <= i < |rest| ==> !rest[i].Tools? && (rest[i].ToolUpdate? ==> rest[i].update.from == t.from)
    ensures var c := Consume(functions, None, pre + [Tools(t)] + rest);
      c.error.None? && c.merged == Some(t.(calls := AbsorbAll(t.calls, Updates(rest))))
    decreases |rest|
  {
    var whole := pre + [Tools(t)];
    if rest == [] {
      ConsumeSnoc(functions, None, pre, Tools(t));
      assert whole + [] == whole;
    } else {
      var front, m := rest[..|rest| - 1], rest[|rest| - 1];
      WholeThenUpdates(functions, pre, t, front);
      ConsumeSnoc(functions, None, whole + front, m);
      assert whole + front + [m] == whole + rest;
      var us := Updates(front);
      if m.ToolUpdate? {
        assert (us + [m.update])[..|us|] == us;
        assert Updates(rest) == us + [m.update];
      } else {
        assert Updates(rest) == us;
      }
    }
  }

  /** An update from somebody else than the merged message's sender makes the stream fail. */
  lemma StrangerFails(functions: FunctionMap, pre: seq<Message>, u: Update, rest: seq<Message>)
    requires functions.Some? && Consume(functions, None, pre).error.None?
    requires Consume(functions, None, pre).merged.Some? && Consume(functions, None, pre).merged.value.from != u.from
    ensures Consume(functions, None, pre + [ToolUpdate(u)] + rest).error.Some?
  {
    ConsumeSnoc(functions, None, pre, ToolUpdate(u));
    ConsumePrefix(functions, None, pre + [ToolUpdate(u)], rest);
  }

  /** The stream ends with what becomes of the merged message, whose runnable calls run once and in order. */
  lemma StreamReplies(k: Config, inner: seq<Message>, merged: ToolMessage) returns (r: Result<Message>)
    requires var c := Consume(k.functions, None, inner); c.error.None? && c.merged == Some(merged)
    ensures RepliesTo(k.functions, merged, k.agent, r) && EndsAs(StreamInner(k, inner), r)
    ensures InnerLog(k, inner) == Log(Where(merged.calls, Runnable(k.functions)))
  {
    r := AfterAgent(k.functions, merged, k.agent);
    AfterAgentReplies(k.functions, merged, k.agent);
    StreamEnds(k, inner, merged);
    ResultsAnswer(k.functions, merged.calls);
  }

  /** A merged message is replaced or extended, but never dropped. */
  lemma {:induction false} MergedStays(functions: FunctionMap, merged: Option<ToolMessage>, inner: seq<Message>)
    requires merged.Some? && Consume(functions, merged, inner).error.None?
    ensures Consume(functions, merged, inner).merged.Some?
    decreases |inner|
  {
    if inner == [] {
    } else {
      MergedStays(functions, Take(functions, merged, inner[0]).merged, inner[1..]);
    }
  }

  /** Every message of the inner stream leaves a trace: it is yielded, kept for the end, or makes the stream fail. */
  lemma SilentExactlyWhenEmpty(k: Config, inner: seq<Message>)
    ensures StreamInner(k, inner) == Output([], None) <==> inner == []
  {
    if inner != [] {
      var one := Take(k.functions, None, inner[0]);
      if one.error.None? && one.merged.Some? && Consume(k.functions, one.merged, inner[1..]).error.None? {
        MergedStays(k.functions, one.merged, inner[1..]);
      }
    }
  }

  /**
   With a tool call as last input the streaming form fails as the non-streaming one does, without
   running the inner agent. Otherwise it yields the non-streaming reply and then what the inner
   agent's stream gives; so it short-cuts, as documented, exactly when that stream is empty.
   */
  lemma ShortCutExactlyWhenInnerEmpty(k: Config, last: Message, reply: Message, inner: seq<Message>)
    requires last.Tools?
    ensures var out := InvokeStreaming(k, last, inner);
      match Invoke(k, last, reply)
      case Err(e) => out == Output([], Some(e)) && StreamingLog(k, last, inner) == []
      case Ok(m) =>
        && out == Output([m] + StreamInner(k, inner).yielded, StreamInner(k, inner).error)
        && StreamingLog(k, last, inner) == Log(Where(last.tools.calls, Runnable(k.functions))) + InnerLog(k, inner)
        && (out == Output([m], None) <==> inner == [])
  {
    SilentExactlyWhenEmpty(k, inner);
    ResultsAnswer(k.functions, last.tools.calls);
    var r := Invoke(k, last, reply);
    if r.Ok? {
      assert |[r.value] + StreamInner(k, inner).yielded| == 1 + |StreamInner(k, inner).yielded|;
    }
  }

  // ----- Streaming equals not streaming, up to ids -----

  function EraseId(c: ToolCall): ToolCall { c.(id := None) }

  function EraseIds(calls: seq<ToolCall>): seq<ToolCall> {
    seq(|calls|, i requires 0 <= i < |calls| => EraseId(calls[i]))
  }

  function Erased(r: Result<Message>): Result<Message> {
    match r
    case Ok(Tools(m)) => Ok(Tools(m.(calls := EraseIds(m.calls))))
    case Ok(Aggregate(m, results, from)) => Ok(Aggregate(m.(calls := EraseIds(m.calls)), EraseIds(results), from))
    case _ => r
  }

  /** The updates of a stream. */
  function Updates(inner: seq<Message>): seq<Update> {
    if inner == [] then []
    else Updates(inner[..|inner| - 1]) +
         if inner[|inner| - 1].ToolUpdate? then [inner[|inner| - 1].update] else []
  }

  /**
   `inner` streams `m` in fragments: its updates, all from m's sender, name m's calls in order of
   first use and join to their arguments. Fragments of different calls may interleave, and
   messages other than tool calls may occur anywhere.
   */
  ghost predicate Fragmented(m: ToolMessage, inner: seq<Message>) {
    && m.calls != [] && m.content.None?
    && (forall i :: 0 <= i < |inner| ==> !inner[i].Tools? && (inner[i].ToolUpdate? ==> inner[i].update.from == m.from))
    && |Names(Updates(inner))| == |m.calls|
    && forall i :: 0 <= i < |m.calls| ==>
         && m.calls[i].result.None?
         && Names(Updates(inner))[i] == m.calls[i].name
         && Joined(Updates(inner), m.calls[i].name).args == m.calls[i].args
  }

  lemma {:induction false} ConsumeSnoc(
      functions: FunctionMap, merged: Option<ToolMessage>, inner: seq<Message>, m: Message)
    requires Consume(functions, merged, inner).error.None?
    ensures var c := Consume(functions, merged, inner);
      var d := Take(functions, c.merged, m);
      Consume(functions, merged, inner + [m]) == Consumed(c.yielded + d.yielded, d.merged, d.error)
    decreases |inner|
  {
    if inner == [] {
      assert inner + [m] == [m] && [m][1..] == [];
      var d := Take(functions, merged, m);
      assert d.yielded + [] == d.yielded && [] + d.yielded == d.yielded;
    } else {
      assert (inner + [m])[1..] == inner[1..] + [m];
      ConsumeSnoc(functions, Take(functions, merged, inner[0]).merged, inner[1..], m);
    }
  }

  /** Updates from one sender merge into the fold of the updates. */
  lemma {:induction false} ConsumeFolds(functions: FunctionMap, inner: seq<Message>, from: Option<string>)
    requires functions.Some?
    requires forall i :: 0 <= i < |inner| ==>
      !inner[i].Tools? && (inner[i].ToolUpdate? ==> inner[i].update.from == from)
    ensures var c, us := Consume(functions, None, inner), Updates(inner);
      c.error.None? && c.merged == if us == [] then None else Some(ToolMessage(Folded(us), from, None))
    decreases |inner|
  {
    if inner == [] {
    } else {
      var front, last := inner[..|inner| - 1], inner[|inner| - 1];
      ConsumeFolds(functions, front, from);
      ConsumeSnoc(functions, None, front, last);
      assert front + [last] == inner;
      var us := Updates(front);
      if last.ToolUpdate? {
        assert Updates(inner) == us + [last.update] && (us + [last.update])[..|us|] == us;
        assert Folded(Updates(inner)) == Absorb(Folded(us), last.update);
      } else {
        assert Updates(inner) == us;
      }
    }
  }

  lemma {:induction false} ResultsErased(functions: FunctionMap, calls: seq<ToolCall>)
    ensures EraseIds(Results(functions, calls)) == Results(functions, EraseIds(calls))
    ensures |Results(functions, calls)| == |Results(functions, EraseIds(calls))|
    decreases |calls|
  {
    if calls == [] {
    } else {
      ResultsErased(functions, calls[..|calls| - 1]);
      assert EraseIds(calls)[..|calls| - 1] == EraseIds(calls[..|calls| - 1]);
    }
  }

  lemma AfterAgentErased(functions: FunctionMap, m: ToolMessage, agent: string)
    ensures AfterAgent(functions, m.(calls := EraseIds(m.calls)), agent) == Erased(AfterAgent(functions, m, agent))
  {
    ResultsErased(functions, m.calls);
  }

  /** What the stream ends with is `r`: its message comes last, or its failure ends the stream. */
  ghost predicate EndsAs(out: Output, r: Result<Message>) {
    match r
    case Ok(m) => out.error.None? && out.yielded != [] && out.yielded[|out.yielded| - 1] == m
    case Err(e) => out.error == Some(e)
  }

  lemma StreamEnds(k: Config, inner: seq<Message>, merged: ToolMessage)
    requires var c := Consume(k.functions, None, inner); c.error.None? && c.merged == Some(merged)
    ensures EndsAs(StreamInner(k, inner), AfterAgent(k.functions, merged, k.agent))
  {
  }

  /** The fragments of a message fold into its calls, up to ids. */
  lemma FragmentsFold(m: ToolMessage, inner: seq<Message>)
    requires Fragmented(m, inner)
    ensures Folded(Updates(inner)) == EraseIds(m.calls)
  {
    var us := Updates(inner);
    FoldGathers(us);
    forall i | 0 <= i < |m.calls| ensures Folded(us)[i] == EraseId(m.calls[i]) {
      assert Folded(us)[i] == Joined(us, Names(us)[i]);
    }
  }

  /** After the stream, the merged message is the original one, up to ids. */
  lemma FragmentsMerge(functions: FunctionMap, m: ToolMessage, inner: seq<Message>)
    requires functions.Some? && Fragmented(m, inner)
    ensures var c := Consume(functions, None, inner);
      c.error.None? && c.merged == Some(m.(calls := EraseIds(m.calls)))
  {
    FragmentsFold(m, inner);
    ConsumeFolds(functions, inner, m.from);
    assert Updates(inner) == [] ==> Folded(Updates(inner)) == [];
  }

  /**
   For any fragmentation of a tool call message, streaming ends with the non-streaming reply up
   to tool-call ids; and it fails exactly when the non-streaming form does.
   */
  lemma StreamingMatchesReply(k: Config, last: Message, m: ToolMessage, inner: seq<Message>)
    requires k.functions.Some? && !last.Tools? && Fragmented(m, inner)
    ensures EndsAs(InvokeStreaming(k, last, inner), Erased(Invoke(k, last, Tools(m))))
  {
    FragmentsMerge(k.functions, m, inner);
    AfterAgentErased(k.functions, m, k.agent);
    StreamEnds(k, inner, m.(calls := EraseIds(m.calls)));
  }

  /** The stream that carries each call whole, in order. */
  function Whole(calls: seq<ToolCall>, from: Option<string>): seq<Message> {
    seq(|calls|, i requires 0 <= i < |calls| => ToolUpdate(Update(calls[i].name, calls[i].args, from)))
  }

  ghost predicate DistinctNames(calls: seq<ToolCall>) {
    forall i, j :: 0 <= i < j < |calls| ==> calls[i].name != calls[j].name
  }

  lemma {:induction false} WholeUpdates(calls: seq<ToolCall>, from: Option<string>)
    ensures |Updates(Whole(calls, from))| == |calls|
    ensures forall i :: 0 <= i < |calls| ==>
      Updates(Whole(calls, from))[i] == Update(calls[i].name, calls[i].args, from)
    decreases |calls|
  {
    if calls == [] {
    } else {
      WholeUpdates(calls[..|calls| - 1], from);
      assert Whole(calls, from)[..|calls| - 1] == Whole(calls[..|calls| - 1], from);
    }
  }

  ghost predicate DistinctUses(us: seq<Update>) {
    forall i, j :: 0 <= i < j < |us| ==> us[i].name != us[j].name
  }

  lemma DistinctUsesSnoc(us: seq<Update>, u: Update)
    ensures DistinctUses(us + [u]) <==> DistinctUses(us) && u.name !in Names(us)
  {
    NamesUsed(us, u.name);
    var i := FirstUse(us, u.name);
    if i < |us| {
      assert (us + [u])[i].name == (us + [u])[|us|].name;
    } else {
      assert forall i :: 0 <= i < |us| ==> us[i] == (us + [u])[i];
    }
  }

  /** There are as many names as updates exactly when no name is used twice; then they are the updates' names. */
  lemma {:induction false} NamesCount(us: seq<Update>)
    ensures |Names(us)| <= |us|
    ensures |Names(us)| == |us| <==> DistinctUses(us)
    ensures |Names(us)| == |us| ==> forall i :: 0 <= i < |us| ==> Names(us)[i] == us[i].name
  {
    if us == [] {
    } else {
      var front, last := us[..|us| - 1], us[|us| - 1];
      NamesCount(front);
      DistinctUsesSnoc(front, last);
      assert front + [last] == us;
    }
  }

  lemma {:induction false} FragmentOnce(us: seq<Update>, i: nat)
    requires i < |us| && forall j :: 0 <= j < |us| && j != i ==> us[j].name != us[i].name
    ensures Joined(us, us[i].name).args == us[i].args
    decreases |us|
  {
    var n := |us| - 1;
    var front, u := us[..n], us[n];
    assert us == front + [u];
    JoinedSnoc(front, u, us[i].name);
    if i < n {
      FragmentOnce(front, i);
    } else {
      NamesUsed(front, u.name);
      assert FirstUse(front, u.name) == n;
      assert Joined(front, u.name).args == "" && "" + u.args == u.args;
    }
  }

  /** The message can be carried by updates, which have neither a text nor results. */
  ghost predicate Carriable(m: ToolMessage) {
    && m.calls != [] && m.content.None? && DistinctNames(m.calls)
    && forall i :: 0 <= i < |m.calls| ==> m.calls[i].result.None?
  }

  lemma WholeFragments(m: ToolMessage)
    requires Carriable(m)
    ensures Fragmented(m, Whole(m.calls, m.from))
  {
    var us := Updates(Whole(m.calls, m.from));
    WholeUpdates(m.calls, m.from);
    NamesCount(us);
    assert forall i :: 0 <= i < |us| ==> us[i].name == m.calls[i].name;
    forall i | 0 <= i < |m.calls| ensures Joined(us, m.calls[i].name).args == m.calls[i].args {
      FragmentOnce(us, i);
    }
  }

  /** Without a function map the updates are passed on. */
  lemma {:induction false} UpdatesPassed(inner: seq<Message>)
    requires forall i :: 0 <= i < |inner| ==> !inner[i].Tools?
    ensures Consume(None, None, inner) == Consumed(inner, None, None)
    decreases |inner|
  {
    if inner == [] {
    } else {
      UpdatesPassed(inner[1..]);
      assert [inner[0]] + inner[1..] == inner;
    }
  }

  /** The tool call message a reply carries. */
  function RequestOf(m: Message): Option<ToolMessage> {
    if m.Tools? then Some(m.tools) else if m.Aggregate? then Some(m.request) else None
  }

  lemma RequestKept(functions: FunctionMap, m: ToolMessage, agent: string)
    requires m.from == Some(agent)
    ensures var r := AfterAgent(functions, m, agent);
      r.Ok? && RequestOf(r.value) == Some(m) && RequestOf(Erased(r).value) == Some(m.(calls := EraseIds(m.calls)))
  {
  }

  /** If the whole calls fold into the calls themselves, no name occurs twice and no result was set. */
  lemma FoldedWhole(calls: seq<ToolCall>, from: Option<string>)
    requires Folded(Updates(Whole(calls, from))) == EraseIds(calls)
    ensures DistinctNames(calls) && forall i :: 0 <= i < |calls| ==> calls[i].result.None?
  {
    var us := Updates(Whole(calls, from));
    WholeUpdates(calls, from);
    FoldGathers(us);
    NamesCount(us);
    assert |EraseIds(calls)| == |calls|;
    forall i, j | 0 <= i < j < |calls| ensures calls[i].name != calls[j].name {
      assert us[i].name != us[j].name;
    }
    forall i | 0 <= i < |calls| ensures calls[i].result.None? {
      assert EraseIds(calls)[i] == Joined(us, Names(us)[i]);
    }
  }

  lemma MatchMeansCarriable(k: Config, last: Message, m: ToolMessage)
    requires !last.Tools? && m.from == Some(k.agent) && k.functions.Some? && m.calls != []
    requires EndsAs(InvokeStreaming(k, last, Whole(m.calls, m.from)), Erased(Invoke(k, last, Tools(m))))
    ensures Carriable(m)
  {
    var inner := Whole(m.calls, m.from);
    WholeUpdates(m.calls, m.from);
    ConsumeFolds(k.functions, inner, m.from);
    var merged := ToolMessage(Folded(Updates(inner)), m.from, None);
    StreamEnds(k, inner, merged);
    RequestKept(k.functions, merged, k.agent);
    RequestKept(k.functions, m, k.agent);
    FoldedWhole(m.calls, m.from);
  }

  /**
   The stream that carries each call whole and in order ends with the non-streaming reply, up to
   ids, exactly when there is a function map and a call, no name is called twice, and the message
   has neither a text nor results.
   */
  lemma WholeMatchesExactlyWhenDistinct(k: Config, last: Message, m: ToolMessage)
    requires !last.Tools? && m.from == Some(k.agent)
    ensures EndsAs(InvokeStreaming(k, last, Whole(m.calls, m.from)), Erased(Invoke(k, last, Tools(m)))) <==>
      k.functions.Some? && Carriable(m)
  {
    var inner := Whole(m.calls, m.from);
    RequestKept(k.functions, m, k.agent);
    if k.functions.None? {
      UpdatesPassed(inner);
    } else if m.calls == [] {
      assert inner == [];
    } else if Carriable(m) {
      WholeFragments(m);
      StreamingMatchesReply(k, last, m, inner);
    } else if EndsAs(InvokeStreaming(k, last, inner), Erased(Invoke(k, last, Tools(m)))) {
      MatchMeansCarriable(k, last, m);
    }
  }
}
