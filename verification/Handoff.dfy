/**
 The hand-off sample: agents answer a task by running tools, by delegating it to other
 agents, or by publishing a final response to the user agent, which then puts an
 end-of-stream sentinel on the queue that the HTTP handler reads.
 */
module Handoff {
  import opened Wrappers

  datatype FunctionCall = FunctionCall(id: string, name: string, arguments: string)

  datatype ExecutionResult = ExecutionResult(callId: string, content: string, name: string)

  datatype LLMMessage =
    | UserMessage(content: string)
    | AssistantText(text: string, source: string)
    | AssistantCalls(calls: seq<FunctionCall>, source: string)
    | ExecutionResults(results: seq<ExecutionResult>)

  type Context = seq<LLMMessage>

  /** The content of a completion: a string, or a list of function calls. */
  datatype Content = Text(text: string) | Calls(calls: seq<FunctionCall>)

  /** What `create_stream` yields: string chunks and completions. */
  datatype StreamItem = Chunk(text: string) | Completion(content: Content)

  /** What is put on the response queue. */
  datatype Item = Dict(kind: string, message: string) | Raw(text: string) | StreamDone

  /**
   An agent registered under its topic. A tool maps JSON arguments to its string result and
   raises on None; `parses` says which argument strings `json.loads` accepts.
   */
  datatype Agent = Agent(
    topic: string,
    tools: map<string, string -> Option<string>>,
    delegates: map<string, string -> Option<string>>,
    parses: string -> bool)

  datatype Effect =
    | Put(item: Item)
    | Delegate(topic: string, context: Context)
    | Respond(context: Context)

  /** Where a handler stands once its pending effects are done. */
  datatype Control = Await(context: Context) | Stop

  // ----- One answer of the model -----

  /** The queue entries for the string chunks of a stream. */
  function ChunkPuts(stream: seq<StreamItem>): seq<Effect> {
    if stream == [] then []
    else
      var last := stream[|stream| - 1];
      ChunkPuts(stream[..|stream| - 1]) +
      (if last.Chunk? then [Put(Dict("string", last.text))] else [])
  }

  /** The last completion of a stream, which overwrites earlier ones. */
  function FinalResponse(stream: seq<StreamItem>): Option<Content> {
    if stream == [] then None
    else
      var last := stream[|stream| - 1];
      if last.Completion? then Some(last.content) else FinalResponse(stream[..|stream| - 1])
  }

  /** What the loop over the calls of one response has gathered. */
  datatype Round = Round(
    puts: seq<Effect>,
    results: seq<ExecutionResult>,
    targets: seq<(string, Context)>,
    failed: bool)

  function Transfer(call: FunctionCall, topic: string, source: string): Context {
    [AssistantCalls([call], source),
     ExecutionResults([
       ExecutionResult(call.id, "Transferred to " + topic + ". Adopt persona immediately.", call.name)])]
  }

  function ProcessCall(a: Agent, context: Context, r: Round, call: FunctionCall): Round {
    if !a.parses(call.arguments) then r.(failed := true)
    else
      var r := r.(puts := r.puts + [Put(Dict("function", "Executing " + call.name))]);
      if call.name in a.tools then
        match a.tools[call.name](call.arguments)
        case None => r.(failed := true)
        case Some(result) => r.(results := r.results + [ExecutionResult(call.id, result, call.name)])
      else if call.name in a.delegates then
        match a.delegates[call.name](call.arguments)
        case None => r.(failed := true)
        case Some(topic) => r.(targets := r.targets + [(topic, context + Transfer(call, topic, a.topic))])
      else r.(failed := true)
  }

  function ProcessCalls(a: Agent, context: Context, calls: seq<FunctionCall>): Round {
    if calls == [] then Round([], [], [], false)
    else
      var r := ProcessCalls(a, context, calls[..|calls| - 1]);
      if r.failed then r else ProcessCall(a, context, r, calls[|calls| - 1])
  }

  function Publications(targets: seq<(string, Context)>): seq<Effect> {
    if targets == [] then []
    else
      var last := targets[|targets| - 1];
      Publications(targets[..|targets| - 1]) +
      [Put(Dict("function", "You are now talking to " + last.0)), Delegate(last.0, last.1)]
  }

  datatype Reaction = Reaction(effects: seq<Effect>, control: Control)

  /** How a handler holding `context` reacts to function calls. */
  function CallsReaction(a: Agent, context: Context, calls: seq<FunctionCall>): Reaction {
    var r := ProcessCalls(a, context, calls);
    if r.failed then Reaction(r.puts, Stop)
    else
      Reaction(r.puts + Publications(r.targets),
               if r.results == [] then Stop
               else Await(context + [AssistantCalls(calls, a.topic), ExecutionResults(r.results)]))
  }

  /** How a handler holding `context` reacts to one model stream. */
  function React(a: Agent, context: Context, stream: seq<StreamItem>): Reaction {
    var chunks := ChunkPuts(stream);
    match FinalResponse(stream)
    case None => Reaction(chunks, Stop)
    case Some(Text(text)) => Reaction(chunks + [Respond(context + [AssistantText(text, a.topic)])], Stop)
    case Some(Calls(calls)) =>
      var r := CallsReaction(a, context, calls);
      r.(effects := chunks + r.effects)
  }

  /** A whole handling of a task, fed with the model streams that arrive. */
  function Drive(a: Agent, context: Context, streams: seq<seq<StreamItem>>): Reaction
    decreases |streams|
  {
    if streams == [] then Reaction([], Await(context))
    else
      var r := React(a, context, streams[0]);
      if r.control.Stop? then r
      else
        var rest := Drive(a, r.control.context, streams[1..]);
        Reaction(r.effects + rest.effects, rest.control)
  }

  // ----- The handler as the source writes it: a context list extended in place -----

  /** A Python list of messages, passed by reference. */
  class MessageList {
    var elems: Context

    constructor (elems: Context)
      ensures this.elems == elems
    {
      this.elems := elems;
    }
  }

  datatype Sent =
    | SentItem(item: Item)
    | SentTask(topic: string, list: MessageList)
    | SentResponse(list: MessageList)

  ghost function Lists(sent: seq<Sent>): set<MessageList> {
    set i | 0 <= i < |sent| && !sent[i].SentItem? :: sent[i].list
  }

  /** What the receivers see when they read the lists they were sent. */
  ghost function Seen(s: Sent): Effect
    reads if s.SentItem? then {} else {s.list}
  {
    match s
    case SentItem(item) => Put(item)
    case SentTask(topic, list) => Delegate(topic, list.elems)
    case SentResponse(list) => Respond(list.elems)
  }

  ghost predicate SeenAs(sent: seq<Sent>, effects: seq<Effect>)
    reads Lists(sent)
  {
    |sent| == |effects| &&
    forall i :: 0 <= i < |sent| ==> (sent[i].SentItem? || sent[i].list in Lists(sent)) && Seen(sent[i]) == effects[i]
  }

  method ReadStream(stream: seq<StreamItem>) returns (puts: seq<Sent>, response: Option<Content>)
    ensures Lists(puts) == {} && SeenAs(puts, ChunkPuts(stream))
    ensures response == FinalResponse(stream)
  {
    puts, response := [], None;
    for i := 0 to |stream|
      invariant Lists(puts) == {} && SeenAs(puts, ChunkPuts(stream[..i]))
      invariant response == FinalResponse(stream[..i])
    {
      assert stream[..i + 1][..i] == stream[..i];
      match stream[i] {
        case Chunk(text) => puts := puts + [SentItem(Dict("string", text))];
        case Completion(content) => response := Some(content);
      }
    }
    assert stream[..|stream|] == stream;
  }

  /** The loop's variables hold what the round `r` says. */
  ghost predicate Gathered(
      puts: seq<Sent>, results: seq<ExecutionResult>, targets: seq<(string, MessageList)>, failed: bool, r: Round)
    reads set i | 0 <= i < |targets| :: targets[i].1
  {
    && Lists(puts) == {} && |puts| == |r.puts|
    && (forall i :: 0 <= i < |puts| ==> puts[i].SentItem? && Put(puts[i].item) == r.puts[i])
    && results == r.results && failed == r.failed && |targets| == |r.targets|
    && (forall i :: 0 <= i < |targets| ==> (targets[i].0, targets[i].1.elems) == r.targets[i])
  }

  /** One pass of the loop over the calls; a delegate target gets a list of its own. */
  method RunCall(
      a: Agent, context: MessageList, call: FunctionCall, ghost r: Round,
      before: seq<Sent>, gained: seq<ExecutionResult>, found: seq<(string, MessageList)>)
    returns (puts: seq<Sent>, results: seq<ExecutionResult>, targets: seq<(string, MessageList)>, failed: bool)
    requires Gathered(before, gained, found, false, r)
    ensures Gathered(puts, results, targets, failed, ProcessCall(a, context.elems, r, call))
    ensures forall i :: 0 <= i < |targets| ==> fresh(targets[i].1) || (i < |found| && targets[i] == found[i])
  {
    puts, results, targets, failed := before, gained, found, true;
    if !a.parses(call.arguments) {
      return;
    }
    puts := puts + [SentItem(Dict("function", "Executing " + call.name))];
    if call.name in a.tools {
      match a.tools[call.name](call.arguments) {
        case Some(result) => results, failed := results + [ExecutionResult(call.id, result, call.name)], false;
        case None => return;
      }
    } else if call.name in a.delegates {
      match a.delegates[call.name](call.arguments) {
        case Some(topic) =>
          var list := new MessageList(context.elems + Transfer(call, topic, a.topic));
          targets, failed := targets + [(topic, list)], false;
        case None => return;
      }
    }
  }

  /** The loop over the calls; it ends at the first failure. */
  method RunCalls(a: Agent, context: MessageList, calls: seq<FunctionCall>)
    returns (puts: seq<Sent>, results: seq<ExecutionResult>, targets: seq<(string, MessageList)>, failed: bool)
    ensures Gathered(puts, results, targets, failed, ProcessCalls(a, context.elems, calls))
    ensures forall i :: 0 <= i < |targets| ==> fresh(targets[i].1)
  {
    puts, results, targets, failed := [], [], [], false;
    for i := 0 to |calls|
      invariant !failed
      invariant Gathered(puts, results, targets, failed, ProcessCalls(a, context.elems, calls[..i]))
      invariant forall j :: 0 <= j < |targets| ==> fresh(targets[j].1)
    {
      assert calls[..i + 1][..i] == calls[..i];
      ghost var r := ProcessCalls(a, context.elems, calls[..i]);
      puts, results, targets, failed := RunCall(a, context, calls[i], r, puts, results, targets);
      if failed {
        FailureStays(a, context.elems, calls, i + 1);
        return;
      }
    }
    assert calls[..|calls|] == calls;
  }

  lemma {:induction false} FailureStays(a: Agent, context: Context, calls: seq<FunctionCall>, i: nat)
    requires i <= |calls| && ProcessCalls(a, context, calls[..i]).failed
    ensures ProcessCalls(a, context, calls) == ProcessCalls(a, context, calls[..i])
    decreases |calls|
  {
    if i < |calls| {
      assert calls[..|calls| - 1][..i] == calls[..i];
      FailureStays(a, context, calls[..|calls| - 1], i);
    } else {
      assert calls[..i] == calls;
    }
  }

  /** Publishes to every delegate target, in order. */
  method Publish(targets: seq<(string, MessageList)>, ghost values: seq<(string, Context)>) returns (sent: seq<Sent>)
    requires |values| == |targets|
    requires forall i :: 0 <= i < |targets| ==> (targets[i].0, targets[i].1.elems) == values[i]
    ensures SeenAs(sent, Publications(values))
    ensures forall l :: l in Lists(sent) ==> exists i :: 0 <= i < |targets| && targets[i].1 == l
  {
    sent := [];
    for i := 0 to |targets|
      invariant SeenAs(sent, Publications(values[..i]))
      invariant forall l :: l in Lists(sent) ==> exists i :: 0 <= i < |targets| && targets[i].1 == l
    {
      assert values[..i + 1][..i] == values[..i];
      ghost var before := sent;
      sent := sent + [SentItem(Dict("function", "You are now talking to " + targets[i].0)),
                      SentTask(targets[i].0, targets[i].1)];
      assert sent[|sent| - 1].list in Lists(sent);
      assert forall j :: 0 <= j < |before| && !before[j].SentItem? ==> sent[j].list in Lists(sent);
    }
    assert values[..|targets|] == values;
  }

  lemma SeenAsAppend(sent: seq<Sent>, effects: seq<Effect>, sent': seq<Sent>, effects': seq<Effect>)
    requires SeenAs(sent, effects) && SeenAs(sent', effects')
    ensures Lists(sent + sent') == Lists(sent) + Lists(sent')
    ensures SeenAs(sent + sent', effects + effects')
  {
    var both := sent + sent';
    forall l | l in Lists(sent) + Lists(sent') ensures l in Lists(both) {
      if l in Lists(sent) {
        var i :| 0 <= i < |sent| && !sent[i].SentItem? && sent[i].list == l;
        assert both[i].list == l;
      } else {
        var i :| 0 <= i < |sent'| && !sent'[i].SentItem? && sent'[i].list == l;
        assert both[|sent| + i].list == l;
      }
    }
  }

  /** The part of a pass that acts on function calls. */
  method HandleCalls(a: Agent, message: MessageList, calls: seq<FunctionCall>) returns (sent: seq<Sent>, ended: bool)
    modifies message
    ensures var r := CallsReaction(a, old(message.elems), calls);
      SeenAs(sent, r.effects) && ended == r.control.Stop? && (!ended ==> message.elems == r.control.context)
    ensures forall l :: l in Lists(sent) ==> fresh(l)
  {
    var results, targets, failed;
    sent, results, targets, failed := RunCalls(a, message, calls);
    ghost var round := ProcessCalls(a, message.elems, calls);
    if failed {
      return sent, true;
    }
    var published := Publish(targets, round.targets);
    SeenAsAppend(sent, round.puts, published, Publications(round.targets));
    sent := sent + published;
    ended := results == [];
    if !ended {
      message.elems := message.elems + [AssistantCalls(calls, a.topic), ExecutionResults(results)];
    }
  }

  /** One pass of the handler's loop: read a stream, then act on the completion. */
  method HandleStream(a: Agent, message: MessageList, stream: seq<StreamItem>) returns (sent: seq<Sent>, ended: bool)
    modifies message
    ensures var r := React(a, old(message.elems), stream);
      SeenAs(sent, r.effects) && ended == r.control.Stop? && (!ended ==> message.elems == r.control.context)
    ensures forall l :: l in Lists(sent) ==> fresh(l) || (ended && l == message)
    ensures forall i :: 0 <= i < |sent| && sent[i].SentTask? ==> fresh(sent[i].list)
  {
    var puts, response := ReadStream(stream);
    ghost var chunks := ChunkPuts(stream);
    match response {
      case None =>
        return puts, true;
      case Some(Text(text)) =>
        message.elems := message.elems + [AssistantText(text, a.topic)];
        var last := [SentResponse(message)];
        assert message == last[0].list;
        SeenAsAppend(puts, chunks, last, [Respond(message.elems)]);
        return puts + last, true;
      case Some(Calls(calls)) =>
        ghost var r := CallsReaction(a, message.elems, calls);
        var more;
        more, ended := HandleCalls(a, message, calls);
        SeenAsAppend(puts, chunks, more, r.effects);
        sent := puts + more;
    }
  }

  /** The same pass, after `before` has been sent to other receivers. */
  method HandleNext(
      a: Agent, message: MessageList, stream: seq<StreamItem>, before: seq<Sent>, ghost effects: seq<Effect>)
    returns (sent: seq<Sent>, ended: bool)
    requires SeenAs(before, effects) && message !in Lists(before)
    modifies message
    ensures var r := React(a, old(message.elems), stream);
      && SeenAs(sent, effects + r.effects) && ended == r.control.Stop?
      && (!ended ==> message.elems == r.control.context)
    ensures forall l :: l in Lists(sent) ==> l in Lists(before) || fresh(l) || (ended && l == message)
    ensures forall i :: 0 <= i < |sent| && sent[i].SentTask? ==> sent[i].list in Lists(before) || fresh(sent[i].list)
  {
    var more;
    ghost var r := React(a, message.elems, stream);
    more, ended := HandleStream(a, message, stream);
    SeenAsAppend(before, effects, more, r.effects);
    sent := before + more;
    forall i | 0 <= i < |sent| && sent[i].SentTask? ensures sent[i].list in Lists(before) || fresh(sent[i].list) {
      if i < |before| {
        assert before[i].list in Lists(before);
      } else {
        assert sent[i] == more[i - |before|];
      }
    }
  }

  /**
   `handle_task`: the context list of the message is extended in place while tools
   run. What every receiver sees after the handler has ended is what `Drive` says was sent;
   in particular a delegate's list is never the extended one.
   */
  method HandleTask(a: Agent, message: MessageList, streams: seq<seq<StreamItem>>)
    returns (sent: seq<Sent>, ended: bool)
    modifies message
    ensures var d := Drive(a, old(message.elems), streams);
      SeenAs(sent, d.effects) && ended == d.control.Stop? && (!ended ==> message.elems == d.control.context)
    ensures forall i :: 0 <= i < |sent| && sent[i].SentTask? ==> fresh(sent[i].list)
  {
    sent := [];
    ghost var effects: seq<Effect>, context := [], message.elems;
    ghost var whole := Drive(a, context, streams);
    for k := 0 to |streams|
      invariant SeenAs(sent, effects) && context == message.elems
      invariant forall l :: l in Lists(sent) ==> fresh(l)
      invariant var rest := Drive(a, context, streams[k..]); whole == Reaction(effects + rest.effects, rest.control)
    {
      ghost var r, rest := DriveStep(a, context, streams, k);
      sent, ended := HandleNext(a, message, streams[k], sent, effects);
      RegroupEffects(effects, r.effects, rest.effects);
      effects, context := effects + r.effects, message.elems;
      if ended {
        return;
      }
    }
    assert effects + [] == effects;
    ended := false;
  }

  lemma RegroupEffects(a: seq<Effect>, b: seq<Effect>, c: seq<Effect>)
    ensures a + (b + c) == (a + b) + c
  {
  }

  lemma DriveStep(a: Agent, context: Context, streams: seq<seq<StreamItem>>, k: nat)
    returns (r: Reaction, rest: Reaction)
    requires k < |streams|
    ensures r == React(a, context, streams[k])
    ensures r.control.Stop? ==> Drive(a, context, streams[k..]) == r
    ensures r.control.Await? ==>
      && rest == Drive(a, r.control.context, streams[k + 1..])
      && Drive(a, context, streams[k..]) == Reaction(r.effects + rest.effects, rest.control)
  {
    assert streams[k..][0] == streams[k] && streams[k..][1..] == streams[k + 1..];
    r := React(a, context, streams[k]);
    rest := if r.control.Stop? then r else Drive(a, r.control.context, streams[k + 1..]);
  }
}
