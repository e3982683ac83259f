/** The final message of a Mistral stream, aggregated inside the first chunk's own objects. */
module Mistral {
  import opened Wrappers

  datatype Finish = StopFinish | LengthFinish | ModelLength | ErrorFinish | ToolCallsFinish

  datatype Call = Call(id: string, name: string, args: string)

  class ChatMessage {
    var content: Option<string>
    var toolCalls: Option<seq<Call>>
  }

  class Choice {
    var finish: Option<Finish>
    var message: ChatMessage?
    var delta: ChatMessage?
  }

  /** A streamed chunk; that it has exactly one choice was checked when it was yielded. */
  class Chunk {
    const choice: Choice
    var usage: Option<nat>

    constructor (choice: Choice, usage: Option<nat>)
      ensures this.choice == choice && this.usage == usage
    {
      this.choice, this.usage := choice, usage;
    }
  }

  // ----- Values -----

  datatype Delta = Delta(content: Option<string>, toolCalls: Option<seq<Call>>)

  /** What a chunk says, read before anything is mutated. */
  datatype Part = Part(delta: Option<Delta>, finish: Option<Finish>, usage: Option<nat>)

  ghost function ValueOf(m: ChatMessage): Delta
    reads m
  {
    Delta(m.content, m.toolCalls)
  }

  ghost function PartOf(c: Chunk): Part
    reads c, c.choice, c.choice.delta
  {
    Part(if c.choice.delta == null then None else Some(ValueOf(c.choice.delta)), c.choice.finish, c.usage)
  }

  function Calls(d: Delta): seq<Call> { if d.toolCalls.None? then [] else d.toolCalls.value }

  function Texts(ps: seq<Part>): string
    requires Complete(ps)
  {
    if ps == [] then "" else Texts(ps[..|ps| - 1]) + Str(ps[|ps| - 1].delta.value.content)
  }

  function AllCalls(ps: seq<Part>): seq<Call>
    requires Complete(ps)
  {
    if ps == [] then [] else AllCalls(ps[..|ps| - 1]) + Calls(ps[|ps| - 1].delta.value)
  }

  function LastUsage(ps: seq<Part>): Option<nat> {
    if ps == [] then None
    else if ps[|ps| - 1].usage.Some? then ps[|ps| - 1].usage
    else LastUsage(ps[..|ps| - 1])
  }

  predicate Complete(ps: seq<Part>) { forall i :: 0 <= i < |ps| ==> ps[i].delta.Some? }

  /** What the aggregation starts from: the first choice's own message if it has one, else its delta. */
  function Base(own: Option<Delta>, ps: seq<Part>): Delta
    requires ps != [] && Complete(ps)
  {
    if own.Some? then own.value else Delta(ps[0].delta.value.content, Some(Calls(ps[0].delta.value)))
  }

  /** All deltas joined onto the base, which is often the first delta counted once more. */
  function TextsOn(own: Option<Delta>, ps: seq<Part>): string
    requires ps != [] && Complete(ps)
  {
    Str(Base(own, ps).content) + Texts(ps)
  }

  function CallsOn(own: Option<Delta>, ps: seq<Part>): Option<seq<Call>>
    requires ps != [] && Complete(ps)
  {
    var base := Base(own, ps).toolCalls;
    if base.None? then None else Some(base.value + AllCalls(ps))
  }

  /** Some tool calls arrive, but the own message has no list to put them into. */
  predicate NoList(own: Option<Delta>, ps: seq<Part>)
    requires Complete(ps)
  {
    own.Some? && own.value.toolCalls.None? && exists i :: 0 <= i < |ps| && ps[i].delta.value.toolCalls.Some?
  }

  lemma OnFirst(own: Option<Delta>, ps: seq<Part>)
    requires |ps| == 1 && Complete(ps)
    ensures TextsOn(own, ps) == Str(Base(own, ps).content) + Str(ps[0].delta.value.content)
    ensures CallsOn(own, ps).Some? ==>
      CallsOn(own, ps).value == Base(own, ps).toolCalls.value + Calls(ps[0].delta.value)
    ensures NoList(own, ps) <==> own.Some? && own.value.toolCalls.None? && ps[0].delta.value.toolCalls.Some?
  {
    assert ps[..|ps| - 1] == [];
    assert Texts(ps) == "" + Str(ps[0].delta.value.content) == Str(ps[0].delta.value.content);
    assert AllCalls(ps) == [] + Calls(ps[0].delta.value) == Calls(ps[0].delta.value);
  }

  lemma OnNext(own: Option<Delta>, ps: seq<Part>, i: nat)
    requires 0 < i < |ps| && Complete(ps[..i]) && ps[i].delta.Some?
    ensures Complete(ps[..i + 1])
    ensures TextsOn(own, ps[..i + 1]) == TextsOn(own, ps[..i]) + Str(ps[i].delta.value.content)
    ensures CallsOn(own, ps[..i + 1]).Some? <==> CallsOn(own, ps[..i]).Some?
    ensures CallsOn(own, ps[..i]).Some? ==>
      CallsOn(own, ps[..i + 1]).value == CallsOn(own, ps[..i]).value + Calls(ps[i].delta.value)
  {
    assert forall j :: 0 <= j < i ==> ps[..i + 1][j] == ps[..i][j];
    assert ps[..i + 1][..i] == ps[..i];
  }

  lemma NoListNext(own: Option<Delta>, ps: seq<Part>, i: nat)
    requires i < |ps| && Complete(ps[..i]) && Complete(ps[..i + 1])
    ensures NoList(own, ps[..i + 1]) <==>
      NoList(own, ps[..i]) || (own.Some? && own.value.toolCalls.None? && ps[i].delta.value.toolCalls.Some?)
  {
    assert ps[..i + 1][i] == ps[i];
    assert forall j :: 0 <= j < i ==> ps[..i + 1][j] == ps[..i][j];
  }

  lemma NoListStays(own: Option<Delta>, ps: seq<Part>, i: nat)
    requires i <= |ps| && Complete(ps) && Complete(ps[..i]) && NoList(own, ps[..i])
    ensures NoList(own, ps)
  {
    var j :| 0 <= j < i && ps[..i][j].delta.value.toolCalls.Some?;
    assert ps[j].delta.value.toolCalls.Some?;
  }

  lemma LastUsageNext(ps: seq<Part>, i: nat)
    requires i < |ps|
    ensures LastUsage(ps[..i + 1]) == if ps[i].usage.Some? then ps[i].usage else LastUsage(ps[..i])
  {
    assert ps[..i + 1][..i] == ps[..i];
  }

  // ----- The aggregation -----

  /** The chunks come from separate JSON documents: no two share an object, and the first one's message is no delta. */
  ghost predicate Separate(chunks: seq<Chunk>)
    reads set i | 0 <= i < |chunks| :: chunks[i].choice
  {
    && (forall i, j :: 0 <= i < j < |chunks| ==>
          && chunks[i] != chunks[j] && chunks[i].choice != chunks[j].choice
          && (chunks[i].choice.delta != null ==> chunks[i].choice.delta != chunks[j].choice.delta))
    && (chunks != [] && chunks[0].choice.message != null ==>
          forall i :: 0 <= i < |chunks| ==> chunks[i].choice.delta != chunks[0].choice.message)
  }

  /** The first choice's own message, if it has one. */
  ghost function OwnMessage(chunks: seq<Chunk>): Option<Delta>
    requires chunks != []
    reads chunks[0].choice, chunks[0].choice.message
  {
    if chunks[0].choice.message == null then None else Some(ValueOf(chunks[0].choice.message))
  }

  ghost predicate Reads(chunks: seq<Chunk>, ps: seq<Part>, from: nat)
    reads chunks, set i | 0 <= i < |chunks| :: chunks[i].choice
    reads set i | 0 <= i < |chunks| && chunks[i].choice.delta != null :: chunks[i].choice.delta
  {
    |ps| == |chunks| && forall i :: from <= i < |chunks| ==> PartOf(chunks[i]) == ps[i]
  }

  /** The chunks from position `i` on still say what they said, and none of them owns `acc`. */
  ghost predicate Rest(chunks: seq<Chunk>, ps: seq<Part>, acc: ChatMessage, i: nat)
    reads chunks, set i | 0 <= i < |chunks| :: chunks[i].choice
    reads set i | 0 <= i < |chunks| && chunks[i].choice.delta != null :: chunks[i].choice.delta
  {
    |ps| == |chunks| && forall j :: i <= j < |chunks| ==>
      && PartOf(chunks[j]) == ps[j] && chunks[j] != chunks[0]
      && chunks[j].choice != chunks[0].choice && chunks[j].choice.delta != acc
  }

  /** The object that the aggregation works on. */
  ghost function Accumulator(choice: Choice): ChatMessage?
    reads choice
  {
    if choice.message != null then choice.message else choice.delta
  }

  /** One pass of the plain-text loop: the accumulator `acc` may be the response's own delta. */
  method TextOne(final: Chunk, response: Chunk, ghost acc: ChatMessage)
    requires response.choice.delta != null && final.choice.message in {null, acc}
    requires final.choice.message == null ==> response.choice.delta == acc
    modifies final`usage, final.choice`message, final.choice`finish, acc`content
    ensures final.choice.message == acc
    ensures acc.content == Some(Str(old(acc.content)) + Str(old(response.choice.delta.content)))
    ensures final.choice.finish == old(response.choice.finish)
    ensures final.usage == if old(response.usage).Some? then old(response.usage) else old(final.usage)
  {
    if final.choice.message == null {
      final.choice.message := response.choice.delta;
    }
    final.choice.message.content := Some(Str(final.choice.message.content) + Str(response.choice.delta.content));
    final.choice.finish := response.choice.finish;
    if response.usage.Some? {
      final.usage := response.usage;
    }
  }

  /** The finish reason and the usage after the first `i` chunks. */
  ghost predicate Headers(final: Chunk, ps: seq<Part>, i: nat)
    requires 0 < i <= |ps|
    reads final, final.choice
  {
    final.choice.finish == ps[i - 1].finish && final.usage == LastUsage(ps[..i])
  }

  /** The text loop has taken in the first `i` chunks, with `acc` as accumulator. */
  ghost predicate TextSoFar(final: Chunk, acc: ChatMessage, own: Option<Delta>, ps: seq<Part>, i: nat)
    requires 0 < i <= |ps|
    reads final, final.choice, acc
  {
    && Complete(ps[..i]) && Headers(final, ps, i)
    && final.choice.message == acc && acc.content == Some(TextsOn(own, ps[..i]))
  }

  /** The first pass of the plain-text loop, which fixes the accumulator. */
  method TextFirst(chunks: seq<Chunk>, ghost ps: seq<Part>, ghost own: Option<Delta>, ghost acc: ChatMessage)
    requires chunks != [] && Separate(chunks) && Reads(chunks, ps, 0) && own == OwnMessage(chunks)
    requires chunks[0].choice.delta != null && acc == Accumulator(chunks[0].choice)
    modifies chunks[0], chunks[0].choice, acc
    ensures Rest(chunks, ps, acc, 1) && TextSoFar(chunks[0], acc, own, ps, 1)
  {
    assert PartOf(chunks[0]) == ps[0];
    OnFirst(own, ps[..1]);
    LastUsageNext(ps, 0);
    TextOne(chunks[0], chunks[0], acc);
  }

  /** A further pass; it throws at a chunk without a delta. */
  method TextNext(chunks: seq<Chunk>, i: nat, ghost ps: seq<Part>, ghost own: Option<Delta>, ghost acc: ChatMessage)
    returns (ok: bool)
    requires 0 < i < |chunks| && Rest(chunks, ps, acc, i) && TextSoFar(chunks[0], acc, own, ps, i)
    modifies chunks[0], chunks[0].choice, acc
    ensures ok <==> ps[i].delta.Some?
    ensures ok ==> Rest(chunks, ps, acc, i + 1) && TextSoFar(chunks[0], acc, own, ps, i + 1)
  {
    assert PartOf(chunks[i]) == ps[i];
    if chunks[i].choice.delta == null {
      return false;
    }
    OnNext(own, ps, i);
    LastUsageNext(ps, i);
    TextOne(chunks[0], chunks[i], acc);
    ok := true;
  }

  /** The plain-text loop; it throws at the first chunk without a delta. */
  method AggregateText(chunks: seq<Chunk>, ghost ps: seq<Part>, ghost own: Option<Delta>) returns (ok: bool)
    requires chunks != [] && Separate(chunks) && Reads(chunks, ps, 0) && own == OwnMessage(chunks)
    modifies chunks[0], chunks[0].choice, chunks[0].choice.delta, chunks[0].choice.message
    ensures ok <==> Complete(ps)
    ensures ok ==>
      && chunks[0].choice.message == old(Accumulator(chunks[0].choice)) != null
      && chunks[0].choice.message.content == Some(TextsOn(own, ps))
      && chunks[0].choice.finish == ps[|ps| - 1].finish && chunks[0].usage == LastUsage(ps)
  {
    assert PartOf(chunks[0]) == ps[0];
    if chunks[0].choice.delta == null {
      return false;
    }
    ghost var acc: ChatMessage := Accumulator(chunks[0].choice);
    TextFirst(chunks, ps, own, acc);
    for i := 1 to |chunks|
      invariant Rest(chunks, ps, acc, i) && TextSoFar(chunks[0], acc, own, ps, i)
    {
      ok := TextNext(chunks, i, ps, own, acc);
      if !ok {
        return;
      }
    }
    assert ps[..|ps|] == ps;
    ok := true;
  }

  /** One pass of the tool-call loop; it throws when there is no list to add to. */
  method ToolCallsOne(final: Chunk, response: Chunk, ghost acc: ChatMessage) returns (ok: bool)
    requires response.choice.delta != null && final.choice.message in {null, acc}
    requires final.choice.message == null ==> response.choice.delta == acc
    modifies final`usage, final.choice`message, final.choice`finish, acc`toolCalls
    ensures final.choice.message == acc
    ensures ok <==>
      !(old(final.choice.message) != null && old(acc.toolCalls).None? && old(response.choice.delta.toolCalls).Some?)
    ensures ok && (old(final.choice.message) == null || old(acc.toolCalls).Some?) ==>
      acc.toolCalls == Some(Calls(old(ValueOf(acc))) + Calls(old(ValueOf(response.choice.delta))))
    ensures ok && old(final.choice.message) != null && old(acc.toolCalls).None? ==> acc.toolCalls.None?
    ensures ok ==> final.choice.finish == old(response.choice.finish)
    ensures ok ==> final.usage == if old(response.usage).Some? then old(response.usage) else old(final.usage)
  {
    if final.choice.message == null {
      final.choice.message := response.choice.delta;
      if final.choice.message.toolCalls.None? {
        final.choice.message.toolCalls := Some([]);
      }
    }
    if response.choice.delta.toolCalls.Some? {
      if final.choice.message.toolCalls.None? {
        return false;
      }
      final.choice.message.toolCalls :=
        Some(final.choice.message.toolCalls.value + response.choice.delta.toolCalls.value);
    } else {
      assert acc.toolCalls.Some? ==> acc.toolCalls.value + [] == acc.toolCalls.value;
    }
    final.choice.finish := response.choice.finish;
    if response.usage.Some? {
      final.usage := response.usage;
    }
    ok := true;
  }

  /** The tool-call loop has taken in the first `i` chunks, with `acc` as accumulator. */
  ghost predicate CallsSoFar(final: Chunk, acc: ChatMessage, own: Option<Delta>, ps: seq<Part>, i: nat)
    requires 0 < i <= |ps|
    reads final, final.choice, acc
  {
    && Complete(ps[..i]) && !NoList(own, ps[..i]) && Headers(final, ps, i)
    && final.choice.message == acc && acc.toolCalls == CallsOn(own, ps[..i])
  }

  /** The first pass of the tool-call loop, which fixes the accumulator. */
  method ToolCallsFirst(chunks: seq<Chunk>, ghost ps: seq<Part>, ghost own: Option<Delta>, ghost acc: ChatMessage)
    returns (ok: bool)
    requires chunks != [] && Separate(chunks) && Reads(chunks, ps, 0) && own == OwnMessage(chunks)
    requires chunks[0].choice.delta != null && acc == Accumulator(chunks[0].choice)
    modifies chunks[0], chunks[0].choice, acc
    ensures Complete(ps[..1]) && (ok <==> !NoList(own, ps[..1]))
    ensures ok ==> Rest(chunks, ps, acc, 1) && CallsSoFar(chunks[0], acc, own, ps, 1)
  {
    assert PartOf(chunks[0]) == ps[0];
    OnFirst(own, ps[..1]);
    LastUsageNext(ps, 0);
    ok := ToolCallsOne(chunks[0], chunks[0], acc);
  }

  /** A further pass. */
  method ToolCallsNext(
      chunks: seq<Chunk>, i: nat, ghost ps: seq<Part>, ghost own: Option<Delta>, ghost acc: ChatMessage)
    returns (ok: bool)
    requires 0 < i < |chunks| && Rest(chunks, ps, acc, i) && CallsSoFar(chunks[0], acc, own, ps, i)
    modifies chunks[0], chunks[0].choice, acc
    ensures ok <==> Complete(ps[..i + 1]) && !NoList(own, ps[..i + 1])
    ensures ok ==> Rest(chunks, ps, acc, i + 1) && CallsSoFar(chunks[0], acc, own, ps, i + 1)
  {
    assert PartOf(chunks[i]) == ps[i] == ps[..i + 1][i];
    if chunks[i].choice.delta == null {
      return false;
    }
    OnNext(own, ps, i);
    NoListNext(own, ps, i);
    LastUsageNext(ps, i);
    ok := ToolCallsOne(chunks[0], chunks[i], acc);
  }

  /** The tool-call loop: without an own message, the first chunk's list is appended to itself. */
  method AggregateToolCalls(chunks: seq<Chunk>, ghost ps: seq<Part>, ghost own: Option<Delta>) returns (ok: bool)
    requires chunks != [] && Separate(chunks) && Reads(chunks, ps, 0) && own == OwnMessage(chunks)
    modifies chunks[0], chunks[0].choice, chunks[0].choice.delta, chunks[0].choice.message
    ensures ok <==> Complete(ps) && !NoList(own, ps)
    ensures ok ==>
      && chunks[0].choice.message == old(Accumulator(chunks[0].choice)) != null
      && chunks[0].choice.message.toolCalls == CallsOn(own, ps)
      && chunks[0].choice.finish == ps[|ps| - 1].finish && chunks[0].usage == LastUsage(ps)
  {
    assert PartOf(chunks[0]) == ps[0];
    if chunks[0].choice.delta == null {
      return false;
    }
    ghost var acc: ChatMessage := Accumulator(chunks[0].choice);
    ok := ToolCallsFirst(chunks, ps, own, acc);
    if !ok {
      FailedHere(own, ps, 1);
      return;
    }
    for i := 1 to |chunks|
      invariant ok && Rest(chunks, ps, acc, i) && CallsSoFar(chunks[0], acc, own, ps, i)
    {
      ok := ToolCallsNext(chunks, i, ps, own, acc);
      if !ok {
        FailedHere(own, ps, i + 1);
        return;
      }
    }
    assert ps[..|ps|] == ps;
  }

  /** A failure on a first part of the stream is a failure on all of it. */
  lemma FailedHere(own: Option<Delta>, ps: seq<Part>, i: nat)
    requires i <= |ps| && !(Complete(ps[..i]) && !NoList(own, ps[..i]))
    ensures !(Complete(ps) && !NoList(own, ps))
  {
    if Complete(ps) {
      assert forall j :: 0 <= j < i ==> ps[..i][j] == ps[j];
      NoListStays(own, ps, i);
    }
  }

  // ----- The final message -----

  datatype Message = TextMessage(text: string) | ToolCallMessage(calls: seq<Call>)

  /** `PostProcessMessage` on a response with one choice. */
  function PostProcess(finish: Option<Finish>, message: Option<Delta>): Result<Message> {
    match finish
    case None => Err("choice.FinishReason")
    case Some(f) =>
      if f.StopFinish? || f.LengthFinish? then
        if message.Some? && message.value.content.Some? then Ok(TextMessage(message.value.content.value))
        else Err("choice.Message.Content")
      else if f.ToolCallsFinish? then
        if message.Some? && message.value.toolCalls.Some? then Ok(ToolCallMessage(message.value.toolCalls.value))
        else Err("choice.Message.ToolCalls")
      else Err("FinishReason is not supported")
  }

  /** The last message of the stream, in terms of the deltas and the own message as they arrived. */
  function Streamed(own: Option<Delta>, ps: seq<Part>): Result<Message>
    requires ps != []
  {
    if !Complete(ps) then Err("NullReferenceException")
    else
      var finish := ps[|ps| - 1].finish;
      if finish == Some(ToolCallsFinish) then
        if NoList(own, ps) then Err("NullReferenceException")
        else if CallsOn(own, ps).None? then Err("choice.Message.ToolCalls")
        else Ok(ToolCallMessage(CallsOn(own, ps).value))
      else if finish == Some(StopFinish) || finish == Some(LengthFinish) then Ok(TextMessage(TextsOn(own, ps)))
      else PostProcess(finish, None)
  }

  function ContentsOf(ps: seq<Part>): seq<string>
    requires Complete(ps)
  {
    seq(|ps|, i requires 0 <= i < |ps| && ps[i].delta.Some? => Str(ps[i].delta.value.content))
  }

  function ListsOf(ps: seq<Part>): seq<seq<Call>>
    requires Complete(ps)
  {
    seq(|ps|, i requires 0 <= i < |ps| && ps[i].delta.Some? =>
      if ps[i].delta.value.toolCalls.Some? then ps[i].delta.value.toolCalls.value else [])
  }

  lemma {:induction false} JoinedParts(ps: seq<Part>)
    requires Complete(ps)
    ensures Texts(ps) == Concat(ContentsOf(ps)) && AllCalls(ps) == Concat(ListsOf(ps))
  {
    if ps == [] {
    } else {
      var n := |ps| - 1;
      JoinedParts(ps[..n]);
      assert ContentsOf(ps) == ContentsOf(ps[..n]) + [Str(ps[n].delta.value.content)];
      assert ListsOf(ps) == ListsOf(ps[..n]) + [Calls(ps[n].delta.value)];
      ConcatSnoc(ContentsOf(ps[..n]), Str(ps[n].delta.value.content));
      ConcatSnoc(ListsOf(ps[..n]), Calls(ps[n].delta.value));
    }
  }

  /**
   The last message by the finish reason: all texts joined after the own message's text or else the
   first text once more, all lists joined likewise, and a failure in every other case.
   */
  ghost predicate IsFinal(own: Option<Delta>, ps: seq<Part>, r: Result<Message>)
    requires ps != []
  {
    if exists i :: 0 <= i < |ps| && ps[i].delta.None? then r.Err?
    else
      match ps[|ps| - 1].finish
      case Some(StopFinish) => r == Ok(TextMessage(FirstText(own, ps) + Concat(ContentsOf(ps))))
      case Some(LengthFinish) => r == Ok(TextMessage(FirstText(own, ps) + Concat(ContentsOf(ps))))
      case Some(ToolCallsFinish) =>
        if own.Some? && own.value.toolCalls.None? then r.Err?
        else
          var first := if own.Some? then own.value.toolCalls.value else ListsOf(ps)[0];
          r == Ok(ToolCallMessage(first + Concat(ListsOf(ps))))
      case _ => r.Err?
  }

  function FirstText(own: Option<Delta>, ps: seq<Part>): string
    requires ps != [] && Complete(ps)
  {
    Str(if own.Some? then own.value.content else ps[0].delta.value.content)
  }

  lemma StreamedIsFinal(own: Option<Delta>, ps: seq<Part>)
    requires ps != []
    ensures IsFinal(own, ps, Streamed(own, ps))
  {
    if Complete(ps) {
      JoinedParts(ps);
    }
  }

  /** The usage reported last, if any was. */
  lemma {:induction false} LastUsageIs(ps: seq<Part>)
    ensures LastUsage(ps).None? <==> forall i :: 0 <= i < |ps| ==> ps[i].usage.None?
    ensures LastUsage(ps).Some? ==> exists i :: LastReport(ps, i) && ps[i].usage == LastUsage(ps)
  {
    if ps == [] {
    } else {
      var n := |ps| - 1;
      if ps[n].usage.Some? {
        assert LastReport(ps, n);
      } else {
        LastUsageIs(ps[..n]);
        if LastUsage(ps).Some? {
          var i :| LastReport(ps[..n], i) && ps[..n][i].usage == LastUsage(ps[..n]);
          assert LastReport(ps, i);
        }
      }
    }
  }

  ghost predicate LastReport(ps: seq<Part>, i: int) {
    0 <= i < |ps| && ps[i].usage.Some? && forall j :: i < j < |ps| ==> ps[j].usage.None?
  }

  method Aggregated(chunks: seq<Chunk>, ghost ps: seq<Part>) returns (r: Result<Message>)
    requires chunks != [] && Separate(chunks) && Reads(chunks, ps, 0)
    modifies chunks[0], chunks[0].choice, chunks[0].choice.delta, chunks[0].choice.message
    ensures r == Streamed(old(OwnMessage(chunks)), ps)
    ensures r.Ok? ==> chunks[0].choice.finish == ps[|ps| - 1].finish && chunks[0].usage == LastUsage(ps)
  {
    var last, ok := chunks[|chunks| - 1], true;
    ghost var own := OwnMessage(chunks);
    assert PartOf(last) == ps[|ps| - 1];
    if last.choice.finish == Some(ToolCallsFinish) {
      ok := AggregateToolCalls(chunks, ps, own);
    } else {
      ok := AggregateText(chunks, ps, own);
    }
    if !ok {
      return Err("NullReferenceException");
    }
    var m := chunks[0].choice.message;
    r := PostProcess(chunks[0].choice.finish, Some(Delta(m.content, m.toolCalls)));
  }

  /** The objects of the first chunk. */
  ghost function FirstObjects(chunks: seq<Chunk>): set<object?>
    reads set i | 0 <= i < |chunks| :: chunks[i].choice
  {
    if chunks == [] then {}
    else {chunks[0], chunks[0].choice, chunks[0].choice.delta, chunks[0].choice.message}
  }

  /** The aggregated message that follows the chunks; none follows an empty stream. */
  method FinalMessage(chunks: seq<Chunk>, ghost ps: seq<Part>) returns (r: Option<Result<Message>>)
    requires Separate(chunks) && Reads(chunks, ps, 0)
    modifies FirstObjects(chunks)
    ensures r.None? <==> chunks == []
    ensures r.Some? ==> r.value == Streamed(old(OwnMessage(chunks)), ps)
    ensures r.Some? ==> IsFinal(old(OwnMessage(chunks)), ps, r.value)
    ensures r.Some? && r.value.Ok? ==>
      chunks[0].choice.finish == ps[|ps| - 1].finish && chunks[0].usage == LastUsage(ps)
  {
    if |chunks| == 0 {
      return None;
    }
    StreamedIsFinal(OwnMessage(chunks), ps);
    var final := Aggregated(chunks, ps);
    r := Some(final);
  }

  /** What the non-streaming call would return for the deltas joined once each. */
  function Plain(ps: seq<Part>): Result<Message>
    requires ps != [] && Complete(ps)
  {
    PostProcess(ps[|ps| - 1].finish, Some(Delta(Some(Texts(ps)), Some(AllCalls(ps)))))
  }

  /** Not streaming: the deltas joined once each, by the finish reason. */
  lemma PlainIs(ps: seq<Part>)
    requires ps != [] && Complete(ps)
    ensures match ps[|ps| - 1].finish
      case Some(StopFinish) => Plain(ps) == Ok(TextMessage(Concat(ContentsOf(ps))))
      case Some(LengthFinish) => Plain(ps) == Ok(TextMessage(Concat(ContentsOf(ps))))
      case Some(ToolCallsFinish) => Plain(ps) == Ok(ToolCallMessage(Concat(ListsOf(ps))))
      case _ => Plain(ps).Err?
  {
    JoinedParts(ps);
  }

  /** What the deltas are joined onto counts too, so streaming agrees with not streaming exactly when it is empty. */
  lemma AgreesExactlyWhenFirstEmpty(own: Option<Delta>, ps: seq<Part>)
    requires ps != [] && Complete(ps) && Plain(ps).Ok?
    ensures var base := Base(own, ps);
      Streamed(own, ps) == Plain(ps) <==>
      if ps[|ps| - 1].finish == Some(ToolCallsFinish) then base.toolCalls == Some([]) else Str(base.content) == ""
  {
    var base := Base(own, ps);
    assert |Str(base.content) + Texts(ps)| == |Str(base.content)| + |Texts(ps)|;
    if Str(base.content) == "" {
      assert Str(base.content) + Texts(ps) == Texts(ps);
    }
    if base.toolCalls.Some? {
      assert |base.toolCalls.value + AllCalls(ps)| == |base.toolCalls.value| + |AllCalls(ps)|;
    }
    if base.toolCalls == Some([]) {
      assert [] + AllCalls(ps) == AllCalls(ps);
    }
  }
}
