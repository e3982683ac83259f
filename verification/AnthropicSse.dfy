/** The line loop that reads Anthropic's server-sent events, and the event transducer it refines. */
module AnthropicSse {
  import opened Wrappers

  datatype Delta = Delta(kind: Option<string>, partialJson: Option<string>, stopReason: Option<string>)

  datatype Content = ToolUse(id: Option<string>, name: Option<string>, input: Option<string>) | Other(text: string)

  datatype Response = Response(delta: Option<Delta>, content: Option<seq<Content>>, rest: string)

  /** The value of a content block. */
  datatype Block = Block(kind: Option<string>, id: Option<string>, name: Option<string>, parameters: Option<string>)

  /** The deserialisers: Err when they throw, and None for an absent content block. */
  datatype Json = Json(
    block: string -> Result<Option<Block>>,
    response: string -> Result<Response>,
    error: string -> Result<Option<string>>)

  // ----- Lines -----

  predicate IsSpace(c: char) {
    c == ' ' || '\t' <= c <= '\r' || c == '\U{85}' || c == '\U{A0}' || c == '\U{1680}' ||
    '\U{2000}' <= c <= '\U{200A}' || c == '\U{2028}' || c == '\U{2029}' || c == '\U{202F}' ||
    c == '\U{205F}' || c == '\U{3000}'
  }

  function TrimStart(s: string): string {
    if s != "" && IsSpace(s[0]) then TrimStart(s[1..]) else s
  }

  function TrimEnd(s: string): string {
    if s != "" && IsSpace(s[|s| - 1]) then TrimEnd(s[..|s| - 1]) else s
  }

  function Trim(s: string): string { TrimEnd(TrimStart(s)) }

  const EVENT := "event:"
  const DATA := "data:"

  predicate IsEventLine(line: string) { EVENT <= line }

  predicate IsDataLine(line: string) { !(EVENT <= line) && DATA <= line }

  // ----- One event -----

  /** The effect of the end of an event on the open tool block, and what is yielded or thrown. */
  datatype Outcome = Outcome(open: Option<Block>, yielded: seq<Response>, error: Option<string>)

  const RESPONSE_KINDS := [Some("message_start"), Some("content_block_delta"), Some("message_delta")]

  predicate IsResponseKind(kind: Option<string>) {
    kind == Some("message_start") || kind == Some("content_block_delta") || kind == Some("message_delta")
  }

  /** A non-empty fragment of a tool's JSON input. */
  predicate IsFragment(res: Response) {
    && res.delta.Some? && res.delta.value.kind == Some("input_json_delta")
    && res.delta.value.partialJson.Some? && res.delta.value.partialJson.value != ""
  }

  predicate IsToolStop(res: Response) {
    !IsFragment(res) && res.delta.Some? && res.delta.value.stopReason == Some("tool_use")
  }

  function Appended(b: Block, fragment: string): Block {
    b.(parameters := Some(Str(b.parameters) + fragment))
  }

  function Attach(res: Response, b: Block): Response {
    var tool := ToolUse(b.id, b.name, b.parameters);
    res.(content := Some(if res.content.None? then [tool] else res.content.value + [tool]))
  }

  /** A tool block opened by this event, or the error of reading it. */
  function Opened(json: Json, kind: Option<string>, data: Option<string>, open: Option<Block>): Result<Option<Block>> {
    if kind == Some("content_block_start") && data.Some? && data.value != "" then
      match json.block(data.value)
      case Err(e) => Err(e)
      case Ok(b) => Ok(if b.Some? && b.value.kind == Some("tool_use") then b else open)
    else Ok(open)
  }

  function Dispatch(json: Json, kind: Option<string>, data: Option<string>, before: Option<Block>): Outcome {
    match Opened(json, kind, data, before)
    case Err(e) => Outcome(before, [], Some(e))
    case Ok(open) =>
      if kind in RESPONSE_KINDS && data.Some? then
        match json.response(data.value)
        case Err(e) => Outcome(open, [], Some(e))
        case Ok(res) =>
          var partial := if res.delta.Some? then Str(res.delta.value.partialJson) else "";
          if res.delta.Some? && res.delta.value.kind == Some("input_json_delta") && partial != "" && open.Some? then
            Outcome(Some(Appended(open.value, partial)), [res], None)
          else if res.delta.Some? && res.delta.value.stopReason == Some("tool_use") && open.Some? then
            Outcome(None, [Attach(res, open.value)], None)
          else Outcome(open, [res], None)
      else if kind == Some("error") && data.Some? then
        Outcome(open, [], Some(match json.error(data.value) case Err(e) => e case Ok(m) => Str(m)))
      else Outcome(open, [], None)
  }

  // ----- The line loop -----

  /** The event record: what has been read of the current event, and the open tool block. */
  datatype Cursor = Cursor(kind: Option<string>, data: Option<string>, open: Option<Block>)

  const FRESH := Cursor(None, None, None)

  datatype Output = Output(yielded: seq<Response>, error: Option<string>)

  function ReadField(c: Cursor, line: string): Cursor {
    if IsEventLine(line) then c.(kind := Some(Trim(line[|EVENT|..])))
    else if IsDataLine(line) then c.(data := Some(Trim(line[|DATA|..])))
    else c
  }

  /** The record is kept, stale fields included, while a tool block is open. */
  function NextCursor(c: Cursor, open: Option<Block>): Cursor {
    if open.None? then FRESH else c.(open := open)
  }

  function RunLines(json: Json, c: Cursor, lines: seq<string>): Output
    decreases |lines|
  {
    if lines == [] then Output([], None)
    else if lines[0] != "" then RunLines(json, ReadField(c, lines[0]), lines[1..])
    else
      var o := Dispatch(json, c.kind, c.data, c.open);
      if o.error.Some? then Output(o.yielded, o.error)
      else
        var rest := RunLines(json, NextCursor(c, o.open), lines[1..]);
        Output(o.yielded + rest.yielded, rest.error)
  }

  /** A content block, whose parameters grow in place. */
  class ContentBlock {
    const kind: Option<string>
    const id: Option<string>
    const name: Option<string>
    var parameters: Option<string>

    constructor (b: Block)
      ensures Value() == b
    {
      kind, id, name, parameters := b.kind, b.id, b.name, b.parameters;
    }

    function Value(): Block
      reads this
    {
      Block(kind, id, name, parameters)
    }

    method AppendDeltaParameters(fragment: string)
      modifies this
      ensures Value() == Appended(old(Value()), fragment)
    {
      parameters := Some(Str(parameters) + fragment);
    }
  }

  ghost function ValueOf(b: ContentBlock?): Option<Block>
    reads b
  {
    if b == null then None else Some(b.Value())
  }

  /** The end of an event, on the record's fields and its block object. */
  method EndEvent(json: Json, kind: Option<string>, data: Option<string>, before: ContentBlock?)
    returns (open: ContentBlock?, yielded: seq<Response>, error: Option<string>)
    modifies before
    ensures Outcome(ValueOf(open), yielded, error) == Dispatch(json, kind, data, old(ValueOf(before)))
    ensures open != null ==> open == before || fresh(open)
  {
    open, yielded, error := before, [], None;
    if kind == Some("content_block_start") && data.Some? && data.value != "" {
      match json.block(data.value) {
        case Err(e) => return open, [], Some(e);
        case Ok(b) =>
          if b.Some? && b.value.kind == Some("tool_use") {
            open := new ContentBlock(b.value);
          }
      }
    }
    if kind in RESPONSE_KINDS && data.Some? {
      match json.response(data.value) {
        case Err(e) => error := Some(e);
        case Ok(res) =>
          var partial := if res.delta.Some? then Str(res.delta.value.partialJson) else "";
          if res.delta.Some? && res.delta.value.kind == Some("input_json_delta") && partial != "" && open != null {
            open.AppendDeltaParameters(partial);
            yielded := [res];
          } else if res.delta.Some? && res.delta.value.stopReason == Some("tool_use") && open != null {
            yielded := [Attach(res, open.Value())];
            open := null;
          } else {
            yielded := [res];
          }
      }
    } else if kind == Some("error") && data.Some? {
      error := Some(match json.error(data.value) case Err(e) => e case Ok(m) => Str(m));
    }
  }

  /** After `yielded`, the remaining lines make `whole` of it. */
  ghost predicate Remains(whole: Output, yielded: seq<Response>, json: Json, c: Cursor, lines: seq<string>) {
    var rest := RunLines(json, c, lines);
    whole == Output(yielded + rest.yielded, rest.error)
  }

  /** One line, then the rest. */
  lemma LineStep(whole: Output, yielded: seq<Response>, json: Json, c: Cursor, line: string, rest: seq<string>)
    requires Remains(whole, yielded, json, c, [line] + rest)
    ensures line != "" ==> Remains(whole, yielded, json, ReadField(c, line), rest)
    ensures line == "" ==>
      var o := Dispatch(json, c.kind, c.data, c.open);
      if o.error.Some? then whole == Output(yielded + o.yielded, o.error)
      else Remains(whole, yielded + o.yielded, json, NextCursor(c, o.open), rest)
  {
    assert ([line] + rest)[1..] == rest;
    var o := Dispatch(json, c.kind, c.data, c.open);
    Regroup(yielded, o.yielded, RunLines(json, NextCursor(c, o.open), rest).yielded);
  }

  method StreamingChatCompletions(json: Json, lines: seq<string>)
    returns (yielded: seq<Response>, error: Option<string>)
    ensures Output(yielded, error) == RunLines(json, FRESH, lines)
  {
    var kind, data: Option<string> := None, None;
    var open: ContentBlock? := null;
    yielded := [];
    ghost var whole := RunLines(json, FRESH, lines);
    for i := 0 to |lines|
      invariant open != null ==> fresh(open)
      invariant Remains(whole, yielded, json, Cursor(kind, data, ValueOf(open)), lines[i..])
    {
      var line := lines[i];
      assert lines[i..] == [line] + lines[i + 1..];
      LineStep(whole, yielded, json, Cursor(kind, data, ValueOf(open)), line, lines[i + 1..]);
      if line != "" {
        if IsEventLine(line) {
          kind := Some(Trim(line[|EVENT|..]));
        } else if IsDataLine(line) {
          data := Some(Trim(line[|DATA|..]));
        }
      } else {
        var more;
        open, more, error := EndEvent(json, kind, data, open);
        yielded := yielded + more;
        if error.Some? {
          return;
        }
        if open == null {
          kind, data := None, None;
        }
      }
    }
    error := None;
  }

  // ----- The event transducer -----

  datatype Event = Event(kind: string, data: string)

  /** A transducer over whole events, whose only memory is the open tool block. */
  type Transducer = (Option<Block>, Event) -> Outcome

  function Reader(json: Json): Transducer {
    (open: Option<Block>, e: Event) => Dispatch(json, Some(e.kind), Some(e.data), open)
  }

  function RunEvents(on: Transducer, open: Option<Block>, events: seq<Event>): Output
    decreases |events|
  {
    if events == [] then Output([], None)
    else
      var o := on(open, events[0]);
      if o.error.Some? then Output(o.yielded, o.error)
      else
        var rest := RunEvents(on, o.open, events[1..]);
        Output(o.yielded + rest.yielded, rest.error)
  }

  /** The record after reading a group of non-empty lines. */
  function ReadFields(c: Cursor, lines: seq<string>): Cursor
    decreases |lines|
  {
    if lines == [] then c else ReadFields(ReadField(c, lines[0]), lines[1..])
  }

  /** The group sets both fields, in any order, possibly among ignored lines; the last line of each sort counts. */
  ghost predicate Renders(lines: seq<string>, e: Event) {
    && (forall i :: 0 <= i < |lines| ==> lines[i] != "")
    && (exists i :: 0 <= i < |lines| && IsEventLine(lines[i]) && Trim(lines[i][|EVENT|..]) == e.kind &&
          forall j :: i < j < |lines| ==> !IsEventLine(lines[j]))
    && (exists i :: 0 <= i < |lines| && IsDataLine(lines[i]) && Trim(lines[i][|DATA|..]) == e.data &&
          forall j :: i < j < |lines| ==> !IsDataLine(lines[j]))
  }

  /** Groups of lines, each ended by an empty line. */
  function Framed(groups: seq<seq<string>>): seq<string> {
    if groups == [] then [] else groups[0] + [""] + Framed(groups[1..])
  }

  lemma {:induction false} ReadGroup(json: Json, c: Cursor, group: seq<string>, rest: seq<string>)
    requires forall i :: 0 <= i < |group| ==> group[i] != ""
    ensures RunLines(json, c, group + rest) == RunLines(json, ReadFields(c, group), rest)
    decreases |group|
  {
    if group == [] {
      assert group + rest == rest;
    } else {
      assert (group + rest)[1..] == group[1..] + rest;
      ReadGroup(json, ReadField(c, group[0]), group[1..], rest);
    }
  }

  lemma {:induction false} FieldsKept(c: Cursor, lines: seq<string>)
    ensures ReadFields(c, lines).open == c.open
    ensures (forall j :: 0 <= j < |lines| ==> !IsEventLine(lines[j])) ==> ReadFields(c, lines).kind == c.kind
    ensures (forall j :: 0 <= j < |lines| ==> !IsDataLine(lines[j])) ==> ReadFields(c, lines).data == c.data
    decreases |lines|
  {
    if lines == [] {
    } else {
      FieldsKept(ReadField(c, lines[0]), lines[1..]);
    }
  }

  lemma {:induction false} LastEventLine(c: Cursor, lines: seq<string>, i: nat)
    requires i < |lines| && IsEventLine(lines[i]) && forall j :: i < j < |lines| ==> !IsEventLine(lines[j])
    ensures ReadFields(c, lines).kind == Some(Trim(lines[i][|EVENT|..]))
    decreases i
  {
    if i == 0 {
      FieldsKept(ReadField(c, lines[0]), lines[1..]);
    } else {
      LastEventLine(ReadField(c, lines[0]), lines[1..], i - 1);
    }
  }

  lemma {:induction false} LastDataLine(c: Cursor, lines: seq<string>, i: nat)
    requires i < |lines| && IsDataLine(lines[i]) && forall j :: i < j < |lines| ==> !IsDataLine(lines[j])
    ensures ReadFields(c, lines).data == Some(Trim(lines[i][|DATA|..]))
    decreases i
  {
    if i == 0 {
      FieldsKept(ReadField(c, lines[0]), lines[1..]);
    } else {
      LastDataLine(ReadField(c, lines[0]), lines[1..], i - 1);
    }
  }

  lemma GroupRead(c: Cursor, group: seq<string>, e: Event)
    requires Renders(group, e)
    ensures ReadFields(c, group) == Cursor(Some(e.kind), Some(e.data), c.open)
  {
    FieldsKept(c, group);
    var i :| 0 <= i < |group| && IsEventLine(group[i]) && Trim(group[i][|EVENT|..]) == e.kind &&
      forall j :: i < j < |group| ==> !IsEventLine(group[j]);
    LastEventLine(c, group, i);
    var k :| 0 <= k < |group| && IsDataLine(group[k]) && Trim(group[k][|DATA|..]) == e.data &&
      forall j :: k < j < |group| ==> !IsDataLine(group[j]);
    LastDataLine(c, group, k);
  }

  /** The empty line after an event does what the transducer does with it. */
  lemma EventEnds(json: Json, c: Cursor, e: Event, rest: seq<string>)
    requires c.kind == Some(e.kind) && c.data == Some(e.data)
    ensures var o := Reader(json)(c.open, e);
      RunLines(json, c, [""] + rest) ==
        if o.error.Some? then Output(o.yielded, o.error)
        else
          var later := RunLines(json, NextCursor(c, o.open), rest);
          Output(o.yielded + later.yielded, later.error)
  {
    assert ([""] + rest)[1..] == rest;
  }

  lemma GroupStep(json: Json, c: Cursor, group: seq<string>, e: Event, rest: seq<string>) returns (c': Cursor)
    requires Renders(group, e)
    ensures c' == Cursor(Some(e.kind), Some(e.data), c.open)
    ensures var o := Reader(json)(c.open, e);
      RunLines(json, c, group + ([""] + rest)) ==
        if o.error.Some? then Output(o.yielded, o.error)
        else
          var later := RunLines(json, NextCursor(c', o.open), rest);
          Output(o.yielded + later.yielded, later.error)
  {
    c' := Cursor(Some(e.kind), Some(e.data), c.open);
    ReadGroup(json, c, group, [""] + rest);
    GroupRead(c, group, e);
    EventEnds(json, c', e, rest);
  }

  /** Each group renders its event. */
  ghost predicate AllRender(groups: seq<seq<string>>, events: seq<Event>) {
    |groups| == |events| && forall i :: 0 <= i < |groups| ==> Renders(groups[i], events[i])
  }

  lemma AllRenderRest(groups: seq<seq<string>>, events: seq<Event>)
    requires AllRender(groups, events) && groups != []
    ensures Renders(groups[0], events[0]) && AllRender(groups[1..], events[1..])
  {
  }

  lemma FramedCons(groups: seq<seq<string>>, tail: seq<string>)
    requires groups != []
    ensures Framed(groups) + tail == groups[0] + ([""] + (Framed(groups[1..]) + tail))
  {
  }

  /**
   The line loop refines the transducer: whatever stale record `c` it starts from, and whatever
   unfinished event `tail` the stream ends with.
   */
  lemma {:induction false} LinesRefineEvents(
      json: Json, c: Cursor, groups: seq<seq<string>>, events: seq<Event>, tail: seq<string>)
    requires AllRender(groups, events) && forall i :: 0 <= i < |tail| ==> tail[i] != ""
    ensures RunLines(json, c, Framed(groups) + tail) == RunEvents(Reader(json), c.open, events)
    decreases |groups|
  {
    if groups == [] {
      ReadGroup(json, c, tail, []);
      assert Framed(groups) + tail == tail + [];
    } else {
      var rest := Framed(groups[1..]) + tail;
      FramedCons(groups, tail);
      AllRenderRest(groups, events);
      var c' := GroupStep(json, c, groups[0], events[0], rest);
      var o := Reader(json)(c.open, events[0]);
      if o.error.None? {
        LinesRefineEvents(json, NextCursor(c', o.open), groups[1..], events[1..], tail);
      }
    }
  }

  /** The plain rendering: an event line, a data line and an empty line. */
  function Render(events: seq<Event>): seq<string> {
    if events == [] then []
    else ["event: " + events[0].kind, "data: " + events[0].data, ""] + Render(events[1..])
  }

  lemma {:induction false} RenderRefines(json: Json, events: seq<Event>)
    requires forall i :: 0 <= i < |events| ==>
      Trim(events[i].kind) == events[i].kind && Trim(events[i].data) == events[i].data
    ensures RunLines(json, FRESH, Render(events)) == RunEvents(Reader(json), None, events)
  {
    var groups := seq(|events|, i requires 0 <= i < |events| =>
      ["event: " + events[i].kind, "data: " + events[i].data]);
    forall i | 0 <= i < |events| ensures Renders(groups[i], events[i]) {
      PlainGroup(events[i]);
    }
    RenderFramed(events, groups);
    LinesRefineEvents(json, FRESH, groups, events, []);
    assert Framed(groups) + [] == Render(events);
  }

  lemma PlainGroup(e: Event)
    requires Trim(e.kind) == e.kind && Trim(e.data) == e.data
    ensures Renders(["event: " + e.kind, "data: " + e.data], e)
  {
    var group := ["event: " + e.kind, "data: " + e.data];
    assert group[0][..6] == EVENT && group[0][|EVENT|..] == " " + e.kind;
    assert group[1][..5] == DATA && group[1][|DATA|..] == " " + e.data && group[1][0] != EVENT[0];
    assert (" " + e.kind)[1..] == e.kind && (" " + e.data)[1..] == e.data;
    assert IsEventLine(group[0]) && IsDataLine(group[1]);
    assert Trim(group[0][|EVENT|..]) == e.kind && Trim(group[1][|DATA|..]) == e.data;
  }

  lemma {:induction false} RenderFramed(events: seq<Event>, groups: seq<seq<string>>)
    requires |groups| == |events|
    requires forall i :: 0 <= i < |groups| ==> groups[i] == ["event: " + events[i].kind, "data: " + events[i].data]
    ensures Framed(groups) == Render(events)
    decreases |events|
  {
    if events == [] {
    } else {
      RenderFramed(events[1..], groups[1..]);
    }
  }

  /**
   After an event that raised nothing, an extra empty line is harmless whatever follows, exactly
   unless a tool block is still open and the record, which is then kept, holds a response.
   */
  lemma ExtraEmptyLine(json: Json, c: Cursor)
    requires Dispatch(json, c.kind, c.data, c.open).error.None?
    ensures var next := NextCursor(c, Dispatch(json, c.kind, c.data, c.open).open);
      (forall lines :: RunLines(json, next, [""] + lines) == RunLines(json, next, lines)) <==>
        next.open.None? || !(IsResponseKind(c.kind) && c.data.Some?)
  {
    var next := NextCursor(c, Dispatch(json, c.kind, c.data, c.open).open);
    var again := Dispatch(json, next.kind, next.data, next.open);
    if next.open.None? || !(IsResponseKind(c.kind) && c.data.Some?) {
      assert again == Outcome(next.open, [], None);
      forall lines ensures RunLines(json, next, [""] + lines) == RunLines(json, next, lines) {
        assert ([""] + lines)[1..] == lines;
        assert [] + RunLines(json, next, lines).yielded == RunLines(json, next, lines).yielded;
      }
    } else {
      assert [""] + [] == [""];
      assert RunLines(json, next, [""] + []) != RunLines(json, next, []);
    }
  }

  // ----- The data field of the standard -----

  const DATA_NAME := "data"

  /** Section 9.2.6 of the WHATWG HTML Standard: the name is what precedes the first colon, or the whole line. */
  predicate IsDataField(line: string) { DATA <= line || line == DATA_NAME }

  /** The standard strips one leading space, where the reader trims both ends. */
  function StripSpace(s: string): string {
    if s != "" && s[0] == ' ' then s[1..] else s
  }

  function DataValue(line: string): string
    requires IsDataField(line)
  {
    if DATA <= line then StripSpace(line[|DATA|..]) else ""
  }

  function DataValues(lines: seq<string>): seq<string> {
    if lines == [] then []
    else (if IsDataField(lines[0]) then [DataValue(lines[0])] else []) + DataValues(lines[1..])
  }

  function JoinLines(values: seq<string>): string
    requires values != []
  {
    if |values| == 1 then values[0] else values[0] + ("\n" + JoinLines(values[1..]))
  }

  /** The data of an event as the standard defines it: the values of all its data fields, one on each line. */
  function StandardData(lines: seq<string>): Option<string> {
    if DataValues(lines) == [] then None else Some(JoinLines(DataValues(lines)))
  }

  lemma {:induction false} TrimStartShortens(s: string)
    ensures |TrimStart(s)| <= |s|
  {
    if s == "" {
    } else {
      TrimStartShortens(s[1..]);
    }
  }

  lemma {:induction false} TrimEndShortens(s: string)
    ensures |TrimEnd(s)| <= |s|
  {
    if s == "" {
    } else {
      TrimEndShortens(s[..|s| - 1]);
    }
  }

  lemma TrimShorter(s: string)
    ensures |Trim(s)| <= |StripSpace(s)|
  {
    TrimEndShortens(TrimStart(s));
    if s != "" && s[0] == ' ' {
      TrimStartShortens(s[1..]);
    } else {
      TrimStartShortens(s);
    }
  }

  lemma {:induction false} JoinLonger(values: seq<string>, k: nat)
    requires k < |values| && |values| > 1
    ensures |JoinLines(values)| > |values[k]|
    decreases |values|
  {
    if |values| == 2 || k == 0 {
    } else {
      JoinLonger(values[1..], k - 1);
    }
  }

  lemma {:induction false} ValueOfLine(lines: seq<string>, i: nat) returns (k: nat)
    requires i < |lines| && IsDataField(lines[i])
    ensures k < |DataValues(lines)| && DataValues(lines)[k] == DataValue(lines[i])
    decreases i
  {
    if i == 0 {
      k := 0;
    } else {
      k := ValueOfLine(lines[1..], i - 1);
      k := k + if IsDataField(lines[0]) then 1 else 0;
    }
  }

  /** The last line with a `data:` prefix, or -1. */
  function LastData(lines: seq<string>): (i: int)
    ensures -1 <= i < |lines|
    ensures i >= 0 ==> DATA <= lines[i] && IsDataLine(lines[i])
    ensures forall j :: i < j < |lines| ==> !IsDataLine(lines[j])
  {
    if lines == [] then -1
    else if IsDataLine(lines[|lines| - 1]) then |lines| - 1
    else LastData(lines[..|lines| - 1])
  }

  lemma JoinedOne(values: seq<string>)
    requires |values| == 1
    ensures JoinLines(values) == values[0]
  {
  }

  /** With a `data:` line the reader holds the trimmed last one; the standard joins all values. */
  lemma ReadsLastData(lines: seq<string>, i: nat)
    requires i < |lines| && DATA <= lines[i]
    ensures Some(Trim(lines[i][|DATA|..])) == StandardData(lines) <==>
      |DataValues(lines)| == 1 && Trim(lines[i][|DATA|..]) == StripSpace(lines[i][|DATA|..])
  {
    var values := DataValues(lines);
    var k := ValueOfLine(lines, i);
    if |values| == 1 {
      JoinedOne(values);
    } else {
      TrimShorter(lines[i][|DATA|..]);
      JoinLonger(values, k);
    }
  }

  /**
   What the reader holds after the lines of one event is the data the standard defines, exactly
   when the event has a single data field and trimming its value strips no more than one leading
   space. Without a `data:` line the reader keeps what the record held before.
   */
  lemma ReadsStandardData(c: Cursor, lines: seq<string>)
    ensures var i := LastData(lines);
      ReadFields(c, lines).data == StandardData(lines) <==>
        if i == -1 then c.data == StandardData(lines)
        else |DataValues(lines)| == 1 && Trim(lines[i][|DATA|..]) == StripSpace(lines[i][|DATA|..])
  {
    var i := LastData(lines);
    if i == -1 {
      FieldsKept(c, lines);
    } else {
      LastDataLine(c, lines, i);
      ReadsLastData(lines, i);
    }
  }

  /** For example, of two data lines the standard keeps both and the reader the second. */
  lemma TwoDataLines(c: Cursor)
    ensures StandardData(["data: a", "data: b"]) == Some("a\nb")
    ensures ReadFields(c, ["data: a", "data: b"]).data == Some("b")
  {
    var lines := ["data: a", "data: b"];
    assert lines[0][|DATA|..] == " a" && lines[1][|DATA|..] == " b";
    assert lines[0][..|DATA|] == DATA && lines[1][..|DATA|] == DATA && lines[1][0] != EVENT[0];
    assert DataValues(lines[1..]) == ["b"] && DataValues(lines) == ["a", "b"];
    assert JoinLines(["b"]) == "b" && ["a", "b"][1..] == ["b"];
    assert "a" + ("\n" + "b") == "a\nb";
    assert TrimStart(" b") == TrimStart("b") == "b" && TrimEnd("b") == "b";
    LastDataLine(c, lines, 1);
  }

  // ----- Events that set only one field -----

  /** What the end of a group of lines does, on top of the record `c`. */
  function GroupOutcome(json: Json, c: Cursor, group: seq<string>): Outcome {
    var d := ReadFields(c, group);
    Dispatch(json, d.kind, d.data, d.open)
  }

  /** Dispatching yields nothing, raises nothing and leaves the open block as it is. */
  predicate Inert(json: Json, kind: Option<string>, data: Option<string>, open: Option<Block>) {
    data.Some? ==>
      && !IsResponseKind(kind) && kind != Some("error")
      && (kind == Some("content_block_start") && data.value != "" ==>
            && json.block(data.value).Ok?
            && (var b := json.block(data.value).value; b.Some? && b.value.kind == Some("tool_use") ==> b == open))
  }

  lemma InertExactly(json: Json, kind: Option<string>, data: Option<string>, open: Option<Block>)
    ensures Dispatch(json, kind, data, open) == Outcome(open, [], None) <==> Inert(json, kind, data, open)
  {
  }

  /** The group has a line for each field. */
  ghost predicate SetsBoth(group: seq<string>) {
    && (exists i :: 0 <= i < |group| && IsEventLine(group[i]))
    && (exists i :: 0 <= i < |group| && IsDataLine(group[i]))
  }

  lemma {:induction false} EventLineDecides(c: Cursor, d: Cursor, group: seq<string>)
    requires exists i :: 0 <= i < |group| && IsEventLine(group[i])
    ensures ReadFields(c, group).kind == ReadFields(d, group).kind
    decreases |group|
  {
    if exists i :: 0 <= i < |group[1..]| && IsEventLine(group[1..][i]) {
      EventLineDecides(ReadField(c, group[0]), ReadField(d, group[0]), group[1..]);
    } else {
      assert forall i :: 1 <= i < |group| ==> group[i] == group[1..][i - 1];
      FieldsKept(ReadField(c, group[0]), group[1..]);
      FieldsKept(ReadField(d, group[0]), group[1..]);
    }
  }

  lemma {:induction false} DataLineDecides(c: Cursor, d: Cursor, group: seq<string>)
    requires exists i :: 0 <= i < |group| && IsDataLine(group[i])
    ensures ReadFields(c, group).data == ReadFields(d, group).data
    decreases |group|
  {
    if exists i :: 0 <= i < |group[1..]| && IsDataLine(group[1..][i]) {
      DataLineDecides(ReadField(c, group[0]), ReadField(d, group[0]), group[1..]);
    } else {
      assert forall i :: 1 <= i < |group| ==> group[i] == group[1..][i - 1];
      FieldsKept(ReadField(c, group[0]), group[1..]);
      FieldsKept(ReadField(d, group[0]), group[1..]);
    }
  }

  /**
   A group acts on a kept record as it would on a reset one with the same block, exactly when it
   sets both fields, or what it reads together with the held fields is inert. Otherwise it replays
   the held kind or data.
   */
  lemma ReplaysExactlyWhenIncomplete(json: Json, c: Cursor, group: seq<string>)
    ensures GroupOutcome(json, c, group) == GroupOutcome(json, Cursor(None, None, c.open), group) <==>
      SetsBoth(group) || Inert(json, ReadFields(c, group).kind, ReadFields(c, group).data, c.open)
  {
    var reset := Cursor(None, None, c.open);
    FieldsKept(c, group);
    FieldsKept(reset, group);
    if SetsBoth(group) {
      EventLineDecides(c, reset, group);
      DataLineDecides(c, reset, group);
    } else {
      var d := ReadFields(reset, group);
      InertExactly(json, d.kind, d.data, c.open);
      InertExactly(json, ReadFields(c, group).kind, ReadFields(c, group).data, c.open);
    }
  }

  /** Without an open tool block the record has been reset, so an incomplete group is skipped. */
  lemma IncompleteGroupSkipped(json: Json, group: seq<string>, rest: seq<string>)
    requires (forall i :: 0 <= i < |group| ==> group[i] != "") && !SetsBoth(group)
    ensures RunLines(json, FRESH, group + ([""] + rest)) == RunLines(json, FRESH, rest)
  {
    var d := ReadFields(FRESH, group);
    FieldsKept(FRESH, group);
    ReadGroup(json, FRESH, group, [""] + rest);
    InertExactly(json, d.kind, d.data, None);
    assert ([""] + rest)[1..] == rest;
    assert [] + RunLines(json, FRESH, rest).yielded == RunLines(json, FRESH, rest).yielded;
  }

  // ----- The tool content that is attached -----

  /** The response an event carries, if it is of a kind that carries one. */
  function ResponseOf(json: Json, e: Event): Option<Response> {
    if IsResponseKind(Some(e.kind)) && json.response(e.data).Ok? then Some(json.response(e.data).value) else None
  }

  /** The tool block an event opens, if it opens one. */
  function ToolBlockOf(json: Json, e: Event): Option<Block> {
    if e.kind == "content_block_start" && e.data != "" && json.block(e.data).Ok? then
      var b := json.block(e.data).value;
      if b.Some? && b.value.kind == Some("tool_use") then b else None
    else None
  }

  function FragmentOf(json: Json, e: Event): string {
    var res := ResponseOf(json, e);
    if res.Some? && IsFragment(res.value) then res.value.delta.value.partialJson.value else ""
  }

  function Fragments(json: Json, events: seq<Event>): string {
    if events == [] then "" else FragmentOf(json, events[0]) + Fragments(json, events[1..])
  }

  /** The event neither opens a tool block nor ends one. */
  predicate InsideBlock(json: Json, e: Event) {
    ToolBlockOf(json, e).None? && (ResponseOf(json, e).Some? ==> !IsToolStop(ResponseOf(json, e).value))
  }

  function OpenAfter(on: Transducer, open: Option<Block>, events: seq<Event>): Option<Block>
    decreases |events|
  {
    if events == [] then open else OpenAfter(on, on(open, events[0]).open, events[1..])
  }

  lemma Regroup(a: seq<Response>, b: seq<Response>, c: seq<Response>)
    ensures a + (b + c) == (a + b) + c
  {
  }

  lemma {:induction false} RunEventsAppend(on: Transducer, open: Option<Block>, a: seq<Event>, b: seq<Event>)
    ensures OpenAfter(on, open, a + b) == OpenAfter(on, OpenAfter(on, open, a), b)
    ensures RunEvents(on, open, a).error.None? ==>
      var rest := RunEvents(on, OpenAfter(on, open, a), b);
      RunEvents(on, open, a + b) == Output(RunEvents(on, open, a).yielded + rest.yielded, rest.error)
    ensures RunEvents(on, open, a).error.Some? ==> RunEvents(on, open, a + b).error.Some?
    decreases |a|
  {
    if a == [] {
      assert a + b == b;
      assert [] + RunEvents(on, open, b).yielded == RunEvents(on, open, b).yielded;
    } else {
      var o := on(open, a[0]);
      assert (a + b)[1..] == a[1..] + b && (a + b)[0] == a[0];
      RunEventsAppend(on, o.open, a[1..], b);
      Regroup(o.yielded, RunEvents(on, o.open, a[1..]).yielded,
              RunEvents(on, OpenAfter(on, o.open, a[1..]), b).yielded);
    }
  }

  lemma FragmentApplied(json: Json, b: Block, e: Event)
    requires InsideBlock(json, e) && Reader(json)(Some(b), e).error.None?
    ensures var f := FragmentOf(json, e); Reader(json)(Some(b), e).open == Some(if f == "" then b else Appended(b, f))
  {
  }

  lemma AppendTwice(b: Block, f: string, g: string)
    ensures Appended(Appended(b, f), g) == Appended(b, f + g)
    ensures f == "" ==> f + g == g
    ensures g == "" ==> f + g == f
  {
    assert Str(b.parameters) + f + g == Str(b.parameters) + (f + g);
  }

  /** While a block is open, its parameters are the fragments seen so far, in order. */
  lemma {:induction false} BlockCollects(json: Json, b: Block, events: seq<Event>)
    requires forall i :: 0 <= i < |events| ==> InsideBlock(json, events[i])
    requires RunEvents(Reader(json), Some(b), events).error.None?
    ensures OpenAfter(Reader(json), Some(b), events) ==
      Some(if Fragments(json, events) == "" then b else Appended(b, Fragments(json, events)))
    decreases |events|
  {
    if events == [] {
    } else {
      FragmentApplied(json, b, events[0]);
      var f, rest := FragmentOf(json, events[0]), Fragments(json, events[1..]);
      BlockCollects(json, if f == "" then b else Appended(b, f), events[1..]);
      AppendTwice(b, f, rest);
    }
  }

  /**
   When the message stops for tool use, the content attached is that of the latest tool block,
   with all its non-empty fragments concatenated in order, whatever came before.
   */
  lemma ToolContentAttached(
      json: Json, pre: seq<Event>, start: Event, mid: seq<Event>, stop: Event, b: Block, res: Response)
    requires RunEvents(Reader(json), None, pre + ([start] + mid)).error.None?
    requires ToolBlockOf(json, start) == Some(b)
    requires forall i :: 0 <= i < |mid| ==> InsideBlock(json, mid[i])
    requires ResponseOf(json, stop) == Some(res) && IsToolStop(res)
    ensures var sofar := RunEvents(Reader(json), None, pre + ([start] + mid)).yielded;
      var input := if Fragments(json, mid) == "" then b.parameters else Some(Str(b.parameters) + Fragments(json, mid));
      var tool := ToolUse(b.id, b.name, input);
      RunEvents(Reader(json), None, pre + ([start] + mid) + [stop]) ==
        Output(sofar + [res.(content := Some((if res.content.None? then [] else res.content.value) + [tool]))], None)
  {
    var on := Reader(json);
    var before := OpenAfter(on, None, pre);
    RunEventsAppend(on, None, pre, [start] + mid);
    RunEventsAppend(on, before, [start], mid);
    BlockOpened(json, before, start, b);
    BlockCollects(json, b, mid);
    RunEventsAppend(on, None, pre + ([start] + mid), [stop]);
    BlockAttached(json, OpenAfter(on, None, pre + ([start] + mid)).value, stop, res);
  }

  lemma BlockOpened(json: Json, before: Option<Block>, start: Event, b: Block)
    requires ToolBlockOf(json, start) == Some(b)
    ensures OpenAfter(Reader(json), before, [start]) == Some(b)
  {
    assert [start][1..] == [];
  }

  lemma BlockAttached(json: Json, b: Block, stop: Event, res: Response)
    requires ResponseOf(json, stop) == Some(res) && IsToolStop(res)
    ensures var tool := ToolUse(b.id, b.name, b.parameters);
      RunEvents(Reader(json), Some(b), [stop]) ==
        Output([res.(content := Some((if res.content.None? then [] else res.content.value) + [tool]))], None)
  {
    var tool := ToolUse(b.id, b.name, b.parameters);
    assert [stop][1..] == [] && [] + [tool] == [tool];
    assert [Attach(res, b)] + [] == [Attach(res, b)];
  }

  // ----- What a stream yields and raises -----

  predicate Carries(e: Event) {
    e.kind == "message_start" || e.kind == "content_block_delta" || e.kind == "message_delta"
  }

  /** A response as it is yielded: with the open block's content added if it stops for tool use. */
  function Delivered(res: Response, open: Option<Block>): Response {
    if IsToolStop(res) && open.Some? then
      var tool := ToolUse(open.value.id, open.value.name, open.value.parameters);
      res.(content := Some((if res.content.None? then [] else res.content.value) + [tool]))
    else res
  }

  /** What an event raises: a block or response that cannot be read, or an error event. */
  function Raised(json: Json, e: Event): Option<string> {
    if e.kind == "content_block_start" && e.data != "" && json.block(e.data).Err? then Some(json.block(e.data).error)
    else if Carries(e) && json.response(e.data).Err? then Some(json.response(e.data).error)
    else if e.kind == "error" then Some(match json.error(e.data) case Err(x) => x case Ok(m) => Str(m))
    else None
  }

  lemma OneEvent(json: Json, open: Option<Block>, e: Event)
    ensures var o := Reader(json)(open, e);
      && o.error == Raised(json, e)
      && (o.error.Some? ==> o.yielded == [])
      && (o.error.None? && Carries(e) ==>
            json.response(e.data).Ok? && o.yielded == [Delivered(json.response(e.data).value, open)])
      && (o.error.None? && !Carries(e) ==> o.yielded == [])
  {
    if Carries(e) && json.response(e.data).Ok? && open.Some? {
      var tool := ToolUse(open.value.id, open.value.name, open.value.parameters);
      assert [] + [tool] == [tool];
    }
  }

  lemma RunEventsSnoc(on: Transducer, open: Option<Block>, events: seq<Event>, e: Event)
    requires RunEvents(on, open, events).error.None?
    ensures var run, o := RunEvents(on, open, events), on(OpenAfter(on, open, events), e);
      RunEvents(on, open, events + [e]) == Output(run.yielded + o.yielded, o.error)
  {
    RunEventsAppend(on, open, events, [e]);
    assert [e][1..] == [];
    var o := on(OpenAfter(on, open, events), e);
    assert o.yielded + [] == o.yielded;
  }

  /** `yielded` has one response per carrying event, as delivered with the block open at the time. */
  ghost predicate EachDelivered(json: Json, open: Option<Block>, events: seq<Event>, yielded: seq<Response>) {
    var ks := Positions(events, Carries);
    && |yielded| == |ks|
    && forall j :: 0 <= j < |ks| ==>
         && json.response(events[ks[j]].data).Ok?
         && yielded[j] ==
              Delivered(json.response(events[ks[j]].data).value, OpenAfter(Reader(json), open, events[..ks[j]]))
  }

  lemma EachDeliveredSnoc(json: Json, open: Option<Block>, events: seq<Event>, e: Event, yielded: seq<Response>)
    requires EachDelivered(json, open, events, yielded) && (Carries(e) ==> json.response(e.data).Ok?)
    ensures var now :=
        if Carries(e) then [Delivered(json.response(e.data).value, OpenAfter(Reader(json), open, events))] else [];
      EachDelivered(json, open, events + [e], yielded + now)
  {
    PositionsSnoc(events, e, Carries);
    var ks, all := Positions(events, Carries), events + [e];
    assert all[..|events|] == events;
    forall j | 0 <= j < |ks| ensures all[ks[j]] == events[ks[j]] && all[..ks[j]] == events[..ks[j]] {
    }
  }

  /**
   For every event list and every open block: if nothing is raised, exactly one response is
   yielded for each event that carries one, in order and as it was read; only at a stop for tool
   use with an open block is the block's content added.
   */
  lemma {:induction false} OneResponsePerEvent(json: Json, open: Option<Block>, events: seq<Event>)
    requires RunEvents(Reader(json), open, events).error.None?
    ensures EachDelivered(json, open, events, RunEvents(Reader(json), open, events).yielded)
    decreases |events|
  {
    if events == [] {
    } else {
      var front, e, on := events[..|events| - 1], events[|events| - 1], Reader(json);
      assert front + [e] == events;
      RunEventsAppend(on, open, front, [e]);
      OneResponsePerEvent(json, open, front);
      RunEventsSnoc(on, open, front, e);
      OneEvent(json, OpenAfter(on, open, front), e);
      EachDeliveredSnoc(json, open, front, e, RunEvents(on, open, front).yielded);
    }
  }

  ghost predicate FirstRaised(json: Json, events: seq<Event>, k: int) {
    0 <= k < |events| && Raised(json, events[k]).Some? && forall j :: 0 <= j < k ==> Raised(json, events[j]).None?
  }

  /** The transducer raises what `raised` says, whatever block is open, and then yields nothing. */
  ghost predicate RaisesAs(on: Transducer, raised: Event -> Option<string>) {
    forall open, e :: on(open, e).error == raised(e) && (raised(e).Some? ==> on(open, e).yielded == [])
  }

  ghost predicate FirstOf(raised: Event -> Option<string>, events: seq<Event>, k: int) {
    0 <= k < |events| && raised(events[k]).Some? && forall j :: 0 <= j < k ==> raised(events[j]).None?
  }

  lemma {:induction false} RunFails(
      on: Transducer, raised: Event -> Option<string>, open: Option<Block>, events: seq<Event>, k: int)
    requires RaisesAs(on, raised) && FirstOf(raised, events, k)
    ensures RunEvents(on, open, events) == Output(RunEvents(on, open, events[..k]).yielded, raised(events[k]))
    decreases k
  {
    if k == 0 {
    } else {
      assert events[..k][1..] == events[1..][..k - 1] && raised(events[0]).None?;
      assert forall j :: 0 <= j < k - 1 ==> events[1..][j] == events[j + 1];
      RunFails(on, raised, on(open, events[0]).open, events[1..], k - 1);
    }
  }

  lemma {:induction false} RunSucceeds(
      on: Transducer, raised: Event -> Option<string>, open: Option<Block>, events: seq<Event>)
    requires RaisesAs(on, raised) && forall k :: 0 <= k < |events| ==> raised(events[k]).None?
    ensures RunEvents(on, open, events).error.None?
    decreases |events|
  {
    if events == [] {
    } else {
      RunSucceeds(on, raised, on(open, events[0]).open, events[1..]);
    }
  }

  /** A stream fails exactly at the first event that raises, after what the events before it yield. */
  lemma FailsAtFirstRaised(json: Json, open: Option<Block>, events: seq<Event>)
    ensures (forall k :: 0 <= k < |events| ==> Raised(json, events[k]).None?) ==>
      RunEvents(Reader(json), open, events).error.None?
    ensures forall k :: FirstRaised(json, events, k) ==>
      RunEvents(Reader(json), open, events) ==
        Output(RunEvents(Reader(json), open, events[..k]).yielded, Raised(json, events[k]))
  {
    var on, raised := Reader(json), (e: Event) => Raised(json, e);
    forall open, e ensures on(open, e).error == raised(e) && (raised(e).Some? ==> on(open, e).yielded == []) {
      OneEvent(json, open, e);
    }
    assert RaisesAs(on, raised);
    if forall k :: 0 <= k < |events| ==> Raised(json, events[k]).None? {
      RunSucceeds(on, raised, open, events);
    }
    forall k | FirstRaised(json, events, k)
      ensures RunEvents(on, open, events) == Output(RunEvents(on, open, events[..k]).yielded, Raised(json, events[k]))
    {
      RunFails(on, raised, open, events, k);
    }
  }

  /** Event `j` opens a tool block, and no later event opens or ends one. */
  ghost predicate LatestOpening(json: Json, events: seq<Event>, j: nat) {
    j < |events| && ToolBlockOf(json, events[j]).Some? && forall i :: j < i < |events| ==> InsideBlock(json, events[i])
  }

  /** After a stream that raised nothing, a block is open exactly if one was opened and not ended since. */
  lemma {:induction false} BlockOpenExactly(json: Json, events: seq<Event>)
    requires RunEvents(Reader(json), None, events).error.None?
    ensures OpenAfter(Reader(json), None, events).Some? <==> exists j: nat :: LatestOpening(json, events, j)
    decreases |events|
  {
    if events == [] {
    } else {
      var n := |events| - 1;
      var front, e, on := events[..n], events[n], Reader(json);
      assert front + [e] == events;
      RunEventsAppend(on, None, front, [e]);
      BlockOpenExactly(json, front);
      RunEventsSnoc(on, None, front, e);
      OpenSnoc(on, None, front, e);
      var open := OpenAfter(on, None, front);
      OpenStep(json, open, e);
      LatestOpeningSnoc(json, front, e);
    }
  }

  lemma OpenSnoc(on: Transducer, open: Option<Block>, events: seq<Event>, e: Event)
    ensures OpenAfter(on, open, events + [e]) == on(OpenAfter(on, open, events), e).open
  {
    RunEventsAppend(on, open, events, [e]);
    assert [e][1..] == [];
  }

  lemma OpenStep(json: Json, open: Option<Block>, e: Event)
    requires Reader(json)(open, e).error.None?
    ensures Reader(json)(open, e).open.Some? <==>
      ToolBlockOf(json, e).Some? || (open.Some? && InsideBlock(json, e))
  {
  }

  lemma LatestOpeningSnoc(json: Json, front: seq<Event>, e: Event)
    ensures (exists j: nat :: LatestOpening(json, front + [e], j)) <==>
      ToolBlockOf(json, e).Some? || ((exists j: nat :: LatestOpening(json, front, j)) && InsideBlock(json, e))
  {
    var events, n := front + [e], |front|;
    assert events[n] == e && forall i :: 0 <= i < n ==> events[i] == front[i];
    if ToolBlockOf(json, e).Some? {
      assert LatestOpening(json, events, n);
    } else if exists j: nat :: LatestOpening(json, events, j) {
      var j: nat :| LatestOpening(json, events, j);
      assert j < n && LatestOpening(json, front, j) && InsideBlock(json, events[n]);
    } else if (exists j: nat :: LatestOpening(json, front, j)) && InsideBlock(json, e) {
      var j: nat :| LatestOpening(json, front, j);
      assert LatestOpening(json, events, j);
    }
  }

  /** The open block is the one opened last, with the fragments since then appended. */
  lemma OpenBlockIs(json: Json, events: seq<Event>, j: nat)
    requires RunEvents(Reader(json), None, events).error.None? && LatestOpening(json, events, j)
    ensures var b, f := ToolBlockOf(json, events[j]).value, Fragments(json, events[j + 1..]);
      OpenAfter(Reader(json), None, events) ==
        Some(if f == "" then b else Block(b.kind, b.id, b.name, Some(Str(b.parameters) + f)))
  {
    var on, pre, start, mid := Reader(json), events[..j], events[j], events[j + 1..];
    var before := OpenAfter(on, None, pre);
    assert events == pre + ([start] + mid);
    RunEventsAppend(on, None, pre, [start] + mid);
    RunEventsAppend(on, before, [start], mid);
    BlockOpened(json, before, start, ToolBlockOf(json, start).value);
    BlockCollects(json, ToolBlockOf(json, start).value, mid);
  }

  // ----- Trimming -----

  ghost predicate AllSpace(s: string) { forall i :: 0 <= i < |s| ==> IsSpace(s[i]) }

  lemma {:induction false} TrimStartDrops(s: string) returns (before: string)
    ensures s == before + TrimStart(s) && AllSpace(before)
    ensures TrimStart(s) != "" ==> !IsSpace(TrimStart(s)[0])
  {
    if s != "" && IsSpace(s[0]) {
      var rest := TrimStartDrops(s[1..]);
      before := [s[0]] + rest;
      assert s == [s[0]] + s[1..];
    } else {
      before := "";
    }
  }

  lemma {:induction false} TrimEndDrops(s: string) returns (after: string)
    ensures s == TrimEnd(s) + after && AllSpace(after)
    ensures TrimEnd(s) != "" ==> !IsSpace(TrimEnd(s)[|TrimEnd(s)| - 1])
  {
    if s != "" && IsSpace(s[|s| - 1]) {
      var rest := TrimEndDrops(s[..|s| - 1]);
      after := rest + [s[|s| - 1]];
      assert s == s[..|s| - 1] + [s[|s| - 1]];
    } else {
      after := "";
    }
  }

  /** Trimming takes white space off both ends, all of it and nothing else. */
  lemma TrimIs(s: string) returns (before: string, after: string)
    ensures s == before + Trim(s) + after && AllSpace(before) && AllSpace(after)
    ensures Trim(s) != "" ==> !IsSpace(Trim(s)[0]) && !IsSpace(Trim(s)[|Trim(s)| - 1])
  {
    before := TrimStartDrops(s);
    after := TrimEndDrops(TrimStart(s));
    if Trim(s) != "" {
      assert Trim(s)[0] == TrimStart(s)[0];
    }
  }

  /** The responses the events carry, in order. */
  function Responses(json: Json, events: seq<Event>): seq<Response> {
    if events == [] then []
    else
      var res := ResponseOf(json, events[0]);
      (if res.Some? then [res.value] else []) + Responses(json, events[1..])
  }

  /** Without tool blocks the stream yields every response as it came. */
  lemma {:induction false} PlainStream(json: Json, events: seq<Event>)
    requires forall i :: 0 <= i < |events| ==> ToolBlockOf(json, events[i]).None?
    requires RunEvents(Reader(json), None, events).error.None?
    ensures RunEvents(Reader(json), None, events).yielded == Responses(json, events)
    decreases |events|
  {
    if events == [] {
    } else {
      PlainEvent(json, events[0]);
      PlainStream(json, events[1..]);
    }
  }

  lemma PlainEvent(json: Json, e: Event)
    requires ToolBlockOf(json, e).None? && Reader(json)(None, e).error.None?
    ensures Reader(json)(None, e).open.None?
    ensures Reader(json)(None, e).yielded == if ResponseOf(json, e).Some? then [ResponseOf(json, e).value] else []
  {
  }
}
