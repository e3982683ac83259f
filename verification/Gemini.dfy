/** The streaming Gemini connector, and the function-call middleware on top of it. */
module Gemini {
  import opened Wrappers
  import opened ToolCalls
  import opened FunctionCall

  datatype Part = TextPart(text: string) | CallPart(name: string, args: string) | OtherPart

  datatype Candidate = Candidate(parts: Option<seq<Part>>, stop: bool)

  datatype Response = Response(candidates: seq<Candidate>)

  /** Exactly one candidate, with content. */
  predicate HasContent(r: Response) { |r.candidates| == 1 && r.candidates[0].parts.Some? }

  function Parts(r: Response): seq<Part>
    requires HasContent(r)
  {
    r.candidates[0].parts.value
  }

  predicate IsText(r: Response) { HasContent(r) && |Parts(r)| == 1 && Parts(r)[0].TextPart? }

  predicate IsCall(r: Response) { HasContent(r) && |Parts(r)| == 1 && Parts(r)[0].CallPart? }

  /** The function calls among some parts. */
  function CallParts(parts: seq<Part>): seq<ToolCall> {
    if parts == [] then []
    else
      var last := parts[|parts| - 1];
      CallParts(parts[..|parts| - 1]) + if last.CallPart? then [ToolCall(last.name, last.args, None, None)] else []
  }

  function CallsOf(r: Response): seq<ToolCall> {
    if HasContent(r) then CallParts(Parts(r)) else []
  }

  /** Every function call of the stream, in order. */
  function CallsIn(rs: seq<Response>): seq<ToolCall> {
    if rs == [] then [] else CallsIn(rs[..|rs| - 1]) + CallsOf(rs[|rs| - 1])
  }

  /** The function calls of those responses that consist of a single call. */
  function SingleCalls(rs: seq<Response>): seq<ToolCall> {
    if rs == [] then []
    else SingleCalls(rs[..|rs| - 1]) + if IsCall(rs[|rs| - 1]) then CallsOf(rs[|rs| - 1]) else []
  }

  function JoinedText(rs: seq<Response>): string {
    if rs == [] then ""
    else JoinedText(rs[..|rs| - 1]) + if IsText(rs[|rs| - 1]) then Parts(rs[|rs| - 1])[0].text else ""
  }

  function PostProcess(r: Response, agent: string): Result<Message> {
    if |r.candidates| != 1 then Err("The response should contain exactly one candidate.")
    else if r.candidates[0].parts.None? then Err("The response should contain content but the content is empty.")
    else if IsText(r) then Ok(TextUpdate(Parts(r)[0].text, Some(agent)))
    else if CallsOf(r) != [] then Ok(Tools(ToolMessage(CallsOf(r), Some(agent), None)))
    else Err("The response should contain either text or tool calls.")
  }

  predicate AllText(rs: seq<Response>) { forall i :: 0 <= i < |rs| ==> IsText(rs[i]) }

  /** The message that stands for everything received so far. */
  function Summary(bucket: seq<Response>, agent: string): Result<Message> {
    if AllText(bucket) then Ok(Text(JoinedText(bucket), Some(agent)))
    else if exists i :: 0 <= i < |bucket| && IsCall(bucket[i]) then
      Ok(Tools(ToolMessage(SingleCalls(bucket), Some(agent), None)))
    else Err("The response should contain either text or tool calls.")
  }

  datatype Connected = Connected(yielded: seq<Message>, bucket: seq<Response>, error: Option<string>)

  /** Yields the summary of the bucket, if anything is in it. */
  function Summarise(c: Connected, agent: string): Connected {
    if c.bucket == [] then c
    else
      match Summary(c.bucket, agent)
      case Err(e) => c.(error := Some(e))
      case Ok(s) => c.(yielded := c.yielded + [s])
  }

  function OnResponse(c: Connected, r: Response, agent: string): Connected {
    if |r.candidates| == 1 && r.candidates[0].parts.None? then c.(error := Some("NullReferenceException"))
    else if IsText(r) && Parts(r)[0].text == "" && r.candidates[0].stop then c
    else
      var c := c.(bucket := c.bucket + [r]);
      match PostProcess(r, agent)
      case Err(e) => c.(error := Some(e))
      case Ok(m) => Summarise(c.(yielded := c.yielded + [m]), agent)
  }

  /** The connector on a stream of Gemini responses. */
  function Connect(rs: seq<Response>, agent: string): Connected {
    if rs == [] then Connected([], [], None)
    else
      var c := Connect(rs[..|rs| - 1], agent);
      if c.error.Some? then c else OnResponse(c, rs[|rs| - 1], agent)
  }

  /** What the inner agent may stream: a Gemini response, or a message of another type. */
  datatype Reply = Received(response: Response) | Foreign(message: Message)

  /** Another type of message is refused in strict mode, and otherwise yielded, with the summary after it. */
  function OnReply(c: Connected, x: Reply, strict: bool, agent: string): Connected {
    match x
    case Received(r) => OnResponse(c, r, agent)
    case Foreign(m) =>
      if strict then c.(error := Some("Unsupported message type"))
      else Summarise(c.(yielded := c.yielded + [m]), agent)
  }

  /** The connector on any stream. */
  function ConnectAll(xs: seq<Reply>, strict: bool, agent: string): Connected {
    if xs == [] then Connected([], [], None)
    else
      var c := ConnectAll(xs[..|xs| - 1], strict, agent);
      if c.error.Some? then c else OnReply(c, xs[|xs| - 1], strict, agent)
  }

  lemma {:induction false} ErrorStays(xs: seq<Reply>, strict: bool, agent: string, i: nat)
    requires i <= |xs| && ConnectAll(xs[..i], strict, agent).error.Some?
    ensures ConnectAll(xs, strict, agent) == ConnectAll(xs[..i], strict, agent)
    decreases |xs|
  {
    if i < |xs| {
      assert xs[..|xs| - 1][..i] == xs[..i];
      ErrorStays(xs[..|xs| - 1], strict, agent, i);
    } else {
      assert xs[..i] == xs;
    }
  }

  /** One pass of the streaming loop. */
  method InvokeOne(x: Reply, before: seq<Message>, held: seq<Response>, strict: bool, agent: string)
    returns (yielded: seq<Message>, bucket: seq<Response>, error: Option<string>)
    ensures Connected(yielded, bucket, error) == OnReply(Connected(before, held, None), x, strict, agent)
  {
    yielded, bucket, error := before, held, None;
    match x {
      case Received(r) =>
        if |r.candidates| == 1 {
          if r.candidates[0].parts.None? {
            return yielded, bucket, Some("NullReferenceException");
          }
          if IsText(r) && Parts(r)[0].text == "" && r.candidates[0].stop {
            return;
          }
        }
        bucket := bucket + [r];
        match PostProcess(r, agent) {
          case Err(e) => return yielded, bucket, Some(e);
          case Ok(m) => yielded := yielded + [m];
        }
      case Foreign(m) =>
        if strict {
          return yielded, bucket, Some("Unsupported message type");
        }
        yielded := yielded + [m];
    }
    if |bucket| > 0 {
      match Summary(bucket, agent) {
        case Err(e) => error := Some(e);
        case Ok(s) => yielded := yielded + [s];
      }
    }
  }

  /** The streaming loop: each reply is yielded, then the summary of the growing bucket. */
  method InvokeStream(xs: seq<Reply>, strict: bool, agent: string)
    returns (yielded: seq<Message>, bucket: seq<Response>, error: Option<string>)
    ensures Connected(yielded, bucket, error) == ConnectAll(xs, strict, agent)
  {
    yielded, bucket, error := [], [], None;
    for i := 0 to |xs|
      invariant error.None? && Connected(yielded, bucket, error) == ConnectAll(xs[..i], strict, agent)
    {
      assert xs[..i + 1][..i] == xs[..i];
      yielded, bucket, error := InvokeOne(xs[i], yielded, bucket, strict, agent);
      if error.Some? {
        ErrorStays(xs, strict, agent, i + 1);
        return;
      }
    }
    assert xs[..|xs|] == xs;
  }

  /** The responses of a stream. */
  function ResponsesOf(xs: seq<Reply>): seq<Response> {
    if xs == [] then []
    else ResponsesOf(xs[..|xs| - 1]) + if xs[|xs| - 1].Received? then [xs[|xs| - 1].response] else []
  }

  /** A stream of Gemini responses alone is treated alike in both modes. */
  lemma {:induction false} ResponsesConnect(xs: seq<Reply>, strict: bool, agent: string)
    requires forall i :: 0 <= i < |xs| ==> xs[i].Received?
    ensures ConnectAll(xs, strict, agent) == Connect(ResponsesOf(xs), agent)
  {
    if xs == [] {
    } else {
      var front, r := xs[..|xs| - 1], xs[|xs| - 1].response;
      ResponsesConnect(front, strict, agent);
      assert ResponsesOf(xs)[..|ResponsesOf(front)|] == ResponsesOf(front);
    }
  }

  // ----- What the middleware above it has merged -----

  ghost predicate Merged(functions: FunctionMap, c: Connected, agent: string) {
    var d, calls := Consume(functions, None, c.yielded), SingleCalls(c.bucket);
    && d.error.None?
    && d.merged == (if calls == [] then None else Some(ToolMessage(calls, Some(agent), None)))
    && (calls == [] ==> AllText(c.bucket))
  }

  lemma {:induction false} NoSingleCall(rs: seq<Response>)
    ensures SingleCalls(rs) == [] <==> forall i :: 0 <= i < |rs| ==> !IsCall(rs[i])
  {
    if rs == [] {
    } else {
      var front := rs[..|rs| - 1];
      NoSingleCall(front);
      assert forall i :: 0 <= i < |front| ==> front[i] == rs[i];
      if IsCall(rs[|rs| - 1]) {
        CallsOfCall(rs[|rs| - 1]);
      }
    }
  }

  /** A response's message and the summary after it have been yielded. */
  function Yielded(c: Connected, r: Response, agent: string): Connected
    requires PostProcess(r, agent).Ok? && Summary(c.bucket + [r], agent).Ok?
  {
    var bucket := c.bucket + [r];
    Connected(c.yielded + [PostProcess(r, agent).value] + [Summary(bucket, agent).value], bucket, None)
  }

  lemma AllTextSnoc(rs: seq<Response>, r: Response)
    ensures AllText(rs + [r]) <==> AllText(rs) && IsText(r)
  {
    assert (rs + [r])[|rs|] == r && forall i :: 0 <= i < |rs| ==> (rs + [r])[i] == rs[i];
  }

  lemma TextHasNoCalls(rs: seq<Response>)
    requires AllText(rs)
    ensures SingleCalls(rs) == []
  {
    NoSingleCall(rs);
  }

  /** A response that raises nothing is skipped, or yields its message and the new summary. */
  lemma OnResponseYields(c: Connected, r: Response, agent: string)
    requires c.error.None? && OnResponse(c, r, agent).error.None?
    ensures var c', bucket := OnResponse(c, r, agent), c.bucket + [r];
      || (c' == c && IsText(r))
      || (&& PostProcess(r, agent).Ok? && Summary(bucket, agent).Ok?
          && c' == Yielded(c, r, agent))
  {
  }

  /** What two messages of the connector do to the merged one. */
  lemma ConsumeTwo(functions: FunctionMap, yielded: seq<Message>, m: Message, s: Message)
    requires Consume(functions, None, yielded).error.None? && !m.ToolUpdate? && !s.ToolUpdate?
    ensures var d := Consume(functions, None, yielded + [m] + [s]);
      && d.error.None?
      && (s.Tools? ==> d.merged == Some(s.tools))
      && (!s.Tools? && !m.Tools? ==> d.merged == Consume(functions, None, yielded).merged)
  {
    ConsumeSnoc(functions, None, yielded, m);
    ConsumeSnoc(functions, None, yielded + [m], s);
  }

  /** As long as all responses are text, nothing is merged. */
  lemma MergedText(functions: FunctionMap, c: Connected, r: Response, agent: string)
    requires Merged(functions, c, agent) && AllText(c.bucket + [r])
    requires PostProcess(r, agent).Ok? && Summary(c.bucket + [r], agent).Ok?
    ensures Merged(functions, Yielded(c, r, agent), agent)
  {
    AllTextSnoc(c.bucket, r);
    TextHasNoCalls(c.bucket);
    TextHasNoCalls(c.bucket + [r]);
    ConsumeTwo(functions, c.yielded, PostProcess(r, agent).value, Summary(c.bucket + [r], agent).value);
  }

  /** Once there is a single call, every summary replaces the merged message. */
  lemma MergedCalls(functions: FunctionMap, c: Connected, r: Response, agent: string)
    requires Merged(functions, c, agent) && !AllText(c.bucket + [r])
    requires PostProcess(r, agent).Ok? && Summary(c.bucket + [r], agent).Ok?
    ensures Merged(functions, Yielded(c, r, agent), agent)
  {
    NoSingleCall(c.bucket + [r]);
    ConsumeTwo(functions, c.yielded, PostProcess(r, agent).value, Summary(c.bucket + [r], agent).value);
  }

  lemma MergedStep(functions: FunctionMap, c: Connected, r: Response, agent: string)
    requires c.error.None? && Merged(functions, c, agent) && OnResponse(c, r, agent).error.None?
    ensures Merged(functions, OnResponse(c, r, agent), agent)
  {
    OnResponseYields(c, r, agent);
    if OnResponse(c, r, agent) != c {
      if AllText(c.bucket + [r]) {
        MergedText(functions, c, r, agent);
      } else {
        MergedCalls(functions, c, r, agent);
      }
    }
  }

  lemma SingleCallsSnoc(rs: seq<Response>, r: Response)
    ensures SingleCalls(rs + [r]) == SingleCalls(rs) + if IsCall(r) then CallsOf(r) else []
  {
    assert (rs + [r])[..|rs|] == rs;
  }

  lemma {:induction false} MergedRun(functions: FunctionMap, rs: seq<Response>, agent: string)
    requires Connect(rs, agent).error.None?
    ensures Merged(functions, Connect(rs, agent), agent)
  {
    if rs == [] {
    } else {
      MergedRun(functions, rs[..|rs| - 1], agent);
      MergedStep(functions, Connect(rs[..|rs| - 1], agent), rs[|rs| - 1], agent);
    }
  }

  lemma BucketStep(c: Connected, r: Response, agent: string)
    requires c.error.None? && OnResponse(c, r, agent).error.None?
    ensures SingleCalls(OnResponse(c, r, agent).bucket) == SingleCalls(c.bucket) + if IsCall(r) then CallsOf(r) else []
  {
    OnResponseYields(c, r, agent);
    SingleCallsSnoc(c.bucket, r);
  }

  /** The responses skipped have no calls. */
  lemma {:induction false} BucketHoldsSingleCalls(rs: seq<Response>, agent: string)
    requires Connect(rs, agent).error.None?
    ensures SingleCalls(Connect(rs, agent).bucket) == SingleCalls(rs)
  {
    if rs == [] {
    } else {
      BucketHoldsSingleCalls(rs[..|rs| - 1], agent);
      BucketStep(Connect(rs[..|rs| - 1], agent), rs[|rs| - 1], agent);
    }
  }

  /** After a stream without error, the middleware holds exactly the single calls, each once, in order. */
  lemma MiddlewareHoldsSingleCalls(functions: FunctionMap, rs: seq<Response>, agent: string)
    requires Connect(rs, agent).error.None?
    ensures Merged(functions, Connect(rs, agent), agent)
    ensures SingleCalls(Connect(rs, agent).bucket) == SingleCalls(rs)
  {
    MergedRun(functions, rs, agent);
    BucketHoldsSingleCalls(rs, agent);
  }

  /** The calls held are all calls exactly when no call sits in a response with other parts. */
  lemma {:induction false} SingleCallsComplete(rs: seq<Response>)
    ensures |SingleCalls(rs)| <= |CallsIn(rs)|
    ensures SingleCalls(rs) == CallsIn(rs) <==> forall i :: 0 <= i < |rs| ==> IsCall(rs[i]) || CallsOf(rs[i]) == []
    ensures |SingleCalls(rs)| == |CallsIn(rs)| ==> SingleCalls(rs) == CallsIn(rs)
  {
    if rs == [] {
    } else {
      var front := rs[..|rs| - 1];
      SingleCallsComplete(front);
      assert forall i :: 0 <= i < |front| ==> front[i] == rs[i];
    }
  }

  /** One candidate with one text or function-call part. */
  predicate Simple(r: Response) { IsText(r) || IsCall(r) }

  lemma CallsOfCall(r: Response)
    requires IsCall(r)
    ensures |CallsOf(r)| == 1
  {
    assert Parts(r)[..|Parts(r)| - 1] == [];
    assert CallParts([]) == [];
  }

  lemma SimpleStep(c: Connected, r: Response, agent: string)
    requires Simple(r) && c.error.None? && forall i :: 0 <= i < |c.bucket| ==> Simple(c.bucket[i])
    ensures var c' := OnResponse(c, r, agent);
      c'.error.None? && forall i :: 0 <= i < |c'.bucket| ==> Simple(c'.bucket[i])
  {
    if IsCall(r) {
      CallsOfCall(r);
    }
    var b := c.bucket + [r];
    assert forall i :: 0 <= i < |b| ==> Simple(b[i]);
    assert Summary(b, agent).Ok?;
  }

  lemma {:induction false} SimpleSucceeds(rs: seq<Response>, agent: string)
    requires forall i :: 0 <= i < |rs| ==> Simple(rs[i])
    ensures Connect(rs, agent).error.None?
    ensures forall i :: 0 <= i < |Connect(rs, agent).bucket| ==> Simple(Connect(rs, agent).bucket[i])
  {
    if rs == [] {
    } else {
      SimpleSucceeds(rs[..|rs| - 1], agent);
      SimpleStep(Connect(rs[..|rs| - 1], agent), rs[|rs| - 1], agent);
    }
  }

  /** The message carries all calls, and the result of each available one, once and in order. */
  ghost predicate Ran(functions: FunctionMap, calls: seq<ToolCall>, m: Message) {
    if Where(calls, Runnable(functions)) == [] then m.Tools? && m.tools.calls == calls
    else m.Aggregate? && m.request.calls == calls && AnswersRunnable(functions, calls, m.results)
  }

  /**
   When every response is one text or one function call, the two layers run every available
   streamed call exactly once and in order, although each is yielded again in every summary.
   */
  lemma CallsRunOnceInOrder(k: Config, rs: seq<Response>)
    requires forall i :: 0 <= i < |rs| ==> Simple(rs[i])
    ensures var calls := CallsIn(rs);
      var out := StreamInner(k, Connect(rs, k.agent).yielded);
      && out.error.None?
      && InnerLog(k, Connect(rs, k.agent).yielded) == Log(Where(calls, Runnable(k.functions)))
      && (calls != [] ==> out.yielded != [] && Ran(k.functions, calls, out.yielded[|out.yielded| - 1]))
  {
    SimpleSucceeds(rs, k.agent);
    MiddlewareHoldsSingleCalls(k.functions, rs, k.agent);
    SingleCallsComplete(rs);
    forall i | 0 <= i < |rs| ensures IsCall(rs[i]) || CallsOf(rs[i]) == [] {
      assert IsText(rs[i]) ==> CallParts(Parts(rs[i])) == CallParts(Parts(rs[i])[..0]) == [];
    }
    ResultsAnswer(k.functions, CallsIn(rs));
  }

  /**
   For any stream without error, exactly the available calls that came alone run, each once and
   in order.
   */
  lemma SingleCallsRunOnceInOrder(k: Config, rs: seq<Response>)
    requires Connect(rs, k.agent).error.None?
    ensures InnerLog(k, Connect(rs, k.agent).yielded) == Log(Where(SingleCalls(rs), Runnable(k.functions)))
  {
    MiddlewareHoldsSingleCalls(k.functions, rs, k.agent);
    ResultsAnswer(k.functions, SingleCalls(rs));
  }

  /** In general, a stream without error leaves the middleware with all calls exactly when each came alone. */
  lemma AllCallsHeldExactlyWhenAlone(functions: FunctionMap, rs: seq<Response>, agent: string)
    requires Connect(rs, agent).error.None? && CallsIn(rs) != []
    ensures var merged := Consume(functions, None, Connect(rs, agent).yielded).merged;
      (merged.Some? && merged.value.calls == CallsIn(rs)) <==>
      forall i :: 0 <= i < |rs| ==> IsCall(rs[i]) || CallsOf(rs[i]) == []
  {
    MiddlewareHoldsSingleCalls(functions, rs, agent);
    SingleCallsComplete(rs);
  }

  /** Such losses happen: after a single call, a response with several parts, calls among them, is dropped silently. */
  lemma CallsLost(one: Response, more: Response, agent: string)
    requires IsCall(one) && HasContent(more) && |Parts(more)| > 1 && CallsOf(more) != []
    ensures Connect([one] + [more], agent).error.None? && SingleCalls([one] + [more]) != CallsIn([one] + [more])
  {
    ConnectOne(one, agent);
    SummaryOfCall([one] + [more], agent);
    ConnectSnoc([one], more, agent);
    MoreAccepted(Connect([one], agent), more, agent);
    SingleCallsComplete([one] + [more]);
    assert ([one] + [more])[1] == more;
  }

  lemma ConnectOne(one: Response, agent: string)
    requires IsCall(one)
    ensures Connect([one], agent).error.None? && Connect([one], agent).bucket == [one]
  {
    assert [one][..0] == [];
    assert Connect([one], agent) == OnResponse(Connected([], [], None), one, agent);
    CallsOfCall(one);
    SummaryOfCall([one], agent);
    assert [] + [one] == [one];
  }

  lemma MoreAccepted(c: Connected, more: Response, agent: string)
    requires c.error.None? && HasContent(more) && |Parts(more)| > 1 && CallsOf(more) != []
    requires Summary(c.bucket + [more], agent).Ok?
    ensures OnResponse(c, more, agent).error.None?
  {
  }

  lemma SummaryOfCall(rs: seq<Response>, agent: string)
    requires rs != [] && IsCall(rs[0])
    ensures Summary(rs, agent).Ok?
  {
    assert !IsText(rs[0]);
  }

  lemma ConnectSnoc(rs: seq<Response>, r: Response, agent: string)
    requires Connect(rs, agent).error.None?
    ensures Connect(rs + [r], agent) == OnResponse(Connect(rs, agent), r, agent)
  {
    assert (rs + [r])[..|rs|] == rs;
  }

  /** The text of the updates among some messages. */
  function UpdateTexts(ms: seq<Message>): string {
    if ms == [] then "" else UpdateTexts(ms[..|ms| - 1]) + if ms[|ms| - 1].TextUpdate? then ms[|ms| - 1].text else ""
  }

  lemma UpdateTextsSnoc(ms: seq<Message>, m: Message)
    ensures UpdateTexts(ms + [m]) == UpdateTexts(ms) + if m.TextUpdate? then m.text else ""
  {
    assert (ms + [m])[..|ms|] == ms;
  }

  /** All responses kept are text, and the last message joins the text of all updates yielded. */
  ghost predicate TextSoFar(c: Connected, agent: string) {
    && c.error.None? && AllText(c.bucket)
    && JoinedText(c.bucket) == UpdateTexts(c.yielded)
    && (c.yielded != [] ==> c.yielded[|c.yielded| - 1] == Text(UpdateTexts(c.yielded), Some(agent)))
  }

  /** A text stream ends with a message that joins the text of all updates yielded before it. */
  lemma {:induction false} TextSummary(rs: seq<Response>, agent: string)
    requires AllText(rs)
    ensures TextSoFar(Connect(rs, agent), agent)
  {
    if rs == [] {
    } else {
      var front, r := rs[..|rs| - 1], rs[|rs| - 1];
      TextSummary(front, agent);
      TextStep(Connect(front, agent), r, agent);
    }
  }

  lemma OnText(c: Connected, r: Response, agent: string)
    requires IsText(r) && c.error.None? && AllText(c.bucket)
    ensures var t, bucket := Parts(r)[0].text, c.bucket + [r];
      OnResponse(c, r, agent) ==
        if t == "" && r.candidates[0].stop then c
        else
          Connected(
            c.yielded + [TextUpdate(t, Some(agent))] + [Text(JoinedText(c.bucket) + t, Some(agent))], bucket, None)
    ensures JoinedText(c.bucket + [r]) == JoinedText(c.bucket) + Parts(r)[0].text
  {
    var bucket := c.bucket + [r];
    assert bucket[..|c.bucket|] == c.bucket;
    assert AllText(bucket);
  }

  lemma LastUpdateTexts(ms: seq<Message>, t: string, whole: string, agent: string)
    ensures UpdateTexts(ms + [TextUpdate(t, Some(agent))] + [Text(whole, Some(agent))]) == UpdateTexts(ms) + t
  {
    var u, s := TextUpdate(t, Some(agent)), Text(whole, Some(agent));
    UpdateTextsSnoc(ms, u);
    UpdateTextsSnoc(ms + [u], s);
    assert UpdateTexts(ms + [u]) + "" == UpdateTexts(ms + [u]);
  }

  lemma TextStep(c: Connected, r: Response, agent: string)
    requires IsText(r) && TextSoFar(c, agent)
    ensures TextSoFar(OnResponse(c, r, agent), agent)
  {
    OnText(c, r, agent);
    AllTextSnoc(c.bucket, r);
    var t := Parts(r)[0].text;
    LastUpdateTexts(c.yielded, t, JoinedText(c.bucket) + t, agent);
  }

  // ----- Response by response -----

  /** One candidate with exactly one part, a text or a function call. */
  lemma SinglePart(r: Response)
    ensures IsText(r) <==> exists t, stop :: r == Response([Candidate(Some([TextPart(t)]), stop)])
    ensures IsCall(r) <==> exists name, args, stop :: r == Response([Candidate(Some([CallPart(name, args)]), stop)])
  {
    if HasContent(r) && |Parts(r)| == 1 {
      var c, p := r.candidates[0], Parts(r)[0];
      assert Parts(r) == [p] && c.parts == Some([p]) && r.candidates == [c];
      assert r == Response([Candidate(Some([p]), c.stop)]);
    }
  }

  predicate IsCallPart(p: Part) { p.CallPart? }

  function CallOf(p: Part): ToolCall
    requires p.CallPart?
  {
    ToolCall(p.name, p.args, None, None)
  }

  /** The calls among some parts, with their names and arguments. */
  lemma {:induction false} CallPartsAre(parts: seq<Part>)
    ensures var ps := Where(parts, IsCallPart);
      && |CallParts(parts)| == |ps|
      && forall j :: 0 <= j < |ps| ==> ps[j].CallPart? && CallParts(parts)[j] == CallOf(ps[j])
    decreases |parts|
  {
    if parts == [] {
      WhereNone(IsCallPart);
    } else {
      var front, p := parts[..|parts| - 1], parts[|parts| - 1];
      assert front + [p] == parts;
      CallPartsAre(front);
      WhereSnoc(front, p, IsCallPart);
    }
  }

  function TextsOf(rs: seq<Response>): seq<string>
    requires AllText(rs)
  {
    seq(|rs|, i requires 0 <= i < |rs| && IsText(rs[i]) => Parts(rs[i])[0].text)
  }

  lemma {:induction false} JoinedTextIs(rs: seq<Response>)
    requires AllText(rs)
    ensures JoinedText(rs) == Concat(TextsOf(rs))
  {
    if rs == [] {
    } else {
      var front := rs[..|rs| - 1];
      JoinedTextIs(front);
      assert TextsOf(rs) == TextsOf(front) + [Parts(rs[|rs| - 1])[0].text];
      ConcatSnoc(TextsOf(front), Parts(rs[|rs| - 1])[0].text);
    }
  }

  /** The single calls are those of the responses that consist of one call. */
  lemma {:induction false} SingleCallsAre(rs: seq<Response>)
    ensures var ones := Where(rs, IsCall);
      && |SingleCalls(rs)| == |ones|
      && forall j :: 0 <= j < |ones| ==> IsCall(ones[j]) && SingleCalls(rs)[j] == CallOf(Parts(ones[j])[0])
  {
    if rs == [] {
      WhereNone(IsCall);
    } else {
      var front, r := rs[..|rs| - 1], rs[|rs| - 1];
      assert front + [r] == rs;
      SingleCallsAre(front);
      SingleCallsSnoc(front, r);
      WhereSnoc(front, r, IsCall);
      if IsCall(r) {
        OneCall(r);
        assert SingleCalls(rs) == SingleCalls(front) + [CallOf(Parts(r)[0])];
        assert Where(rs, IsCall) == Where(front, IsCall) + [r];
      } else {
        assert SingleCalls(rs) == SingleCalls(front);
        assert Where(rs, IsCall) == Where(front, IsCall);
      }
    }
  }

  lemma OneCall(r: Response)
    requires IsCall(r)
    ensures CallsOf(r) == [CallOf(Parts(r)[0])]
  {
    assert Parts(r)[..0] == [] && CallParts([]) == [];
  }

  /** All but empty texts that only say that the stream stops. */
  predicate Counts(r: Response) { r != Response([Candidate(Some([TextPart("")]), true)]) }

  /** The message a response is yielded as. */
  ghost predicate IsMessageOf(r: Response, m: Message, agent: string) {
    if IsText(r) then m == TextUpdate(Parts(r)[0].text, Some(agent))
    else HasContent(r) && CallParts(Parts(r)) != [] && m == Tools(ToolMessage(CallParts(Parts(r)), Some(agent), None))
  }

  /** The message that sums up some responses. */
  ghost predicate IsSummaryOf(rs: seq<Response>, m: Message, agent: string) {
    if AllText(rs) then m == Text(Concat(TextsOf(rs)), Some(agent))
    else SingleCalls(rs) != [] && m == Tools(ToolMessage(SingleCalls(rs), Some(agent), None))
  }

  /** Each counted response is yielded as its message, and after it comes the summary of all counted so far. */
  ghost predicate EachThenSummary(counted: seq<Response>, yielded: seq<Message>, agent: string) {
    if counted == [] then yielded == []
    else
      var m, n := |counted| - 1, |yielded| - 2;
      && n >= 0 && EachThenSummary(counted[..m], yielded[..n], agent)
      && IsMessageOf(counted[m], yielded[n], agent) && IsSummaryOf(counted, yielded[n + 1], agent)
  }

  lemma SummaryIs(rs: seq<Response>, agent: string)
    requires rs != [] && Summary(rs, agent).Ok?
    ensures IsSummaryOf(rs, Summary(rs, agent).value, agent)
  {
    NoSingleCall(rs);
    if AllText(rs) {
      JoinedTextIs(rs);
    }
  }

  lemma SkippedExactlyWhenUncounted(r: Response)
    ensures (IsText(r) && Parts(r)[0].text == "" && r.candidates[0].stop) <==> !Counts(r)
  {
    SinglePart(r);
    if IsText(r) && Parts(r)[0].text == "" && r.candidates[0].stop {
      var t, stop :| r == Response([Candidate(Some([TextPart(t)]), stop)]);
    }
  }

  lemma EachAppended(
      counted: seq<Response>, yielded: seq<Message>, r: Response, m: Message, s: Message, agent: string)
    requires EachThenSummary(counted, yielded, agent)
    requires IsMessageOf(r, m, agent) && IsSummaryOf(counted + [r], s, agent)
    ensures EachThenSummary(counted + [r], yielded + [m] + [s], agent)
  {
    assert (counted + [r])[..|counted|] == counted && (yielded + [m] + [s])[..|yielded|] == yielded;
  }

  lemma EachStep(c: Connected, r: Response, agent: string)
    requires c.error.None? && EachThenSummary(c.bucket, c.yielded, agent) && OnResponse(c, r, agent).error.None?
    ensures var d := OnResponse(c, r, agent); EachThenSummary(d.bucket, d.yielded, agent)
    ensures OnResponse(c, r, agent).bucket == c.bucket + if Counts(r) then [r] else []
  {
    SkippedExactlyWhenUncounted(r);
    OnResponseYields(c, r, agent);
    if Counts(r) {
      var m, s := PostProcess(r, agent).value, Summary(c.bucket + [r], agent).value;
      SummaryIs(c.bucket + [r], agent);
      MessageIs(r, agent);
      EachAppended(c.bucket, c.yielded, r, m, s, agent);
    }
  }

  lemma MessageIs(r: Response, agent: string)
    requires PostProcess(r, agent).Ok?
    ensures IsMessageOf(r, PostProcess(r, agent).value, agent)
  {
  }

  /**
   A stream without error yields for each counted response its message, then the summary of all
   counted responses so far: their texts joined if all are texts, else the single calls.
   */
  lemma {:induction false} YieldsEachThenSummary(rs: seq<Response>, agent: string)
    requires Connect(rs, agent).error.None?
    ensures Connect(rs, agent).bucket == Where(rs, Counts)
    ensures EachThenSummary(Where(rs, Counts), Connect(rs, agent).yielded, agent)
  {
    if rs == [] {
      WhereNone(Counts);
    } else {
      var front, r := rs[..|rs| - 1], rs[|rs| - 1];
      assert front + [r] == rs;
      YieldsEachThenSummary(front, agent);
      EachStep(Connect(front, agent), r, agent);
      WhereSnoc(front, r, Counts);
    }
  }

  /** A message of another type fails in strict mode; else it is yielded, and the summary again if there is any. */
  lemma ForeignReply(xs: seq<Reply>, m: Message, strict: bool, agent: string)
    requires ConnectAll(xs, strict, agent).error.None?
    ensures var c, d := ConnectAll(xs, strict, agent), ConnectAll(xs + [Foreign(m)], strict, agent);
      && (strict ==> d.error.Some? && d.yielded == c.yielded)
      && (!strict && c.bucket == [] ==> d == Connected(c.yielded + [m], [], None))
      && (!strict && c.bucket != [] && d.error.None? ==>
            && |d.yielded| == |c.yielded| + 2 && d.yielded[..|c.yielded| + 1] == c.yielded + [m]
            && IsSummaryOf(c.bucket, d.yielded[|c.yielded| + 1], agent))
  {
    assert (xs + [Foreign(m)])[..|xs|] == xs;
    var c := ConnectAll(xs, strict, agent);
    if c.bucket != [] && Summary(c.bucket, agent).Ok? {
      SummaryIs(c.bucket, agent);
    }
  }

  /** A response no message can be made of: not one candidate with content, or neither one text nor any call. */
  predicate Unreadable(r: Response) { !HasContent(r) || (!IsText(r) && CallParts(Parts(r)) == []) }

  /** Response `k` makes the stream fail: it is unreadable, or leaves mixed kinds without a single call. */
  ghost predicate FailsAt(rs: seq<Response>, k: int) {
    && 0 <= k < |rs|
    && (Unreadable(rs[k]) ||
        (Counts(rs[k]) && !AllText(Where(rs[..k + 1], Counts)) && Where(Where(rs[..k + 1], Counts), IsCall) == []))
  }

  lemma NoneCalls(rs: seq<Response>)
    ensures Where(rs, IsCall) == [] <==> forall i :: 0 <= i < |rs| ==> !IsCall(rs[i])
  {
    PositionsAreAll(rs, IsCall);
    if Where(rs, IsCall) == [] {
      assert Positions(rs, IsCall) == [];
    } else {
      assert IsCall(Where(rs, IsCall)[0]);
    }
  }

  lemma StepFails(c: Connected, r: Response, agent: string)
    requires c.error.None?
    ensures OnResponse(c, r, agent).error.Some? <==>
      Unreadable(r) || (Counts(r) && !AllText(c.bucket + [r]) && Where(c.bucket + [r], IsCall) == [])
  {
    SkippedExactlyWhenUncounted(r);
    NoneCalls(c.bucket + [r]);
  }

  /** A stream fails exactly when some response makes it fail. */
  lemma {:induction false} FailsExactly(rs: seq<Response>, agent: string)
    ensures Connect(rs, agent).error.Some? <==> exists k :: FailsAt(rs, k)
  {
    if rs == [] {
    } else {
      var n := |rs| - 1;
      var front, r := rs[..n], rs[n];
      assert front + [r] == rs && rs[..n + 1] == rs;
      FailsExactly(front, agent);
      FailsAtFront(front, r);
      var c := Connect(front, agent);
      if c.error.None? {
        YieldsEachThenSummary(front, agent);
        StepFails(c, r, agent);
        WhereSnoc(front, r, Counts);
      }
    }
  }

  lemma FailsAtFront(front: seq<Response>, r: Response)
    ensures var rs := front + [r];
      (exists k :: FailsAt(rs, k)) <==> (exists k :: FailsAt(front, k)) || FailsAt(rs, |front|)
  {
    var rs := front + [r];
    forall k | 0 <= k < |front| ensures FailsAt(front, k) <==> FailsAt(rs, k) {
      assert front[..k + 1] == rs[..k + 1] && front[k] == rs[k];
    }
    if exists k :: FailsAt(rs, k) {
      var k :| FailsAt(rs, k);
      assert k < |front| ==> FailsAt(front, k);
    }
    if exists k :: FailsAt(front, k) {
      var k :| FailsAt(front, k);
      assert FailsAt(rs, k);
    }
  }
}
