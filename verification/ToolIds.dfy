/** Tool-call ids in requests: explicit ones, and the fallback made of the name and a position. */
module ToolIds {
  import opened Wrappers
  import opened ToolCalls
  import opened FunctionCall

  const DIGITS := "0123456789"

  function Decimal(n: nat): string {
    if n < 10 then [DIGITS[n]] else Decimal(n / 10) + [DIGITS[n % 10]]
  }

  function Fallback(name: string, i: nat): string { name + "_" + Decimal(i) }

  /** How a missing id is made from the name and the position; the source uses `Fallback`. */
  type Naming = (string, nat) -> string

  function IdAt(fb: Naming, c: ToolCall, i: nat): string {
    if c.id.Some? then c.id.value else fb(c.name, i)
  }

  datatype RequestCall = RequestCall(id: string, name: string, args: string)

  datatype Request =
    | AssistantRequest(content: string, calls: seq<RequestCall>)
    | ToolRequest(content: string, id: string)
    | UserRequest(text: Option<string>)

  /** `ProcessToolCallMessage`: the fallback counts all calls. */
  function ProcessToolCalls(fb: Naming, m: ToolMessage, agent: string): Result<Request> {
    if m.from.Some? && m.from.value != agent then
      Err("ToolCallMessage is not supported when message.From is not the same with agent")
    else
      Ok(AssistantRequest(Str(m.content), seq(|m.calls|, i requires 0 <= i < |m.calls| =>
        RequestCall(IdAt(fb, m.calls[i], i), m.calls[i].name, m.calls[i].args))))
  }

  function WithResult(results: seq<ToolCall>): seq<ToolCall> {
    if results == [] then []
    else
      var last := results[|results| - 1];
      WithResult(results[..|results| - 1]) + if last.result.Some? then [last] else []
  }

  /** `ProcessToolCallResultMessage`: the fallback counts only calls that have a result. */
  function ProcessResults(fb: Naming, results: seq<ToolCall>): seq<Request> {
    var rs := WithResult(results);
    seq(|rs|, i requires 0 <= i < |rs| => ToolRequest(Str(rs[i].result), IdAt(fb, rs[i], i)))
  }

  /** `ProcessFunctionCallMiddlewareMessage`. */
  function Expand(fb: Naming, request: ToolMessage, results: seq<ToolCall>, from: Option<string>, agent: string)
    : Result<seq<Request>>
  {
    if from.Some? && from.value != agent then
      Ok(seq(|results|, i requires 0 <= i < |results| => UserRequest(results[i].result)))
    else
      match ProcessToolCalls(fb, request, agent)
      case Err(e) => Err(e)
      case Ok(assistant) => Ok([assistant] + ProcessResults(fb, results))
  }

  // ----- Fallback ids are distinct -----

  lemma {:induction false} DecimalDigits(n: nat)
    ensures '_' !in Decimal(n) && Decimal(n) != ""
  {
    if n < 10 {
    } else {
      DecimalDigits(n / 10);
    }
  }

  lemma {:induction false} DecimalInjective(a: nat, b: nat)
    requires Decimal(a) == Decimal(b)
    ensures a == b
  {
    var s, t := Decimal(a), Decimal(b);
    assert s[|s| - 1] == DIGITS[a % 10] && t[|t| - 1] == DIGITS[b % 10];
    if a >= 10 || b >= 10 {
      DecimalDigits(a / 10);
      DecimalDigits(b / 10);
      assert a >= 10 ==> s[..|s| - 1] == Decimal(a / 10);
      assert b >= 10 ==> t[..|t| - 1] == Decimal(b / 10);
      DecimalInjective(a / 10, b / 10);
    }
  }

  /** For any names, underscores included, equal fallback ids come from equal positions. */
  lemma FallbackInjective(name: string, i: nat, name': string, j: nat)
    requires Fallback(name, i) == Fallback(name', j)
    ensures i == j && name == name'
  {
    var d, e := Decimal(i), Decimal(j);
    var s := Fallback(name, i);
    DecimalDigits(i);
    DecimalDigits(j);
    assert s[|name|] == '_' && s[|name'|] == '_';
    assert d == s[|name| + 1..] == e;
    DecimalInjective(i, j);
    assert name == s[..|name|] == name';
  }

  /** Within one message, calls without explicit ids get pairwise distinct ids. */
  lemma FallbacksDistinct(m: ToolMessage, agent: string, i: nat, j: nat)
    requires ProcessToolCalls(Fallback, m, agent).Ok? && i < j < |m.calls| && m.calls[i].id.None? && m.calls[j].id.None?
    ensures var calls := ProcessToolCalls(Fallback, m, agent).value.calls; calls[i].id != calls[j].id
  {
    if Fallback(m.calls[i].name, i) == Fallback(m.calls[j].name, j) {
      FallbackInjective(m.calls[i].name, i, m.calls[j].name, j);
    }
  }

  // ----- Results answer calls -----

  /** The positions of the available calls. */
  function Sources(functions: FunctionMap, calls: seq<ToolCall>): (ks: seq<nat>)
    ensures forall j :: 0 <= j < |ks| ==> ks[j] < |calls|
  {
    if calls == [] then []
    else
      var n := |calls| - 1;
      Sources(functions, calls[..n]) + if Has(functions, calls[n].name) then [n] else []
  }

  /** The j-th result is that of the j-th available call. */
  lemma {:induction false} ResultSource(functions: FunctionMap, calls: seq<ToolCall>)
    ensures var ks := Sources(functions, calls);
      && |Results(functions, calls)| == |ks|
      && (forall j :: 0 <= j < |ks| ==>
            && Has(functions, calls[ks[j]].name)
            && Results(functions, calls)[j] == Executed(functions, calls[ks[j]]))
    decreases |calls|
  {
    if calls == [] {
    } else {
      var n := |calls| - 1;
      var front := calls[..n];
      ResultSource(functions, front);
      if Has(functions, calls[n].name) {
        assert Results(functions, calls) == Results(functions, front) + [Executed(functions, calls[n])];
        assert Sources(functions, calls) == Sources(functions, front) + [n];
      } else {
        assert Results(functions, calls) == Results(functions, front);
        assert Sources(functions, calls) == Sources(functions, front);
      }
    }
  }

  lemma WithResultSnoc(results: seq<ToolCall>, r: ToolCall)
    ensures WithResult(results + [r]) == WithResult(results) + if r.result.Some? then [r] else []
  {
    assert (results + [r])[..|results|] == results;
  }

  /** Every result of the middleware is set. */
  lemma {:induction false} ResultsSet(functions: FunctionMap, calls: seq<ToolCall>)
    ensures WithResult(Results(functions, calls)) == Results(functions, calls)
    decreases |calls|
  {
    if calls == [] {
    } else {
      var n := |calls| - 1;
      ResultsSet(functions, calls[..n]);
      if Has(functions, calls[n].name) {
        WithResultSnoc(Results(functions, calls[..n]), Executed(functions, calls[n]));
      } else {
        assert Results(functions, calls) == Results(functions, calls[..n]);
      }
    }
  }

  /** An available call's result has the same position as the call exactly when every earlier call is available. */
  lemma {:induction false} SourcePosition(functions: FunctionMap, calls: seq<ToolCall>)
    ensures var ks := Sources(functions, calls);
      && |ks| <= |calls|
      && (|ks| == |calls| <==> forall i :: 0 <= i < |calls| ==> Has(functions, calls[i].name))
      && (forall j :: 0 <= j < |ks| ==> (ks[j] == j <==> forall i :: 0 <= i < ks[j] ==> Has(functions, calls[i].name)))
    decreases |calls|
  {
    if calls == [] {
    } else {
      var n := |calls| - 1;
      var front := calls[..n];
      SourcePosition(functions, front);
      assert forall i :: 0 <= i < n ==> front[i] == calls[i];
    }
  }

  lemma {:induction false} SourcesCover(functions: FunctionMap, calls: seq<ToolCall>, k: nat) returns (j: nat)
    requires k < |calls| && Has(functions, calls[k].name)
    ensures j < |Sources(functions, calls)| && Sources(functions, calls)[j] == k
    decreases |calls|
  {
    var n := |calls| - 1;
    if k == n {
      j := |Sources(functions, calls)| - 1;
    } else {
      j := SourcesCover(functions, calls[..n], k);
    }
  }

  /** Every result of the agent's own aggregate carries the id its call was sent with. */
  ghost predicate Paired(fb: Naming, functions: FunctionMap, calls: seq<ToolCall>) {
    var ks := Sources(functions, calls);
    |ks| == |Results(functions, calls)| &&
    forall j :: 0 <= j < |ks| ==> IdAt(fb, Results(functions, calls)[j], j) == IdAt(fb, calls[ks[j]], ks[j])
  }

  /** A caller can tell beforehand: an available call without an explicit id follows no unavailable one. */
  predicate NoGapBefore(functions: FunctionMap, calls: seq<ToolCall>) {
    forall k :: 0 <= k < |calls| && Has(functions, calls[k].name) && calls[k].id.None? ==>
      forall i :: 0 <= i < k ==> Has(functions, calls[i].name)
  }

  /** Different positions give different ids to the same name. */
  ghost predicate Positional(fb: Naming) {
    forall name, i, j :: fb(name, i) == fb(name, j) ==> i == j
  }

  lemma PairedAt(fb: Naming, functions: FunctionMap, calls: seq<ToolCall>, j: nat)
    requires Positional(fb) && j < |Sources(functions, calls)|
    ensures var k := Sources(functions, calls)[j];
      && j < |Results(functions, calls)|
      && (IdAt(fb, Results(functions, calls)[j], j) == IdAt(fb, calls[k], k) <==>
            calls[k].id.Some? || forall i :: 0 <= i < k ==> Has(functions, calls[i].name))
  {
    ResultSource(functions, calls);
    SourcePosition(functions, calls);
    var k := Sources(functions, calls)[j];
  }

  lemma PairedExactly(fb: Naming, functions: FunctionMap, calls: seq<ToolCall>)
    requires Positional(fb)
    ensures Paired(fb, functions, calls) <==> NoGapBefore(functions, calls)
  {
    ResultSource(functions, calls);
    var ks := Sources(functions, calls);
    forall j | 0 <= j < |ks|
      ensures IdAt(fb, Results(functions, calls)[j], j) == IdAt(fb, calls[ks[j]], ks[j]) <==>
        calls[ks[j]].id.Some? || forall i :: 0 <= i < ks[j] ==> Has(functions, calls[i].name)
    {
      PairedAt(fb, functions, calls, j);
    }
    if Paired(fb, functions, calls) {
      forall k | 0 <= k < |calls| && Has(functions, calls[k].name) && calls[k].id.None?
        ensures forall i :: 0 <= i < k ==> Has(functions, calls[i].name)
      {
        var j := SourcesCover(functions, calls, k);
        assert IdAt(fb, Results(functions, calls)[j], j) == IdAt(fb, calls[ks[j]], ks[j]);
      }
    }
  }

  /** `calls` are sent with their ids. */
  ghost predicate Asks(fb: Naming, calls: seq<ToolCall>, r: Request) {
    && r.AssistantRequest? && |r.calls| == |calls|
    && forall k :: 0 <= k < |calls| ==> r.calls[k] == RequestCall(IdAt(fb, calls[k], k), calls[k].name, calls[k].args)
  }

  /** `results` are sent with their ids. */
  ghost predicate Replies(fb: Naming, results: seq<ToolCall>, rs: seq<Request>) {
    && |rs| == |results|
    && forall j :: 0 <= j < |results| ==> rs[j] == ToolRequest(Str(results[j].result), IdAt(fb, results[j], j))
  }

  lemma ResultsReply(fb: Naming, results: seq<ToolCall>)
    requires WithResult(results) == results
    ensures Replies(fb, results, ProcessResults(fb, results))
  {
  }

  lemma CallsAsk(fb: Naming, m: ToolMessage, agent: string)
    requires m.from == Some(agent)
    ensures ProcessToolCalls(fb, m, agent).Ok? && Asks(fb, m.calls, ProcessToolCalls(fb, m, agent).value)
  {
  }

  lemma ExpandOwn(fb: Naming, m: ToolMessage, results: seq<ToolCall>, agent: string)
    requires m.from == Some(agent) && ProcessToolCalls(fb, m, agent).Ok?
    ensures Expand(fb, m, results, Some(agent), agent) ==
      Ok([ProcessToolCalls(fb, m, agent).value] + ProcessResults(fb, results))
  {
  }

  /** The agent's own aggregate is sent as one message with every call, then one message per result. */
  lemma OwnAggregateExpands(fb: Naming, functions: FunctionMap, m: ToolMessage, agent: string)
    requires m.from == Some(agent)
    ensures var results := Results(functions, m.calls);
      var e := Expand(fb, m, results, Some(agent), agent);
      e.Ok? && e.value != [] && Asks(fb, m.calls, e.value[0]) && Replies(fb, results, e.value[1..])
  {
    var results := Results(functions, m.calls);
    ResultsSet(functions, m.calls);
    ResultsReply(fb, results);
    CallsAsk(fb, m, agent);
    ExpandOwn(fb, m, results, agent);
    var asked, replies := ProcessToolCalls(fb, m, agent).value, ProcessResults(fb, results);
    assert ([asked] + replies)[1..] == replies;
  }

  /** Every result message carries the id of the call it answers; `ks` are the positions of the answered calls. */
  ghost predicate IdsMatch(ks: seq<nat>, asked: Request, replies: seq<Request>) {
    && asked.AssistantRequest? && |replies| == |ks|
    && forall j :: 0 <= j < |ks| ==>
         replies[j].ToolRequest? && ks[j] < |asked.calls| && replies[j].id == asked.calls[ks[j]].id
  }

  lemma PairedReplies(fb: Naming, functions: FunctionMap, calls: seq<ToolCall>, asked: Request, replies: seq<Request>)
    requires Asks(fb, calls, asked) && Replies(fb, Results(functions, calls), replies)
    ensures IdsMatch(Sources(functions, calls), asked, replies) <==> Paired(fb, functions, calls)
  {
    ResultSource(functions, calls);
    var results, ks := Results(functions, calls), Sources(functions, calls);
    forall j | 0 <= j < |ks|
      ensures replies[j].ToolRequest? && replies[j].id == IdAt(fb, results[j], j)
      ensures asked.calls[ks[j]].id == IdAt(fb, calls[ks[j]], ks[j])
    {
    }
  }

  /**
   In those requests every result message carries the id of the call it answers, exactly when no
   available call without an explicit id follows an unavailable one.
   */
  lemma ExpansionPairsIds(
      fb: Naming, functions: FunctionMap, calls: seq<ToolCall>, asked: Request, replies: seq<Request>)
    requires Positional(fb) && Asks(fb, calls, asked) && Replies(fb, Results(functions, calls), replies)
    ensures IdsMatch(Sources(functions, calls), asked, replies) <==> NoGapBefore(functions, calls)
  {
    PairedExactly(fb, functions, calls);
    PairedReplies(fb, functions, calls, asked, replies);
  }

  lemma FallbackPositional()
    ensures Positional(Fallback)
  {
    forall name, i, j | Fallback(name, i) == Fallback(name, j) ensures i == j {
      FallbackInjective(name, i, name, j);
    }
  }

  /**
   The requests that the agent's own aggregate is sent as, with the source's fallback ids: all
   calls, then one message per available call, which carries that call's id in every one of them
   exactly when no available call without an explicit id follows an unavailable one.
   */
  lemma OwnAggregatePairs(functions: FunctionMap, m: ToolMessage, agent: string)
    requires m.from == Some(agent)
    ensures var sent := Expand(Fallback, m, Results(functions, m.calls), Some(agent), agent);
      && sent.Ok? && |sent.value| == 1 + |Sources(functions, m.calls)|
      && sent.value[0].AssistantRequest? && |sent.value[0].calls| == |m.calls|
      && (IdsMatch(Sources(functions, m.calls), sent.value[0], sent.value[1..]) <==> NoGapBefore(functions, m.calls))
  {
    FallbackPositional();
    ResultSource(functions, m.calls);
    var fb: Naming := Fallback;
    OwnAggregateExpands(fb, functions, m, agent);
    var sent := Expand(fb, m, Results(functions, m.calls), Some(agent), agent).value;
    ExpansionPairsIds(fb, functions, m.calls, sent[0], sent[1..]);
  }

  /** In particular they do when every call has an explicit id, or every called name is available. */
  lemma PairedWhenExplicitOrAvailable(functions: FunctionMap, m: ToolMessage, agent: string)
    requires m.from == Some(agent)
    requires (forall i :: 0 <= i < |m.calls| ==> m.calls[i].id.Some?) ||
      (forall i :: 0 <= i < |m.calls| ==> Has(functions, m.calls[i].name))
    ensures var sent := Expand(Fallback, m, Results(functions, m.calls), Some(agent), agent);
      && sent.Ok? && sent.value != [] && IdsMatch(Sources(functions, m.calls), sent.value[0], sent.value[1..])
  {
    OwnAggregatePairs(functions, m, agent);
  }

  // ----- The requests, field by field -----

  /** The number that a string of decimal digits denotes. */
  function ValueOf(digits: string): nat {
    if digits == "" then 0
    else
      var d := digits[|digits| - 1];
      10 * ValueOf(digits[..|digits| - 1]) + if '0' <= d <= '9' then d as int - '0' as int else 0
  }

  lemma DigitIs(d: nat)
    requires d < 10
    ensures '0' <= DIGITS[d] <= '9' && DIGITS[d] as int - '0' as int == d
  {
  }

  /** Positions are written in decimal: digits that denote the number, without a leading zero. */
  lemma {:induction false} DecimalDenotes(n: nat)
    ensures ValueOf(Decimal(n)) == n && (forall i :: 0 <= i < |Decimal(n)| ==> '0' <= Decimal(n)[i] <= '9')
    ensures Decimal(n) != "" && (n > 0 ==> Decimal(n)[0] != '0')
  {
    DigitIs(n % 10);
    if n < 10 {
      assert [DIGITS[n]][..0] == "";
    } else {
      DecimalDenotes(n / 10);
      var front := Decimal(n / 10);
      assert Decimal(n) == front + [DIGITS[n % 10]] && Decimal(n)[..|front|] == front;
      assert n == 10 * (n / 10) + n % 10;
    }
  }

  /** The id call `c` is sent with at position `k`: its own, or its name and the position. */
  ghost predicate SentAs(c: ToolCall, k: nat, id: string) {
    id == match c.id case Some(own) => own case None => c.name + "_" + Decimal(k)
  }

  /** The message that asks for the calls of `m`. */
  ghost predicate AsksFor(m: ToolMessage, r: Request) {
    && r.AssistantRequest? && r.content == Str(m.content) && |r.calls| == |m.calls|
    && forall k :: 0 <= k < |m.calls| ==>
         && SentAs(m.calls[k], k, r.calls[k].id)
         && r.calls[k].name == m.calls[k].name && r.calls[k].args == m.calls[k].args
  }

  /** The message with the result of the j-th call that ran. */
  ghost predicate ReportsOn(functions: FunctionMap, c: ToolCall, j: nat, r: Request) {
    && functions.Some? && c.name in functions.value
    && r.ToolRequest? && r.content == functions.value[c.name](c.args) && SentAs(c, j, r.id)
  }

  /**
   The requests the agent's own aggregate is sent as: one message with all calls, then one with the
   result of each runnable call, in order.
   */
  lemma OwnRequests(functions: FunctionMap, m: ToolMessage, agent: string)
    requires m.from == Some(agent)
    ensures var sent := Expand(Fallback, m, Results(functions, m.calls), Some(agent), agent);
      var run := Where(m.calls, Runnable(functions));
      && sent.Ok? && |sent.value| == 1 + |run| && AsksFor(m, sent.value[0])
      && forall j :: 0 <= j < |run| ==> ReportsOn(functions, run[j], j, sent.value[1..][j])
  {
    var results := Results(functions, m.calls);
    OwnAsked(m, agent);
    OwnReported(functions, m.calls);
    ExpandOwn(Fallback, m, results, agent);
    var asked, replies := ProcessToolCalls(Fallback, m, agent).value, ProcessResults(Fallback, results);
    assert ([asked] + replies)[1..] == replies;
  }

  lemma OwnAsked(m: ToolMessage, agent: string)
    requires m.from == Some(agent)
    ensures ProcessToolCalls(Fallback, m, agent).Ok? && AsksFor(m, ProcessToolCalls(Fallback, m, agent).value)
  {
  }

  lemma OwnReported(functions: FunctionMap, calls: seq<ToolCall>)
    ensures var replies, run := ProcessResults(Fallback, Results(functions, calls)), Where(calls, Runnable(functions));
      |replies| == |run| && forall j :: 0 <= j < |run| ==> ReportsOn(functions, run[j], j, replies[j])
  {
    var results, run := Results(functions, calls), Where(calls, Runnable(functions));
    ResultsAnswer(functions, calls);
    ResultsSet(functions, calls);
    ResultsReply(Fallback, results);
    forall j | 0 <= j < |run| ensures ReportsOn(functions, run[j], j, ProcessResults(Fallback, results)[j]) {
      assert IsResultOf(functions, run[j], results[j]);
    }
  }

  predicate HasResult(c: ToolCall) { c.result.Some? }

  /** Results are sent one by one, leaving out calls without a result, which are not counted either. */
  lemma {:induction false} ResultsSent(results: seq<ToolCall>)
    ensures var rs, given := ProcessResults(Fallback, results), Where(results, HasResult);
      && |rs| == |given|
      && forall j :: 0 <= j < |given| ==>
           rs[j].ToolRequest? && Some(rs[j].content) == given[j].result && SentAs(given[j], j, rs[j].id)
  {
    WithResultIs(results);
  }

  lemma {:induction false} WithResultIs(results: seq<ToolCall>)
    ensures WithResult(results) == Where(results, HasResult)
    decreases |results|
  {
    if results == [] {
      WhereNone(HasResult);
    } else {
      var front, r := results[..|results| - 1], results[|results| - 1];
      assert front + [r] == results;
      WithResultIs(front);
      WhereSnoc(front, r, HasResult);
    }
  }

  /** Somebody else's aggregate is sent as one user message per result, and their tool calls are refused. */
  lemma ForeignRequests(m: ToolMessage, results: seq<ToolCall>, from: string, agent: string)
    requires from != agent
    ensures var sent := Expand(Fallback, m, results, Some(from), agent);
      sent.Ok? && |sent.value| == |results| &&
      forall i :: 0 <= i < |results| ==> sent.value[i] == UserRequest(results[i].result)
    ensures m.from == Some(from) ==> ProcessToolCalls(Fallback, m, agent).Err?
  {
  }
}
