/** The group-chat engine: `CallAsync`, and `SendAsync`, which drives it one round at a time. */
module GroupChat {
  import opened Wrappers
  import opened Orchestration
  import opened Rotation

  /** Every agent's reply as a function of the agent and of the history it is shown. */
  type Replies = (Agent, History) -> Result<Message>

  datatype End = Exhausted | NoSpeaker | Terminated | Failed(error: string)

  /** The messages a run appends, and why it ends. */
  datatype Run = Run(appended: seq<Message>, end: End)

  // ----- Construction -----

  ghost predicate DistinctNames(agents: seq<Agent>) {
    forall i, j :: 0 <= i < j < |agents| ==> agents[i].name != agents[j].name
  }

  function NameSet(agents: seq<Agent>): set<string> {
    set i | 0 <= i < |agents| :: agents[i].name
  }

  /** `Validation`: named, `Distinct().Count()` equals the count, and the workflow's agents are members. */
  predicate Validates(agents: seq<Agent>, workflow: Option<seq<Transition>>) {
    && (forall i :: 0 <= i < |agents| ==> agents[i].name != "")
    && |NameSet(agents)| == |agents|
    && (workflow.Some? ==> forall i :: 0 <= i < |workflow.value| ==>
          Named(agents, workflow.value[i].from.name) && Named(agents, workflow.value[i].to.name))
  }

  lemma DistinctSnoc(front: seq<Agent>, last: Agent)
    ensures DistinctNames(front + [last]) <==> DistinctNames(front) && last.name !in NameSet(front)
  {
    var agents := front + [last];
    assert forall i :: 0 <= i < |front| ==> agents[i] == front[i];
    assert agents[|front|] == last;
  }

  lemma {:induction false} DistinctCount(agents: seq<Agent>)
    ensures |NameSet(agents)| <= |agents|
    ensures |NameSet(agents)| == |agents| <==> DistinctNames(agents)
    decreases |agents|
  {
    if agents == [] {
    } else {
      var front, last := agents[..|agents| - 1], agents[|agents| - 1];
      DistinctCount(front);
      assert agents == front + [last];
      DistinctSnoc(front, last);
      assert NameSet(agents) == NameSet(front) + {last.name};
    }
  }

  /** What the constructor demands, spelled out: named, pairwise differently, and the workflow's ends are members. */
  lemma ValidatesMeans(agents: seq<Agent>, workflow: Option<seq<Transition>>)
    ensures Validates(agents, workflow) <==>
      && (forall i :: 0 <= i < |agents| ==> agents[i].name != "")
      && DistinctNames(agents)
      && (workflow.Some? ==> forall t :: t in workflow.value ==> Named(agents, t.from.name) && Named(agents, t.to.name))
  {
    DistinctCount(agents);
    if workflow.Some? {
      assert forall t :: t in workflow.value ==> exists i :: 0 <= i < |workflow.value| && workflow.value[i] == t;
    }
  }

  // ----- Runs -----

  /** The next speaker as a function of the history. */
  type Selector = History -> Choice

  function Selecting(o: Orchestrator, agents: seq<Agent>): Selector {
    h => NextSpeaker(o, agents, h)
  }

  /** Who speaks, what they say, and which messages end the chat. */
  datatype Engine = Engine(next: Selector, replies: Replies, stops: Message -> bool)

  /** At most `n` rounds of speaking, starting from `h`. */
  function Rounds(e: Engine, h: History, n: int): Run
    decreases if n > 0 then n else 0
  {
    if n <= 0 then Run([], Exhausted)
    else
      match e.next(h)
      case Err(error) => Run([], Failed(error))
      case Ok(None) => Run([], NoSpeaker)
      case Ok(Some(speaker)) =>
        match e.replies(speaker, h)
        case Err(error) => Run([], Failed(error))
        case Ok(m) =>
          if e.stops(m) then Run([m], Terminated)
          else
            var rest := Rounds(e, h + [m], n - 1);
            Run([m] + rest.appended, rest.end)
  }

  /** The engine of a chat: its orchestrator over its members, and the terminate marker. */
  function EngineOf(o: Orchestrator, agents: seq<Agent>, replies: Replies): Engine {
    Engine(Selecting(o, agents), replies, IsTerminate)
  }

  /** One round, then the rest. */
  lemma RoundsStep(e: Engine, h: History, n: int)
    requires n > 0 && e.next(h).Ok? && e.next(h).value.Some? && e.replies(e.next(h).value.value, h).Ok?
    ensures var m := e.replies(e.next(h).value.value, h).value;
      Rounds(e, h, n) ==
        if e.stops(m) then Run([m], Terminated)
        else Run([m] + Rounds(e, h + [m], n - 1).appended, Rounds(e, h + [m], n - 1).end)
  {
  }

  /** The message a round on `h` adds, if the orchestrator picks a speaker and the speaker replies. */
  ghost predicate Says(e: Engine, h: History, m: Message) {
    e.next(h).Ok? && e.next(h).value.Some? && e.replies(e.next(h).value.value, h) == Ok(m)
  }

  /** Each message of a run is the chosen speaker's reply to everything before it. */
  lemma {:induction false} RunReplies(e: Engine, h: History, n: int, k: nat)
    requires k < |Rounds(e, h, n).appended|
    ensures var said := Rounds(e, h, n).appended; Says(e, h + said[..k], said[k])
    decreases k
  {
    var said := Rounds(e, h, n).appended;
    var m := e.replies(e.next(h).value.value, h).value;
    RoundsStep(e, h, n);
    if k == 0 {
      assert h + said[..0] == h;
    } else {
      var rest := Rounds(e, h + [m], n - 1).appended;
      RunReplies(e, h + [m], n - 1, k - 1);
      assert said == [m] + rest && said[..k] == [m] + rest[..k - 1];
      Regroup(h, m, rest[..k - 1]);
    }
  }

  /** At most `n` messages are added, only the last can be a terminate message, and the end tells why it stopped. */
  lemma {:induction false} RunEnds(e: Engine, h: History, n: int)
    ensures var run := Rounds(e, h, n);
      var said, limit := run.appended, if n > 0 then n else 0;
      && |said| <= limit
      && (forall k :: 0 <= k < |said| ==> (e.stops(said[k]) <==> run.end == Terminated && k == |said| - 1))
      && (match run.end
          case Terminated => said != []
          case Exhausted => |said| == limit
          case NoSpeaker => |said| < limit && e.next(h + said) == Ok(None)
          case Failed(_) => |said| < limit && forall m :: !Says(e, h + said, m))
    decreases if n > 0 then n else 0
  {
    assert h + [] == h;
    if n > 0 && e.next(h).Ok? && e.next(h).value.Some? && e.replies(e.next(h).value.value, h).Ok? {
      var m := e.replies(e.next(h).value.value, h).value;
      RoundsStep(e, h, n);
      if !e.stops(m) {
        RunEnds(e, h + [m], n - 1);
        Regroup(h, m, Rounds(e, h + [m], n - 1).appended);
      }
    }
  }

  /** The engine stops exactly at messages that hold the terminate marker. */
  ghost predicate StopsAtMarker(e: Engine) {
    forall m :: e.stops(m) <==> Marked(m, "[GROUPCHAT_TERMINATE]")
  }

  lemma ChatEngine(o: Orchestrator, agents: seq<Agent>, replies: Replies)
    ensures var e := EngineOf(o, agents, replies);
      && (forall h :: e.next(h) == NextSpeaker(o, agents, h)) && e.replies == replies && StopsAtMarker(e)
  {
    forall m ensures IsTerminate(m) <==> Marked(m, "[GROUPCHAT_TERMINATE]") {
      MarkersAre(m);
    }
  }

  /** The last message of a run may hold the marker, no other does, and a shorter run has it or lacks a speaker. */
  ghost predicate EndsAtMarker(e: Engine, start: History, end: History, maxRound: int) {
    && start <= end
    && (forall k :: |start| <= k < |end| - 1 ==> !Marked(end[k], "[GROUPCHAT_TERMINATE]"))
    && (|| |end| - |start| == (if maxRound > 0 then maxRound else 0)
        || (|end| > |start| && Marked(end[|end| - 1], "[GROUPCHAT_TERMINATE]"))
        || e.next(end) == Ok(None))
  }

  lemma RunEndsAtMarker(e: Engine, h: History, n: int)
    requires StopsAtMarker(e) && !Rounds(e, h, n).end.Failed?
    ensures EndsAtMarker(e, h, h + Rounds(e, h, n).appended, n)
  {
    RunEnds(e, h, n);
    var said := Rounds(e, h, n).appended;
    var end := h + said;
    forall k | |h| <= k < |end| - 1 ensures !Marked(end[k], "[GROUPCHAT_TERMINATE]") {
      assert end[k] == said[k - |h|];
      assert e.stops(said[k - |h|]) <==> Marked(said[k - |h|], "[GROUPCHAT_TERMINATE]");
    }
    if said != [] {
      assert end[|end| - 1] == said[|said| - 1];
      assert e.stops(said[|said| - 1]) <==> Marked(said[|said| - 1], "[GROUPCHAT_TERMINATE]");
    }
  }

  lemma Regroup<T>(said: seq<T>, m: T, rest: seq<T>)
    ensures said + ([m] + rest) == (said + [m]) + rest
  {
  }

  /** The loop of `CallAsync`. */
  method SpeakInTurn(e: Engine, start: History, maxRound: int) returns (r: Result<History>)
    ensures var run := Rounds(e, start, maxRound);
      r == if run.end.Failed? then Err(run.end.error) else Ok(start + run.appended)
  {
    var conversation, roundLeft := start, maxRound;
    ghost var whole, said: seq<Message> := Rounds(e, start, maxRound), [];
    while roundLeft > 0
      invariant conversation == start + said
      invariant var rest := Rounds(e, conversation, roundLeft); whole == Run(said + rest.appended, rest.end)
    {
      match e.next(conversation) {
        case Err(error) => return Err(error);
        case Ok(None) => break;
        case Ok(Some(speaker)) =>
          match e.replies(speaker, conversation) {
            case Err(error) => return Err(error);
            case Ok(m) =>
              RoundsStep(e, conversation, roundLeft);
              Regroup(said, m, Rounds(e, conversation + [m], roundLeft - 1).appended);
              assert start + said + [m] == start + (said + [m]);
              conversation, said := conversation + [m], said + [m];
              if e.stops(m) {
                return Ok(conversation);
              }
          }
      }
      roundLeft := roundLeft - 1;
    }
    assert said + [] == said;
    return Ok(conversation);
  }

  function Transitions(g: Graph?): Option<seq<Transition>>
    reads g
  {
    if g == null then None else Some(g.transitions)
  }

  /** The orchestrator a chat without a given one has. */
  function Chosen(admin: Option<Admin>, workflow: Option<seq<Transition>>): Orchestrator {
    if admin.Some? then RolePlayOrchestrator(admin.value, workflow)
    else if workflow.Some? then WorkflowOrchestrator(workflow.value)
    else RoundRobinOrchestrator
  }

  /** The engine as a function of the transitions that the caller's graph object has at the time. */
  type Setup = Option<seq<Transition>> -> Engine

  function Choosing(admin: Option<Admin>, agents: seq<Agent>, replies: Replies): Setup {
    ts => EngineOf(Chosen(admin, ts), agents, replies)
  }

  class Chat {
    const agents: seq<Agent>
    const workflow: Graph?
    const setup: Setup
    var initializeMessages: seq<Message>

    constructor (agents: seq<Agent>, workflow: Graph?, setup: Setup, initializeMessages: seq<Message>)
      requires Validates(agents, None) && forall ts :: StopsAtMarker(setup(ts))
      ensures Valid() && this.agents == agents && this.workflow == workflow && this.setup == setup
      ensures this.initializeMessages == initializeMessages
    {
      this.agents, this.workflow, this.setup := agents, workflow, setup;
      this.initializeMessages := initializeMessages;
    }

    /** Whatever the graph holds, the chat ends at the marker. */
    ghost predicate Valid() { forall ts :: StopsAtMarker(setup(ts)) }

    function CurrentEngine(): Engine
      reads workflow
    {
      setup(Transitions(workflow))
    }

    /** The public constructor that picks the orchestrator; None when validation throws. */
    static method Create(
        members: seq<Agent>, admin: Option<Admin>, workflow: Graph?,
        initializeMessages: seq<Message>, replies: Replies)
      returns (chat: Option<Chat>)
      ensures chat.Some? <==>
        && (forall i :: 0 <= i < |members| ==> members[i].name != "") && DistinctNames(members)
        && (workflow != null ==> forall t :: t in workflow.transitions ==>
              Named(members, t.from.name) && Named(members, t.to.name))
      ensures chat.Some? ==> fresh(chat.value) && chat.value.Valid()
      ensures chat.Some? ==> chat.value.agents == members && chat.value.initializeMessages == initializeMessages
      ensures chat.Some? ==> chat.value.workflow == workflow && chat.value.setup == Choosing(admin, members, replies)
      ensures chat.Some? ==> chat.value.CurrentEngine().replies == replies
      ensures chat.Some? && admin.Some? ==> forall h ::
        chat.value.CurrentEngine().next(h) ==
          NextSpeaker(RolePlayOrchestrator(admin.value, Transitions(workflow)), members, h)
      ensures chat.Some? && admin.None? && workflow != null ==> forall h ::
        chat.value.CurrentEngine().next(h) == NextSpeaker(WorkflowOrchestrator(workflow.transitions), members, h)
      ensures chat.Some? && admin.None? && workflow == null ==> forall h ::
        chat.value.CurrentEngine().next(h) == NextSpeaker(RoundRobinOrchestrator, members, h)
    {
      ValidatesMeans(members, Transitions(workflow));
      forall ts ensures StopsAtMarker(Choosing(admin, members, replies)(ts)) {
        ChatEngine(Chosen(admin, ts), members, replies);
      }
      ChatEngine(Chosen(admin, Transitions(workflow)), members, replies);
      if !Validates(members, Transitions(workflow)) {
        return None;
      }
      var c := new Chat(members, workflow, Choosing(admin, members, replies), initializeMessages);
      return Some(c);
    }

    /** The public constructor that is given an orchestrator; None when validation throws. */
    static method CreateWith(members: seq<Agent>, o: Orchestrator, initializeMessages: seq<Message>, replies: Replies)
      returns (chat: Option<Chat>)
      ensures chat.Some? <==> (forall i :: 0 <= i < |members| ==> members[i].name != "") && DistinctNames(members)
      ensures chat.Some? ==> fresh(chat.value) && chat.value.Valid()
      ensures chat.Some? ==> chat.value.agents == members && chat.value.initializeMessages == initializeMessages
      ensures chat.Some? ==> chat.value.CurrentEngine().replies == replies
      ensures chat.Some? ==> forall h :: chat.value.CurrentEngine().next(h) == NextSpeaker(o, members, h)
    {
      ValidatesMeans(members, None);
      ChatEngine(o, members, replies);
      if !Validates(members, None) {
        return None;
      }
      var c := new Chat(members, null, _ => EngineOf(o, members, replies), initializeMessages);
      return Some(c);
    }

    method SendIntroduction(m: Message)
      modifies this
      ensures initializeMessages == old(initializeMessages) + [m]
    {
      initializeMessages := initializeMessages + [m];
    }

    method CallAsync(chatHistory: Option<History>, maxRound: int) returns (r: Result<History>)
      requires Valid()
      ensures var h := initializeMessages + (if chatHistory.Some? then chatHistory.value else []);
        var run := Rounds(CurrentEngine(), h, maxRound);
        r == if run.end.Failed? then Err(run.end.error) else Ok(h + run.appended)
      ensures var h := initializeMessages + (if chatHistory.Some? then chatHistory.value else []);
        r.Ok? ==> EndsAtMarker(CurrentEngine(), h, r.value, maxRound)
    {
      var conversation := initializeMessages;
      if chatHistory.Some? {
        conversation := conversation + chatHistory.value;
      }
      assert conversation == initializeMessages + (if chatHistory.Some? then chatHistory.value else []);
      r := SpeakInTurn(CurrentEngine(), conversation, maxRound);
      if r.Ok? {
        RunEndsAtMarker(CurrentEngine(), conversation, maxRound);
      }
    }
  }

  lemma ValidatesSnoc(agents: seq<Agent>, ts: seq<Transition>, t: Transition)
    requires Validates(agents, Some(ts))
    ensures Validates(agents, Some(ts + [t])) <==> Named(agents, t.from.name) && Named(agents, t.to.name)
  {
    assert (ts + [t])[|ts|] == t;
    assert forall i :: 0 <= i < |ts| ==> (ts + [t])[i] == ts[i];
  }

  /**
   A chat keeps the caller's graph object, so a transition added to it later takes effect, and
   nothing validates it again. If construction would have refused it, it never changes a choice.
   */
  method AddTransitionLater(chat: Chat, ghost admin: Option<Admin>, ghost replies: Replies, g: Graph, t: Transition)
    requires chat.workflow == g && chat.setup == Choosing(admin, chat.agents, replies)
    requires Validates(chat.agents, Some(g.transitions))
    modifies g
    ensures chat.CurrentEngine() == EngineOf(Chosen(admin, Some(old(g.transitions) + [t])), chat.agents, replies)
    ensures Validates(chat.agents, Some(g.transitions)) <==>
      Named(chat.agents, t.from.name) && Named(chat.agents, t.to.name)
    ensures !Validates(chat.agents, Some(g.transitions)) ==>
      forall h :: chat.CurrentEngine().next(h) == old(chat.CurrentEngine()).next(h)
  {
    ghost var ts := g.transitions;
    g.AddTransition(t);
    ValidatesSnoc(chat.agents, ts, t);
    if !Validates(chat.agents, Some(g.transitions)) {
      var before, after := Chosen(admin, Some(ts)), Chosen(admin, Some(ts + [t]));
      forall h ensures NextSpeaker(after, chat.agents, h) == NextSpeaker(before, chat.agents, h) {
        ForeignTransitionInert(before, ts, t, chat.agents, h);
      }
    }
  }

  // ----- SendAsync -----

  /** What a consumer of `SendAsync` sees: the yielded messages, then possibly an exception. */
  datatype Sent = Sent(yielded: seq<Message>, error: Option<string>)

  /** The result of `CallAsync(h, maxRound: 1)` with introductions `intro`. */
  function OneRound(e: Engine, intro: History, h: History): Result<History> {
    var run := Rounds(e, intro + h, 1);
    if run.end.Failed? then Err(run.end.error) else Ok(intro + h + run.appended)
  }

  /** The new message of one round: the last of its result, if that is longer than the history passed in. */
  function Heard(e: Engine, intro: History, h: History): Result<Option<Message>> {
    match OneRound(e, intro, h)
    case Err(error) => Err(error)
    case Ok(messages) => Ok(if |messages| == |h| then None else Some(messages[|messages| - 1]))
  }

  function SendRun(e: Engine, intro: History, h: History, n: int): Sent
    decreases if n > 0 then n else 0
  {
    if n <= 0 then Sent([], None)
    else
      match Heard(e, intro, h)
      case Err(error) => Sent([], Some(error))
      case Ok(None) => Sent([], None)
      case Ok(Some(last)) =>
        if e.stops(last) then Sent([last], None)
        else
          var rest := SendRun(e, intro, h + [last], n - 1);
          Sent([last] + rest.yielded, rest.error)
  }

  /** One pass of the loop: a single-round call, and the comparison of the lengths. */
  method SendOne(chat: Chat, h: History) returns (r: Result<Option<Message>>)
    requires chat.Valid()
    ensures r == Heard(chat.CurrentEngine(), chat.initializeMessages, h)
  {
    var result := chat.CallAsync(Some(h), 1);
    match result {
      case Err(error) => return Err(error);
      case Ok(messages) =>
        if |messages| == |h| {
          return Ok(None);
        }
        return Ok(Some(messages[|messages| - 1]));
    }
  }

  /** After `yielded`, the rest of the loop makes `whole` of it. */
  ghost predicate Remains(
      whole: Sent, yielded: seq<Message>, e: Engine, intro: History, h: History, n: int)
  {
    var rest := SendRun(e, intro, h, n);
    whole == Sent(yielded + rest.yielded, rest.error)
  }

  /** One pass of the loop, depending on what it hears. */
  lemma SendStep(whole: Sent, yielded: seq<Message>, e: Engine, intro: History, h: History, n: int)
    requires n > 0 && Remains(whole, yielded, e, intro, h, n)
    ensures match Heard(e, intro, h)
      case Err(error) => whole == Sent(yielded, Some(error))
      case Ok(None) => whole == Sent(yielded, None)
      case Ok(Some(last)) =>
        if e.stops(last) then whole == Sent(yielded + [last], None)
        else Remains(whole, yielded + [last], e, intro, h + [last], n - 1)
  {
    var r := Heard(e, intro, h);
    assert yielded + [] == yielded;
    if r.Ok? && r.value.Some? && !e.stops(r.value.value) {
      var last := r.value.value;
      Regroup(yielded, last, SendRun(e, intro, h + [last], n - 1).yielded);
    }
  }

  ghost predicate OnlyLastMarked(ms: seq<Message>) {
    forall k :: 0 <= k < |ms| - 1 ==> !Marked(ms[k], "[GROUPCHAT_TERMINATE]")
  }

  lemma OnlyLastMarkedCons(m: Message, rest: seq<Message>)
    requires !Marked(m, "[GROUPCHAT_TERMINATE]") && OnlyLastMarked(rest)
    ensures OnlyLastMarked([m] + rest)
  {
    var ms := [m] + rest;
    forall k | 0 <= k < |ms| - 1 ensures !Marked(ms[k], "[GROUPCHAT_TERMINATE]") {
      if k > 0 {
        assert ms[k] == rest[k - 1];
      }
    }
  }

  /** Only the last message sent can hold the marker. */
  lemma {:induction false} SendEndsAtMarker(e: Engine, intro: History, h: History, n: int)
    requires StopsAtMarker(e)
    ensures OnlyLastMarked(SendRun(e, intro, h, n).yielded)
    decreases if n > 0 then n else 0
  {
    if n > 0 && Heard(e, intro, h).Ok? && Heard(e, intro, h).value.Some? {
      var last := Heard(e, intro, h).value.value;
      assert e.stops(last) <==> Marked(last, "[GROUPCHAT_TERMINATE]");
      if !e.stops(last) {
        SendEndsAtMarker(e, intro, h + [last], n - 1);
        OnlyLastMarkedCons(last, SendRun(e, intro, h + [last], n - 1).yielded);
      }
    }
  }

  method SendAsync(chat: Chat, chatHistory: History, maxRound: int)
    returns (yielded: seq<Message>, error: Option<string>)
    requires chat.Valid()
    ensures Sent(yielded, error) == SendRun(chat.CurrentEngine(), chat.initializeMessages, chatHistory, maxRound)
    ensures OnlyLastMarked(yielded)
  {
    SendEndsAtMarker(chat.CurrentEngine(), chat.initializeMessages, chatHistory, maxRound);
    yielded, error := SendLoop(chat, chatHistory, maxRound);
  }

  /** The loop over single-round calls. */
  method SendLoop(chat: Chat, chatHistory: History, maxRound: int)
    returns (yielded: seq<Message>, error: Option<string>)
    requires chat.Valid()
    ensures Sent(yielded, error) == SendRun(chat.CurrentEngine(), chat.initializeMessages, chatHistory, maxRound)
  {
    yielded := [];
    var h, left := chatHistory, maxRound;
    var e := chat.CurrentEngine();
    ghost var intro := chat.initializeMessages;
    ghost var whole := SendRun(e, intro, h, left);
    while left > 0
      invariant Remains(whole, yielded, e, intro, h, left)
    {
      SendStep(whole, yielded, e, intro, h, left);
      left := left - 1;
      var r := SendOne(chat, h);
      match r {
        case Err(error) => return yielded, Some(error);
        case Ok(None) => return yielded, None;
        case Ok(Some(last)) =>
          if e.stops(last) {
            return yielded + [last], None;
          }
          yielded, h := yielded + [last], h + [last];
      }
    }
    error := None;
  }

  /** When somebody speaks in a round, that message is heard. */
  lemma HeardSpoken(e: Engine, intro: History, h: History, m: Message)
    requires Says(e, intro + h, m)
    ensures Heard(e, intro, h) == Ok(Some(m))
  {
    assert Rounds(e, intro + h, 1).appended == [m];
    assert OneRound(e, intro, h) == Ok(intro + h + [m]);
  }

  /**
   `SendAsync(h, n)` yields exactly what `CallAsync(h, n)` appends, and fails exactly when it
   does, if and only if there are no introductions or the run never lacks a speaker. Otherwise
   it goes on to yield messages nobody sent.
   */
  lemma {:induction false} SendMatchesCall(e: Engine, intro: History, h: History, n: int)
    ensures var run := Rounds(e, intro + h, n);
      var sent := SendRun(e, intro, h, n);
      && (intro == [] || run.end != NoSpeaker ==>
            sent == Sent(run.appended, if run.end.Failed? then Some(run.end.error) else None))
      && (intro != [] && run.end == NoSpeaker ==> run.appended < sent.yielded)
    decreases if n > 0 then n else 0
  {
    if n <= 0 {
    } else {
      var choice := e.next(intro + h);
      if choice.Ok? && choice.value.Some? && e.replies(choice.value.value, intro + h).Ok? {
        var m := e.replies(choice.value.value, intro + h).value;
        HeardSpoken(e, intro, h, m);
        if !e.stops(m) {
          assert intro + h + [m] == intro + (h + [m]);
          SendMatchesCall(e, intro, h + [m], n - 1);
        }
      } else {
        assert intro + h + [] == intro + h;
      }
    }
  }

  /** The disagreement is real: one introduction, nobody to speak, and the introduction is sent again. */
  lemma StaleIntroduction(intro: Message, replies: Replies, stops: Message -> bool)
    requires !stops(intro)
    ensures var e := Engine(_ => Ok(None), replies, stops);
      Rounds(e, [intro], 2).appended == [] && SendRun(e, [intro], [], 2).yielded == [intro, intro]
  {
    var e := Engine(_ => Ok(None), replies, stops);
    assert [intro] + [] + [] == [intro] && [intro] + [intro] + [] == [intro, intro] && [] + [intro] == [intro];
    assert OneRound(e, [intro], []) == Ok([intro]);
    assert OneRound(e, [intro], [intro]) == Ok([intro, intro]);
    assert SendRun(e, [intro], [intro], 1) == Sent([intro], None);
  }

  // ----- Workflow runs -----

  /** Every reply carries the name of the agent that spoke. */
  ghost predicate Signed(replies: Replies) {
    forall a, h :: replies(a, h).Ok? ==> replies(a, h).value.from == Some(a.name)
  }

  /** `m` was sent, after `h`, by an agent an enabled transition leads to from the last sender. */
  ghost predicate Legal(ts: seq<Transition>, agents: seq<Agent>, h: History, m: Message) {
    exists a :: Follows(ts, agents, h, a) && m.from == Some(a.name) && Named(agents, a.name)
  }

  /**
   In any run of a chat of at least two members with a workflow, every appended message's
   sender follows the previous sender along a transition whose guard held on the history so far.
   */
  lemma RunFollowsWorkflow(
      o: Orchestrator, ts: seq<Transition>, replies: Replies, agents: seq<Agent>, h: History, n: int, k: nat)
    requires |agents| >= 2 && Signed(replies)
    requires o == WorkflowOrchestrator(ts) || (o.RolePlayOrchestrator? && o.workflow == Some(ts))
    requires k < |Rounds(EngineOf(o, agents, replies), h, n).appended|
    ensures var said := Rounds(EngineOf(o, agents, replies), h, n).appended;
      Legal(ts, agents, h + said[..k], said[k])
  {
    var e := EngineOf(o, agents, replies);
    var said := Rounds(e, h, n).appended;
    RunReplies(e, h, n, k);
    ChoiceFollowsWorkflow(o, ts, agents, h + said[..k]);
    assert Follows(ts, agents, h + said[..k], e.next(h + said[..k]).value.value);
  }

  // ----- Round-robin runs -----

  /** The last message of `h` is from member `i`. */
  ghost predicate LastFrom(h: History, agents: seq<Agent>, i: nat) {
    i < |agents| && h != [] && h[|h| - 1].from == Some(agents[i].name)
  }

  /** After a message of member i, the selector picks the member that follows it in the ring. */
  ghost predicate Rotates(next: Selector, agents: seq<Agent>) {
    forall h, i :: LastFrom(h, agents, i) ==> next(h) == Ok(Some(agents[Succ(i, |agents|)]))
  }

  lemma RoundRobinRotates(agents: seq<Agent>)
    requires DistinctNames(agents)
    ensures Rotates(Selecting(RoundRobinOrchestrator, agents), agents)
  {
    forall h: History, i: nat | LastFrom(h, agents, i)
      ensures NextSpeaker(RoundRobinOrchestrator, agents, h) == Ok(Some(agents[Succ(i, |agents|)]))
    {
      RoundRobinNext(agents, h, i);
    }
  }

  lemma RoundRobinNext(agents: seq<Agent>, h: History, i: nat)
    requires DistinctNames(agents) && LastFrom(h, agents, i)
    ensures RoundRobin(agents, h) == Ok(Some(agents[Succ(i, |agents|)]))
  {
    assert FindName(agents, h[|h| - 1].from) == i;
    SuccIs(i, |agents|);
  }

  lemma {:induction false} RotationRun(e: Engine, agents: seq<Agent>, h: History, n: int, i: nat, k: nat)
    requires Signed(e.replies) && Rotates(e.next, agents) && LastFrom(h, agents, i)
    requires k < |Rounds(e, h, n).appended|
    ensures Rounds(e, h, n).appended[k].from == Some(agents[Turn(i, k, |agents|)].name)
    decreases k
  {
    var p := Succ(i, |agents|);
    assert e.next(h) == Ok(Some(agents[p]));
    RoundsStep(e, h, n);
    if k == 0 {
    } else {
      RotationRun(e, agents, h + [e.replies(agents[p], h).value], n - 1, p, k - 1);
    }
  }

  lemma {:induction false} RotationNeverLacksSpeaker(e: Engine, agents: seq<Agent>, h: History, n: int, i: nat)
    requires Signed(e.replies) && Rotates(e.next, agents) && LastFrom(h, agents, i)
    ensures Rounds(e, h, n).end != NoSpeaker
    decreases if n > 0 then n else 0
  {
    var p := Succ(i, |agents|);
    assert e.next(h) == Ok(Some(agents[p]));
    if n > 0 && e.replies(agents[p], h).Ok? {
      RoundsStep(e, h, n);
      RotationNeverLacksSpeaker(e, agents, h + [e.replies(agents[p], h).value], n - 1, p);
    }
  }

  /**
   After a message of member i, a round-robin chat never lacks a speaker, and its k-th new
   speaker (counting from zero) is member (i + k + 1) mod n.
   */
  lemma RoundRobinRotation(replies: Replies, agents: seq<Agent>, h: History, n: int, i: nat)
    requires Signed(replies) && DistinctNames(agents) && LastFrom(h, agents, i)
    ensures var run := Rounds(EngineOf(RoundRobinOrchestrator, agents, replies), h, n);
      && run.end != NoSpeaker
      && forall k :: 0 <= k < |run.appended| ==> run.appended[k].from == Some(agents[(i + k + 1) % |agents|].name)
  {
    var e := EngineOf(RoundRobinOrchestrator, agents, replies);
    RoundRobinRotates(agents);
    RotationNeverLacksSpeaker(e, agents, h, n, i);
    forall k | 0 <= k < |Rounds(e, h, n).appended|
      ensures Rounds(e, h, n).appended[k].from == Some(agents[(i + k + 1) % |agents|].name)
    {
      RotationRun(e, agents, h, n, i, k);
      TurnIs(i, k, |agents|);
    }
  }

  /** So a round-robin `SendAsync` agrees with `CallAsync`, whatever the introductions. */
  lemma RoundRobinSendMatchesCall(replies: Replies, agents: seq<Agent>, intro: History, h: History, n: int, i: nat)
    requires Signed(replies) && DistinctNames(agents) && LastFrom(intro + h, agents, i)
    ensures var e := EngineOf(RoundRobinOrchestrator, agents, replies);
      var run := Rounds(e, intro + h, n);
      SendRun(e, intro, h, n) == Sent(run.appended, if run.end.Failed? then Some(run.end.error) else None)
  {
    RoundRobinRotation(replies, agents, intro + h, n, i);
    SendMatchesCall(EngineOf(RoundRobinOrchestrator, agents, replies), intro, h, n);
  }

  /** In said[start..start + n] exactly one message is from `name`. */
  ghost predicate SpeaksOnce(said: seq<Message>, start: nat, n: nat, name: string)
    requires start + n <= |said|
  {
    exists k :: start <= k < start + n && said[k].from == Some(name) && OnlySpeaker(said, start, n, name, k)
  }

  ghost predicate OnlySpeaker(said: seq<Message>, start: nat, n: nat, name: string, k: nat)
    requires start + n <= |said|
  {
    forall j :: start <= j < start + n && said[j].from == Some(name) ==> j == k
  }

  /** Every member speaks exactly once in any |agents| consecutive rounds. */
  lemma RoundRobinFair(replies: Replies, agents: seq<Agent>, h: History, n: int, i: nat, start: nat, member: nat)
    requires Signed(replies) && DistinctNames(agents) && LastFrom(h, agents, i) && member < |agents|
    ensures var said := Rounds(EngineOf(RoundRobinOrchestrator, agents, replies), h, n).appended;
      start + |agents| <= |said| ==> SpeaksOnce(said, start, |agents|, agents[member].name)
  {
    var said := Rounds(EngineOf(RoundRobinOrchestrator, agents, replies), h, n).appended;
    RoundRobinRotation(replies, agents, h, n, i);
    if start + |agents| <= |said| {
      WindowFair(agents, said, i, start, member);
    }
  }

  lemma WindowFair(agents: seq<Agent>, said: seq<Message>, i: nat, start: nat, member: nat)
    requires DistinctNames(agents) && member < |agents| && start + |agents| <= |said|
    requires forall k :: 0 <= k < |said| ==> said[k].from == Some(agents[(i + k + 1) % |agents|].name)
    ensures SpeaksOnce(said, start, |agents|, agents[member].name)
  {
    var base := i + start + 1;
    var j := OffsetExists(base, |agents|, member);
    assert i + (start + j) + 1 == base + j;
    forall k | start <= k < start + |agents| && said[k].from == Some(agents[member].name) ensures k == start + j {
      assert i + k + 1 == base + (k - start);
      OffsetUnique(base, |agents|, j, k - start);
    }
    assert said[start + j].from == Some(agents[member].name);
  }
}
