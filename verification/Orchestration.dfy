/** Messages and agents of a group chat, the transition graph and the three orchestrators. */
module Orchestration {
  import opened Wrappers

  /** What the engine reads of a message: its sender and its text content. */
  datatype Message = Message(from: Option<string>, content: Option<string>)

  type History = seq<Message>

  /** An agent object: `id` is its identity, which `==` compares; names may be shared. */
  datatype Agent = Agent(id: nat, name: string)

  const TERMINATE := "[GROUPCHAT_TERMINATE]"
  const CLEAR_MESSAGES := "[GROUPCHAT_CLEAR_MESSAGES]"

  predicate IsTerminate(m: Message) { m.content.Some? && Contains(m.content.value, TERMINATE) }

  predicate IsClear(m: Message) { m.content.Some? && Contains(m.content.value, CLEAR_MESSAGES) }

  /** The message has a text that holds `marker`. */
  ghost predicate Marked(m: Message, marker: string) { m.content.Some? && Within(marker, m.content.value) }

  /** The two markers, letter by letter. */
  lemma MarkersAre(m: Message)
    ensures IsTerminate(m) <==> Marked(m, "[GROUPCHAT_TERMINATE]")
    ensures IsClear(m) <==> Marked(m, "[GROUPCHAT_CLEAR_MESSAGES]")
  {
    if m.content.Some? {
      ContainsExactlyWhenWithin(m.content.value, "[GROUPCHAT_TERMINATE]");
      ContainsExactlyWhenWithin(m.content.value, "[GROUPCHAT_CLEAR_MESSAGES]");
    }
  }

  // ----- Graph -----

  type Guard = (Agent, Agent, History) -> bool

  datatype Transition = Transition(from: Agent, to: Agent, guard: Option<Guard>)

  predicate CanTransition(t: Transition, h: History) {
    t.guard.Some? ==> t.guard.value(t.from, t.to, h)
  }

  /** The targets of the transitions leaving `from` whose guard holds on `h`, in order. */
  function Targets(ts: seq<Transition>, from: Agent, h: History): seq<Agent> {
    if ts == [] then []
    else
      var last := ts[|ts| - 1];
      Targets(ts[..|ts| - 1], from, h) + if last.from == from && CanTransition(last, h) then [last.to] else []
  }

  /** The transition has no guard, or its guard holds for its own two ends on `h`. */
  predicate Open(t: Transition, h: History) {
    match t.guard
    case None => true
    case Some(g) => g(t.from, t.to, h)
  }

  /** An agent is a target exactly when an enabled transition leads to it. */
  lemma {:induction false} TargetsSound(ts: seq<Transition>, from: Agent, h: History, a: Agent)
    ensures a in Targets(ts, from, h) <==> exists t :: t in ts && t.from == from && t.to == a && Open(t, h)
    decreases |ts|
  {
    if ts == [] {
    } else {
      var front, last := ts[..|ts| - 1], ts[|ts| - 1];
      TargetsSound(front, from, h, a);
      assert forall t :: t in ts <==> t in front || t == last;
    }
  }

  class Graph {
    var transitions: seq<Transition>

    constructor (transitions: seq<Transition>)
      ensures this.transitions == transitions
    {
      this.transitions := transitions;
    }

    method AddTransition(t: Transition)
      modifies this
      ensures transitions == old(transitions) + [t]
    {
      transitions := transitions + [t];
    }

    method TransitToNextAvailableAgents(from: Agent, h: History) returns (next: seq<Agent>)
      ensures next == Targets(transitions, from, h)
    {
      next := [];
      for i := 0 to |transitions|
        invariant next == Targets(transitions[..i], from, h)
      {
        assert transitions[..i + 1][..i] == transitions[..i];
        if transitions[i].from == from {
          if CanTransition(transitions[i], h) {
            next := next + [transitions[i].to];
          }
        }
      }
      assert transitions[..|transitions|] == transitions;
    }
  }

  // ----- Orchestrators -----

  /** The index of the first agent called `name`, or -1. */
  function FindName(agents: seq<Agent>, name: Option<string>): (i: int)
    ensures -1 <= i < |agents|
    ensures i >= 0 ==> Some(agents[i].name) == name
    ensures forall j :: 0 <= j < (if i >= 0 then i else |agents|) ==> Some(agents[j].name) != name
  {
    if agents == [] then -1
    else if Some(agents[0].name) == name then 0
    else
      var i := FindName(agents[1..], name);
      assert forall j :: 1 <= j < |agents| ==> agents[j] == agents[1..][j - 1];
      if i == -1 then -1 else i + 1
  }

  predicate Named(agents: seq<Agent>, name: string) { exists i :: 0 <= i < |agents| && agents[i].name == name }

  /** The next agents whose name is the name of a candidate. */
  function Eligible(candidates: seq<Agent>, next: seq<Agent>): seq<Agent> {
    if next == [] then []
    else
      var last := next[|next| - 1];
      Eligible(candidates, next[..|next| - 1]) + if Named(candidates, last.name) then [last] else []
  }

  lemma {:induction false} EligibleSound(candidates: seq<Agent>, next: seq<Agent>, a: Agent)
    ensures a in Eligible(candidates, next) <==> a in next && Named(candidates, a.name)
    decreases |next|
  {
    if next == [] {
    } else {
      EligibleSound(candidates, next[..|next| - 1], a);
      assert a in next <==> a in next[..|next| - 1] || a == next[|next| - 1];
    }
  }

  /**
   The admin of a role play: its reply to the prompt built from the candidates and the
   history, and the lower-casing used to compare names.
   */
  datatype Admin = Admin(reply: (seq<Agent>, History) -> Option<string>, lower: string -> string)

  type Choice = Result<Option<Agent>>

  const TOO_MANY := "more than one available agent"

  function RoundRobin(candidates: seq<Agent>, h: History): Choice {
    if h == [] then Ok(if candidates == [] then None else Some(candidates[0]))
    else
      var i := FindName(candidates, h[|h| - 1].from);
      if i == -1 then Ok(None) else Ok(Some(candidates[(i + 1) % |candidates|]))
  }

  /** The agents the workflow allows after `h`, given the position of the current speaker. */
  function Allowed(ts: seq<Transition>, candidates: seq<Agent>, speaker: nat, h: History): seq<Agent>
    requires speaker < |candidates|
  {
    Eligible(candidates, Targets(ts, candidates[speaker], h))
  }

  function Workflow(ts: seq<Transition>, candidates: seq<Agent>, h: History): Choice {
    if h == [] then Ok(None)
    else
      var i := FindName(candidates, h[|h| - 1].from);
      if i == -1 then Ok(None)
      else
        var next := Allowed(ts, candidates, i, h);
        if next == [] then Ok(None)
        else if |next| == 1 then Ok(Some(next[0]))
        else Err(TOO_MANY)
  }

  /** The admin names one of the candidates after a five-character prefix. */
  function AskAdmin(admin: Admin, candidates: seq<Agent>, h: History): Choice {
    match admin.reply(candidates, h)
    case None => Err("no name")
    case Some(name) =>
      if |name| < 5 then Err("substring")
      else
        var i := FindLowered(admin, candidates, admin.lower(name[5..]));
        if i == -1 then Err("not a candidate") else Ok(Some(candidates[i]))
  }

  function FindLowered(admin: Admin, candidates: seq<Agent>, lowered: string): (i: int)
    ensures -1 <= i < |candidates|
    ensures i >= 0 ==> admin.lower(candidates[i].name) == lowered
    ensures forall j :: 0 <= j < (if i >= 0 then i else |candidates|) ==> admin.lower(candidates[j].name) != lowered
  {
    if candidates == [] then -1
    else if admin.lower(candidates[0].name) == lowered then 0
    else
      var i := FindLowered(admin, candidates[1..], lowered);
      assert forall j :: 1 <= j < |candidates| ==> candidates[j] == candidates[1..][j - 1];
      if i == -1 then -1 else i + 1
  }

  function RolePlay(admin: Admin, workflow: Option<seq<Transition>>, candidates: seq<Agent>, h: History): Choice {
    if candidates == [] then Ok(None)
    else if |candidates| == 1 then Ok(Some(candidates[0]))
    else
      match workflow
      case None => AskAdmin(admin, candidates, h)
      case Some(ts) =>
        if h == [] then Ok(None)
        else
          var i := FindName(candidates, h[|h| - 1].from);
          if i == -1 then Err("no matching element")
          else
            var next := Allowed(ts, candidates, i, h);
            if next == [] then Ok(None)
            else if |next| == 1 then Ok(Some(next[0]))
            else AskAdmin(admin, next, h)
  }

  datatype Orchestrator =
    | RolePlayOrchestrator(admin: Admin, workflow: Option<seq<Transition>>)
    | WorkflowOrchestrator(transitions: seq<Transition>)
    | RoundRobinOrchestrator
    | CustomOrchestrator(choose: (seq<Agent>, History) -> Choice)

  function NextSpeaker(o: Orchestrator, candidates: seq<Agent>, h: History): Choice {
    match o
    case RolePlayOrchestrator(admin, workflow) => RolePlay(admin, workflow, candidates, h)
    case WorkflowOrchestrator(ts) => Workflow(ts, candidates, h)
    case RoundRobinOrchestrator => RoundRobin(candidates, h)
    case CustomOrchestrator(choose) => choose(candidates, h)
  }

  /** The same orchestrator with other transitions, if it has a workflow at all. */
  function WithTransitions(o: Orchestrator, ts: seq<Transition>): Orchestrator {
    match o
    case RolePlayOrchestrator(admin, Some(_)) => RolePlayOrchestrator(admin, Some(ts))
    case WorkflowOrchestrator(_) => WorkflowOrchestrator(ts)
    case _ => o
  }

  lemma ForeignTransitionNotAllowed(
      ts: seq<Transition>, t: Transition, candidates: seq<Agent>, speaker: nat, h: History)
    requires speaker < |candidates| && !(Named(candidates, t.from.name) && Named(candidates, t.to.name))
    ensures Allowed(ts + [t], candidates, speaker, h) == Allowed(ts, candidates, speaker, h)
  {
    assert (ts + [t])[..|ts|] == ts;
    var next := Targets(ts, candidates[speaker], h);
    if t.from == candidates[speaker] && CanTransition(t, h) {
      assert (next + [t.to])[..|next|] == next;
    } else {
      assert Targets(ts + [t], candidates[speaker], h) == next;
    }
  }

  /** A transition that names somebody outside the chat never changes who is chosen. */
  lemma ForeignTransitionInert(
      o: Orchestrator, ts: seq<Transition>, t: Transition, candidates: seq<Agent>, h: History)
    requires o == WithTransitions(o, ts) && !(Named(candidates, t.from.name) && Named(candidates, t.to.name))
    ensures NextSpeaker(WithTransitions(o, ts + [t]), candidates, h) == NextSpeaker(o, candidates, h)
  {
    if h != [] {
      var i := FindName(candidates, h[|h| - 1].from);
      if i >= 0 {
        ForeignTransitionNotAllowed(ts, t, candidates, i, h);
      }
    }
  }

  // ----- What a choice means -----

  /** The transition leaves a candidate called `sender`. */
  ghost predicate LedBy(t: Transition, candidates: seq<Agent>, sender: Option<string>) {
    t.from in candidates && Some(t.from.name) == sender
  }

  /** `a` is reached from the sender of the last message by a transition enabled on `h`. */
  ghost predicate Follows(ts: seq<Transition>, candidates: seq<Agent>, h: History, a: Agent) {
    h != [] && exists t :: t in ts && LedBy(t, candidates, h[|h| - 1].from) && t.to == a && Open(t, h)
  }

  /** With a workflow and at least two candidates, both orchestrators only choose along enabled transitions. */
  lemma ChoiceFollowsWorkflow(o: Orchestrator, ts: seq<Transition>, candidates: seq<Agent>, h: History)
    requires |candidates| >= 2
    requires o == WorkflowOrchestrator(ts) || (o.RolePlayOrchestrator? && o.workflow == Some(ts))
    requires NextSpeaker(o, candidates, h).Ok? && NextSpeaker(o, candidates, h).value.Some?
    ensures var a := NextSpeaker(o, candidates, h).value.value;
      Follows(ts, candidates, h, a) && Named(candidates, a.name)
  {
    var a := NextSpeaker(o, candidates, h).value.value;
    var i := FindName(candidates, h[|h| - 1].from);
    assert candidates[i] in candidates;
    EligibleSound(candidates, Targets(ts, candidates[i], h), a);
    TargetsSound(ts, candidates[i], h, a);
  }

  /** Whether the last sender is a candidate for whom at most one agent is allowed next. */
  predicate AtMostOneAllowed(ts: seq<Transition>, candidates: seq<Agent>, h: History)
    requires h != []
  {
    var i := FindName(candidates, h[|h| - 1].from);
    i >= 0 && |Allowed(ts, candidates, i, h)| <= 1
  }

  /**
   The two workflow orchestrators side by side: they agree exactly on an empty history or when
   at most one agent is allowed. Otherwise an unknown sender makes only role play fail, and
   several allowed agents make the plain workflow fail.
   */
  lemma WorkflowVersusRolePlay(admin: Admin, ts: seq<Transition>, candidates: seq<Agent>, h: History)
    requires |candidates| >= 2
    ensures var w, r := Workflow(ts, candidates, h), RolePlay(admin, Some(ts), candidates, h);
      && (w == r <==> (h == [] || AtMostOneAllowed(ts, candidates, h)))
      && (w != r ==> w.Err? || (w.value.None? && r.Err?))
  {
    if h != [] {
      var i := FindName(candidates, h[|h| - 1].from);
      if i >= 0 {
        AdminError(admin, Allowed(ts, candidates, i, h), h);
      }
    }
  }

  lemma AdminError(admin: Admin, candidates: seq<Agent>, h: History)
    ensures AskAdmin(admin, candidates, h) != Err(TOO_MANY)
  {
  }

  /**
   The admin decides: the first candidate whose name matches, ignoring case, what follows the
   five-character prefix of the reply; without such a candidate the choice fails.
   */
  lemma AdminDecides(admin: Admin, candidates: seq<Agent>, h: History)
    ensures var c, reply := AskAdmin(admin, candidates, h), admin.reply(candidates, h);
      && (c.Ok? ==> reply.Some? && |reply.value| >= 5 && FirstMatch(admin, candidates, reply.value, c.value))
      && (c.Err? ==> reply.None? || |reply.value| < 5 || forall a :: !Matches(admin, candidates, reply.value, a))
  {
    var reply := admin.reply(candidates, h);
    if reply.Some? && |reply.value| >= 5 {
      var i := FindLowered(admin, candidates, admin.lower(reply.value[5..]));
      if i >= 0 {
        assert Matches(admin, candidates, reply.value, candidates[i]);
      }
    }
  }

  /** `a` matches and nobody before it does. */
  ghost predicate FirstMatch(admin: Admin, candidates: seq<Agent>, reply: string, a: Option<Agent>)
    requires |reply| >= 5
  {
    exists i :: 0 <= i < |candidates| && a == Some(candidates[i]) && Matches(admin, candidates, reply, candidates[i]) &&
      forall j :: 0 <= j < i ==> !Matches(admin, candidates, reply, candidates[j])
  }

  ghost predicate Matches(admin: Admin, candidates: seq<Agent>, reply: string, a: Agent)
    requires |reply| >= 5
  {
    a in candidates && admin.lower(a.name) == admin.lower(reply[5..])
  }

  /** Round robin returns no agent exactly when the last sender is unknown, or nobody is there at all. */
  lemma RoundRobinNull(candidates: seq<Agent>, h: History)
    ensures RoundRobin(candidates, h) == Ok(None) <==>
      if h == [] then candidates == []
      else forall j :: 0 <= j < |candidates| ==> Some(candidates[j].name) != h[|h| - 1].from
  {
  }

  // ----- Who is chosen -----

  /** Member `i` is the first one named like the sender of the last message. */
  ghost predicate IsSpeaker(candidates: seq<Agent>, h: History, i: nat) {
    && h != [] && i < |candidates| && h[|h| - 1].from == Some(candidates[i].name)
    && forall j :: 0 <= j < i ==> h[|h| - 1].from != Some(candidates[j].name)
  }

  /** Transitions out of `from` that are open on `h` and lead to a name among the candidates. */
  function Leads(candidates: seq<Agent>, from: Agent, h: History): Transition -> bool {
    (t: Transition) => t.from == from && Open(t, h) && Named(candidates, t.to.name)
  }

  function Ends(ts: seq<Transition>): seq<Agent> {
    seq(|ts|, i requires 0 <= i < |ts| => ts[i].to)
  }

  /** The agents the workflow allows after speaker `i`: the ends of those transitions, in order. */
  function Next(ts: seq<Transition>, candidates: seq<Agent>, i: nat, h: History): seq<Agent>
    requires i < |candidates|
  {
    Ends(Where(ts, Leads(candidates, candidates[i], h)))
  }

  lemma {:induction false} AllowedAreNext(ts: seq<Transition>, candidates: seq<Agent>, i: nat, h: History)
    requires i < |candidates|
    ensures Allowed(ts, candidates, i, h) == Next(ts, candidates, i, h)
    decreases |ts|
  {
    var p := Leads(candidates, candidates[i], h);
    if ts == [] {
      WhereNone(p);
    } else {
      var front, t := ts[..|ts| - 1], ts[|ts| - 1];
      assert front + [t] == ts;
      AllowedAreNext(front, candidates, i, h);
      WhereSnoc(front, t, p);
      var next := Targets(front, candidates[i], h);
      if t.from == candidates[i] && Open(t, h) {
        assert (next + [t.to])[..|next|] == next;
      } else {
        assert Targets(ts, candidates[i], h) == next;
      }
      assert Ends(Where(front, p) + [t]) == Ends(Where(front, p)) + [t.to];
    }
  }

  /** The admin's reply decides among `agents`: the first that matches, and a failure if there is none. */
  ghost predicate AdminPicks(admin: Admin, agents: seq<Agent>, h: History, c: Choice) {
    match admin.reply(agents, h)
    case None => c.Err?
    case Some(reply) =>
      if |reply| < 5 then c.Err?
      else if exists a :: Matches(admin, agents, reply, a) then c.Ok? && FirstMatch(admin, agents, reply, c.value)
      else c.Err?
  }

  lemma AskedAdminPicks(admin: Admin, agents: seq<Agent>, h: History)
    ensures AdminPicks(admin, agents, h, AskAdmin(admin, agents, h))
  {
    AdminDecides(admin, agents, h);
  }

  lemma SpeakerFound(candidates: seq<Agent>, h: History)
    requires h != []
    ensures var i := FindName(candidates, h[|h| - 1].from);
      if i >= 0 then IsSpeaker(candidates, h, i) else forall j: nat :: !IsSpeaker(candidates, h, j)
  {
  }

  lemma SpeakerUnique(candidates: seq<Agent>, h: History, i: nat, j: nat)
    requires IsSpeaker(candidates, h, i) && IsSpeaker(candidates, h, j)
    ensures i == j
  {
  }

  /** Round robin: the first member opens, then the one after the last sender, cyclically; nobody after a stranger. */
  lemma RoundRobinChooses(candidates: seq<Agent>, h: History)
    ensures var c := NextSpeaker(RoundRobinOrchestrator, candidates, h);
      && (h == [] ==> c == Ok(if candidates == [] then None else Some(candidates[0])))
      && (forall i: nat :: IsSpeaker(candidates, h, i) ==> c == Ok(Some(candidates[(i + 1) % |candidates|])))
      && (h != [] && (forall i: nat :: !IsSpeaker(candidates, h, i)) ==> c == Ok(None))
  {
    if h != [] {
      SpeakerFound(candidates, h);
      forall i: nat | IsSpeaker(candidates, h, i) ensures FindName(candidates, h[|h| - 1].from) == i {
        SpeakerUnique(candidates, h, i, FindName(candidates, h[|h| - 1].from));
      }
    }
  }

  /** The plain workflow: the only agent allowed, nobody if none is, and a failure if there are several. */
  lemma WorkflowChooses(ts: seq<Transition>, candidates: seq<Agent>, h: History)
    ensures var c := NextSpeaker(WorkflowOrchestrator(ts), candidates, h);
      && (forall i: nat :: IsSpeaker(candidates, h, i) ==>
            var next := Next(ts, candidates, i, h);
            if next == [] then c == Ok(None) else if |next| == 1 then c == Ok(Some(next[0])) else c.Err?)
      && ((forall i: nat :: !IsSpeaker(candidates, h, i)) ==> c == Ok(None))
  {
    if h != [] {
      SpeakerFound(candidates, h);
      forall i: nat | IsSpeaker(candidates, h, i)
        ensures FindName(candidates, h[|h| - 1].from) == i
        ensures Allowed(ts, candidates, i, h) == Next(ts, candidates, i, h)
      {
        SpeakerUnique(candidates, h, i, FindName(candidates, h[|h| - 1].from));
        AllowedAreNext(ts, candidates, i, h);
      }
    }
  }

  /** What the role play chooses when there is something to choose from. */
  ghost predicate RolePlays(
      admin: Admin, workflow: Option<seq<Transition>>, candidates: seq<Agent>, h: History, c: Choice)
  {
    match workflow
    case None => AdminPicks(admin, candidates, h, c)
    case Some(ts) =>
      && (h == [] ==> c == Ok(None))
      && (forall i: nat :: IsSpeaker(candidates, h, i) ==>
            var next := Next(ts, candidates, i, h);
            if next == [] then c == Ok(None)
            else if |next| == 1 then c == Ok(Some(next[0]))
            else AdminPicks(admin, next, h, c))
      && (h != [] && (forall i: nat :: !IsSpeaker(candidates, h, i)) ==> c.Err?)
  }

  lemma WorkflowRolePlays(admin: Admin, ts: seq<Transition>, candidates: seq<Agent>, h: History)
    requires |candidates| >= 2
    ensures RolePlays(admin, Some(ts), candidates, h, RolePlay(admin, Some(ts), candidates, h))
  {
    if h != [] {
      SpeakerFound(candidates, h);
      var k := FindName(candidates, h[|h| - 1].from);
      if k >= 0 {
        AllowedAreNext(ts, candidates, k, h);
        AskedAdminPicks(admin, Next(ts, candidates, k, h), h);
      }
      forall i: nat | IsSpeaker(candidates, h, i) ensures i == k {
        SpeakerUnique(candidates, h, i, k);
      }
    }
  }

  /**
   Role play: nobody without candidates, an only candidate at once; otherwise the admin decides
   among all candidates or, with a workflow, among the several agents it allows.
   */
  lemma RolePlayChooses(admin: Admin, workflow: Option<seq<Transition>>, candidates: seq<Agent>, h: History)
    ensures var c := NextSpeaker(RolePlayOrchestrator(admin, workflow), candidates, h);
      && (candidates == [] ==> c == Ok(None))
      && (|candidates| == 1 ==> c == Ok(Some(candidates[0])))
      && (|candidates| >= 2 ==> RolePlays(admin, workflow, candidates, h, c))
  {
    if |candidates| >= 2 {
      match workflow
      case None => AskedAdminPicks(admin, candidates, h);
      case Some(ts) => WorkflowRolePlays(admin, ts, candidates, h);
    }
  }
}
