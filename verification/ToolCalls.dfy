/** `ToolCallMessage` and the folding of streamed updates into it. */
module ToolCalls {
  import opened Wrappers

  datatype ToolCall = ToolCall(name: string, args: string, id: Option<string>, result: Option<string>)

  /** A fragment of a tool call's arguments. */
  datatype Update = Update(name: string, args: string, from: Option<string>)

  /** The first call with this name, or -1. */
  function FindCall(calls: seq<ToolCall>, name: string): (i: int)
    ensures -1 <= i < |calls|
    ensures i >= 0 ==> calls[i].name == name
    ensures forall j :: 0 <= j < (if i >= 0 then i else |calls|) ==> calls[j].name != name
  {
    if calls == [] then -1
    else if calls[0].name == name then 0
    else
      var i := FindCall(calls[1..], name);
      assert forall j :: 1 <= j < |calls| ==> calls[j] == calls[1..][j - 1];
      if i == -1 then -1 else i + 1
  }

  function Absorb(calls: seq<ToolCall>, u: Update): seq<ToolCall> {
    var i := FindCall(calls, u.name);
    if i >= 0 then calls[i := calls[i].(args := calls[i].args + u.args)]
    else calls + [ToolCall(u.name, u.args, None, None)]
  }

  /** Call `i` is the first one with this name. */
  ghost predicate FirstNamed(calls: seq<ToolCall>, name: string, i: nat) {
    i < |calls| && calls[i].name == name && forall j :: 0 <= j < i ==> calls[j].name != name
  }

  /** An update lengthens the arguments of the first call of its name, or is a new call; nothing else changes. */
  lemma AbsorbIs(calls: seq<ToolCall>, u: Update)
    ensures forall i: nat :: FirstNamed(calls, u.name, i) ==>
      Absorb(calls, u) == calls[i := calls[i].(args := calls[i].args + u.args)]
    ensures (forall i: nat :: !FirstNamed(calls, u.name, i)) ==>
      Absorb(calls, u) == calls + [ToolCall(u.name, u.args, None, None)]
  {
    var k := FindCall(calls, u.name);
    if k >= 0 {
      assert FirstNamed(calls, u.name, k);
      forall i: nat | FirstNamed(calls, u.name, i) ensures i == k {
      }
    }
  }

  class ToolCallMessage {
    const from: Option<string>
    var calls: seq<ToolCall>

    constructor (calls: seq<ToolCall>, from: Option<string>)
      ensures this.calls == calls && this.from == from
    {
      this.calls, this.from := calls, from;
    }

    constructor FromUpdate(u: Update)
      ensures calls == Absorb([], u) && from == u.from
    {
      calls, from := [ToolCall(u.name, u.args, None, None)], u.from;
    }

    /** Fails, changing nothing, when the update is from somebody else. */
    method Apply(u: Update) returns (ok: bool)
      modifies this
      ensures ok <==> u.from == from
      ensures calls == if ok then Absorb(old(calls), u) else old(calls)
    {
      if u.from != from {
        return false;
      }
      var i := FindCall(calls, u.name);
      if i >= 0 {
        calls := calls[i := calls[i].(args := calls[i].args + u.args)];
      } else {
        calls := calls + [ToolCall(u.name, u.args, None, None)];
      }
      ok := true;
    }
  }

  // ----- The fold -----

  function Folded(us: seq<Update>): seq<ToolCall> {
    if us == [] then [] else Absorb(Folded(us[..|us| - 1]), us[|us| - 1])
  }

  method FoldStream(us: seq<Update>) returns (m: ToolCallMessage)
    requires us != [] && forall i :: 0 <= i < |us| ==> us[i].from == us[0].from
    ensures fresh(m) && m.calls == Folded(us) && m.from == us[0].from
  {
    m := new ToolCallMessage.FromUpdate(us[0]);
    assert us[..1][..0] == [];
    for i := 1 to |us|
      invariant fresh(m) && m.calls == Folded(us[..i]) && m.from == us[0].from
    {
      assert us[..i + 1][..i] == us[..i];
      var ok := m.Apply(us[i]);
    }
    assert us[..|us|] == us;
  }

  /** The fragments for `name`, in arrival order. */
  function Fragments(us: seq<Update>, name: string): seq<string> {
    if us == [] then []
    else Fragments(us[..|us| - 1], name) + if us[|us| - 1].name == name then [us[|us| - 1].args] else []
  }

  /** The names used, each once. */
  function Names(us: seq<Update>): seq<string> {
    if us == [] then []
    else
      var names, last := Names(us[..|us| - 1]), us[|us| - 1].name;
      if last in names then names else names + [last]
  }

  /** The call for `name` with all its fragments joined. */
  function Joined(us: seq<Update>, name: string): ToolCall {
    ToolCall(name, Concat(Fragments(us, name)), None, None)
  }

  /** `calls` has one call for each of `names`, in order, with that name's fragments joined. */
  ghost predicate CallsFor(us: seq<Update>, names: seq<string>, calls: seq<ToolCall>) {
    |calls| == |names| && forall i :: 0 <= i < |names| ==> calls[i] == Joined(us, names[i])
  }

  /** The position of the first update for `name`, or the length of the stream. */
  function FirstUse(us: seq<Update>, name: string): (i: nat)
    ensures i <= |us| && (i < |us| ==> us[i].name == name)
    ensures forall j :: 0 <= j < i ==> us[j].name != name
  {
    if us == [] then 0
    else
      var i := FirstUse(us[..|us| - 1], name);
      if i < |us| - 1 || us[|us| - 1].name == name then i else |us|
  }

  lemma {:induction false} NamesDistinct(us: seq<Update>)
    ensures DistinctNames(Names(us))
  {
    if us == [] {
    } else {
      NamesDistinct(us[..|us| - 1]);
    }
  }

  /** A name is listed exactly when some update uses it. */
  lemma {:induction false} NamesUsed(us: seq<Update>, name: string)
    ensures name in Names(us) <==> FirstUse(us, name) < |us|
    ensures name in Names(us) <==> Fragments(us, name) != []
  {
    if us == [] {
    } else {
      NamesUsed(us[..|us| - 1], name);
    }
  }

  /** The names come in the order of their first use. */
  lemma {:induction false} NamesInOrder(us: seq<Update>, i: nat, j: nat)
    requires i < j < |Names(us)|
    ensures FirstUse(us, Names(us)[i]) < FirstUse(us, Names(us)[j])
  {
    var front := us[..|us| - 1];
    var names := Names(front);
    NamesUsed(front, names[i]);
    if j < |names| {
      NamesInOrder(front, i, j);
      NamesUsed(front, names[j]);
    } else {
      NamesUsed(front, Names(us)[j]);
    }
  }

  lemma JoinedSnoc(us: seq<Update>, u: Update, name: string)
    ensures Joined(us + [u], name) ==
      if u.name == name then Joined(us, name).(args := Joined(us, name).args + u.args) else Joined(us, name)
  {
    assert (us + [u])[..|us|] == us;
    if u.name == name {
      assert Fragments(us + [u], name) == Fragments(us, name) + [u.args];
      ConcatSnoc(Fragments(us, name), u.args);
    } else {
      assert Fragments(us + [u], name) == Fragments(us, name);
    }
  }

  ghost predicate DistinctNames(names: seq<string>) {
    forall i, j :: 0 <= i < j < |names| ==> names[i] != names[j]
  }

  /** A further fragment for a known name. */
  lemma AbsorbGrows(us: seq<Update>, u: Update, names: seq<string>, calls: seq<ToolCall>)
    requires CallsFor(us, names, calls) && DistinctNames(names) && u.name in names
    ensures CallsFor(us + [u], names, Absorb(calls, u))
  {
    assert forall i :: 0 <= i < |names| ==> calls[i].name == names[i];
    var p := FindCall(calls, u.name);
    assert names[p] == u.name;
    forall i | 0 <= i < |names| ensures Absorb(calls, u)[i] == Joined(us + [u], names[i]) {
      JoinedSnoc(us, u, names[i]);
      assert names[i] == u.name <==> i == p;
    }
  }

  lemma JoinedFirst(us: seq<Update>, u: Update)
    requires Fragments(us, u.name) == []
    ensures Joined(us + [u], u.name) == ToolCall(u.name, u.args, None, None)
  {
    JoinedSnoc(us, u, u.name);
    assert "" + u.args == u.args;
  }

  /** Calls of other names are left alone. */
  lemma OthersKept(us: seq<Update>, u: Update, names: seq<string>, calls: seq<ToolCall>)
    requires CallsFor(us, names, calls) && u.name !in names
    ensures CallsFor(us + [u], names, calls) && FindCall(calls, u.name) == -1
  {
    forall i | 0 <= i < |names| ensures calls[i] == Joined(us + [u], names[i]) && calls[i].name != u.name {
      assert names[i] in names;
      JoinedSnoc(us, u, names[i]);
    }
  }

  lemma CallsForSnoc(us: seq<Update>, names: seq<string>, calls: seq<ToolCall>, name: string)
    requires CallsFor(us, names, calls)
    ensures CallsFor(us, names + [name], calls + [Joined(us, name)])
  {
  }

  /** The first fragment for a name. */
  lemma AbsorbAdds(us: seq<Update>, u: Update, names: seq<string>, calls: seq<ToolCall>)
    requires CallsFor(us, names, calls) && u.name !in names && Fragments(us, u.name) == []
    ensures CallsFor(us + [u], names + [u.name], Absorb(calls, u))
  {
    OthersKept(us, u, names, calls);
    JoinedFirst(us, u);
    CallsForSnoc(us + [u], names, calls, u.name);
  }

  lemma FoldGathersNext(us: seq<Update>, u: Update)
    requires CallsFor(us, Names(us), Folded(us))
    ensures CallsFor(us + [u], Names(us + [u]), Folded(us + [u]))
  {
    NamesDistinct(us);
    NamesUsed(us, u.name);
    if u.name in Names(us) {
      AbsorbGrows(us, u, Names(us), Folded(us));
    } else {
      AbsorbAdds(us, u, Names(us), Folded(us));
    }
    assert (us + [u])[..|us|] == us;
  }

  /** Folding gives the distinct names in first-use order, each with its own fragments joined in arrival order. */
  lemma {:induction false} FoldGathers(us: seq<Update>)
    ensures CallsFor(us, Names(us), Folded(us))
  {
    if us == [] {
    } else {
      var front, u := us[..|us| - 1], us[|us| - 1];
      FoldGathers(front);
      FoldGathersNext(front, u);
      assert front + [u] == us;
    }
  }

  // ----- Conservation and interleaving -----

  function ArgsLength(calls: seq<ToolCall>): nat {
    if calls == [] then 0 else ArgsLength(calls[..|calls| - 1]) + |calls[|calls| - 1].args|
  }

  function UpdatesLength(us: seq<Update>): nat {
    if us == [] then 0 else UpdatesLength(us[..|us| - 1]) + |us[|us| - 1].args|
  }

  lemma {:induction false} ReplaceLength(calls: seq<ToolCall>, i: nat, c: ToolCall)
    requires i < |calls|
    ensures ArgsLength(calls[i := c]) == ArgsLength(calls) - |calls[i].args| + |c.args|
    decreases |calls|
  {
    var n := |calls| - 1;
    if i == n {
      assert calls[i := c][..n] == calls[..n];
    } else {
      assert calls[i := c][..n] == calls[..n][i := c];
      ReplaceLength(calls[..n], i, c);
    }
  }

  lemma AbsorbConserves(calls: seq<ToolCall>, u: Update)
    ensures ArgsLength(Absorb(calls, u)) == ArgsLength(calls) + |u.args|
  {
    var i := FindCall(calls, u.name);
    if i >= 0 {
      ReplaceLength(calls, i, calls[i].(args := calls[i].args + u.args));
    } else {
      assert Absorb(calls, u)[..|calls|] == calls;
    }
  }

  /** No character of any update is lost or duplicated. */
  lemma {:induction false} FoldConserves(us: seq<Update>)
    ensures ArgsLength(Folded(us)) == UpdatesLength(us)
  {
    if us == [] {
    } else {
      FoldConserves(us[..|us| - 1]);
      AbsorbConserves(Folded(us[..|us| - 1]), us[|us| - 1]);
    }
  }

  /** The arguments by name. */
  ghost function ArgsByName(calls: seq<ToolCall>): map<string, string> {
    map name | name in (set i | 0 <= i < |calls| :: calls[i].name) :: calls[FindCall(calls, name)].args
  }

  lemma ByName(us: seq<Update>)
    ensures forall name :: name in ArgsByName(Folded(us)) <==> name in Names(us)
    ensures forall name :: name in Names(us) ==> ArgsByName(Folded(us))[name] == Joined(us, name).args
  {
    FoldGathers(us);
    var calls, names := Folded(us), Names(us);
    assert forall i :: 0 <= i < |calls| ==> calls[i].name == names[i];
    forall name | name in names ensures name in ArgsByName(calls) {
      var i :| 0 <= i < |names| && names[i] == name;
      assert calls[i].name == name;
    }
  }

  /** Interleaving the fragments of different names differently does not change the arguments by name. */
  lemma InterleavingIrrelevant(us: seq<Update>, vs: seq<Update>)
    requires forall name :: Fragments(us, name) == Fragments(vs, name)
    ensures ArgsByName(Folded(us)) == ArgsByName(Folded(vs))
  {
    var m, n := ArgsByName(Folded(us)), ArgsByName(Folded(vs));
    ByName(us);
    ByName(vs);
    forall name ensures name in m <==> name in n {
      NamesUsed(us, name);
      NamesUsed(vs, name);
      assert Fragments(us, name) == Fragments(vs, name);
    }
    forall name | name in m ensures m[name] == n[name] {
      assert Fragments(us, name) == Fragments(vs, name);
    }
  }
}
