/** Merging neighbouring messages of one role before a request is sent (Anthropic and Gemini agents). */
module RoleMerge {
  import opened Wrappers

  /** A message with its parts, as a value. */
  datatype Turn = Turn(role: string, parts: seq<string>)

  /** The message object whose part list is extended in place. */
  class ChatMessage {
    const role: string
    var parts: seq<string>

    constructor (role: string, parts: seq<string>)
      ensures this.role == role && this.parts == parts
    {
      this.role, this.parts := role, parts;
    }
  }

  function Merge(ts: seq<Turn>): seq<Turn> {
    if ts == [] then []
    else Extend(Merge(ts[..|ts| - 1]), ts[|ts| - 1])
  }

  /** Adds a turn: to the last one if the role is the same, else after it. */
  function Extend(acc: seq<Turn>, t: Turn): seq<Turn> {
    var n := |acc| - 1;
    if acc != [] && acc[n].role == t.role then acc[n := Turn(t.role, acc[n].parts + t.parts)] else acc + [t]
  }

  // ----- Merging message objects -----

  /** The parts each message object holds. */
  type Store = map<ChatMessage, seq<string>>

  ghost function StoreOf(ms: seq<ChatMessage>): (store: Store)
    reads ms
    ensures store.Keys == set m | m in ms
  {
    map m | m in ms :: m.parts
  }

  /** The list an aggregation has collected, and what all objects hold by then. */
  datatype Merged = Merged(list: seq<ChatMessage>, store: Store)

  ghost predicate Holds(store: Store, ms: seq<ChatMessage>) { forall i :: 0 <= i < |ms| ==> ms[i] in store }

  /** One pass of the aggregation: extends the last object of the list, or adds the message itself. */
  ghost function AddObject(acc: Merged, m: ChatMessage): (out: Merged)
    requires Holds(acc.store, acc.list) && m in acc.store
    ensures Holds(out.store, out.list) && out.store.Keys == acc.store.Keys
  {
    var n := |acc.list| - 1;
    if acc.list != [] && acc.list[n].role == m.role then
      acc.(store := acc.store[acc.list[n] := acc.store[acc.list[n]] + acc.store[m]])
    else acc.(list := acc.list + [m])
  }

  /** The aggregation, for any objects: one that occurs twice is read after it was extended. */
  ghost function MergeObjects(ms: seq<ChatMessage>, store: Store): (out: Merged)
    requires Holds(store, ms)
    ensures Holds(out.store, out.list) && out.store.Keys == store.Keys
  {
    if ms == [] then Merged([], store)
    else AddObject(MergeObjects(ms[..|ms| - 1], store), ms[|ms| - 1])
  }

  ghost predicate Distinct(ms: seq<ChatMessage>) {
    forall i, j :: 0 <= i < j < |ms| ==> ms[i] != ms[j]
  }

  ghost function ValuesIn(ms: seq<ChatMessage>, store: Store): seq<Turn>
    requires Holds(store, ms)
  {
    seq(|ms|, i requires 0 <= i < |ms| => Turn(ms[i].role, store[ms[i]]))
  }

  /** What an object held stays in front. */
  ghost predicate Grows(before: Store, after: Store) {
    before.Keys == after.Keys && forall m :: m in before ==> before[m] <= after[m]
  }

  lemma AddObjectGrows(acc: Merged, m: ChatMessage)
    requires Holds(acc.store, acc.list) && m in acc.store
    ensures var out, n := AddObject(acc, m), |acc.list| - 1;
      && Grows(acc.store, out.store)
      && (out.store == acc.store <==> (acc.list != [] && acc.list[n].role == m.role ==> acc.store[m] == []))
  {
    var out, n := AddObject(acc, m), |acc.list| - 1;
    if acc.list != [] && acc.list[n].role == m.role {
      var held, added := acc.store[acc.list[n]], acc.store[m];
      assert |out.store[acc.list[n]]| == |held| + |added|;
      assert added == [] ==> held + added == held;
    }
  }

  lemma {:induction false} MergeObjectsGrows(ms: seq<ChatMessage>, store: Store)
    requires Holds(store, ms)
    ensures Grows(store, MergeObjects(ms, store).store)
    decreases |ms|
  {
    if ms == [] {
    } else {
      MergeObjectsGrows(ms[..|ms| - 1], store);
      AddObjectGrows(MergeObjects(ms[..|ms| - 1], store), ms[|ms| - 1]);
    }
  }

  /** Objects outside the list hold what they held. */
  lemma {:induction false} MergeObjectsFrame(ms: seq<ChatMessage>, store: Store)
    requires Holds(store, ms)
    ensures var out := MergeObjects(ms, store); forall m :: m in store && m !in out.list ==> out.store[m] == store[m]
    decreases |ms|
  {
    if ms == [] {
    } else {
      MergeObjectsFrame(ms[..|ms| - 1], store);
    }
  }

  /** The list consists of given objects, each as often as it was given at most. */
  lemma {:induction false} MergeObjectsList(ms: seq<ChatMessage>, store: Store)
    requires Holds(store, ms) && Distinct(ms)
    ensures var list := MergeObjects(ms, store).list;
      Distinct(list) && forall i :: 0 <= i < |list| ==> list[i] in ms
    decreases |ms|
  {
    if ms == [] {
    } else {
      var front := ms[..|ms| - 1];
      MergeObjectsList(front, store);
      assert forall i :: 0 <= i < |front| ==> front[i] == ms[i];
    }
  }

  lemma ValuesInSnoc(front: seq<ChatMessage>, last: ChatMessage, store: Store)
    requires Holds(store, front) && last in store
    ensures ValuesIn(front + [last], store) == ValuesIn(front, store) + [Turn(last.role, store[last])]
  {
  }

  lemma MergeSnoc(ts: seq<Turn>, t: Turn)
    ensures Merge(ts + [t]) == Extend(Merge(ts), t)
  {
    assert (ts + [t])[..|ts|] == ts;
  }

  /** A message that does not occur before still holds what it held. */
  lemma NotYetTouched(front: seq<ChatMessage>, last: ChatMessage, store: Store)
    requires Holds(store, front) && last in store && Distinct(front + [last])
    ensures Distinct(front) && MergeObjects(front, store).store[last] == store[last]
  {
    var ms := front + [last];
    assert forall i :: 0 <= i < |front| ==> ms[i] == front[i] && ms[i] != ms[|front|];
    MergeObjectsList(front, store);
    MergeObjectsFrame(front, store);
  }

  /** For distinct objects, merging in place gives the merge of their values. */
  lemma {:induction false} MergeObjectsValues(ms: seq<ChatMessage>, store: Store)
    requires Holds(store, ms) && Distinct(ms)
    ensures var out := MergeObjects(ms, store); ValuesIn(out.list, out.store) == Merge(ValuesIn(ms, store))
    decreases |ms|
  {
    if ms == [] {
    } else {
      var front, last := ms[..|ms| - 1], ms[|ms| - 1];
      assert front + [last] == ms;
      NotYetTouched(front, last, store);
      MergeObjectsValues(front, store);
      MergeObjectsList(front, store);
      ValuesInSnoc(front, last, store);
      MergeSnoc(ValuesIn(front, store), Turn(last.role, store[last]));
      AddObjectValues(MergeObjects(front, store), last);
    }
  }

  lemma AddObjectValues(acc: Merged, m: ChatMessage)
    requires Holds(acc.store, acc.list) && m in acc.store && Distinct(acc.list)
    ensures var out := AddObject(acc, m);
      ValuesIn(out.list, out.store) == Extend(ValuesIn(acc.list, acc.store), Turn(m.role, acc.store[m]))
  {
    var out, n := AddObject(acc, m), |acc.list| - 1;
    if acc.list != [] && acc.list[n].role == m.role {
      assert forall i :: 0 <= i < n ==> acc.list[i] != acc.list[n];
    }
  }

  /** A message that follows one of its own role has no parts. */
  ghost predicate NothingToMerge(ms: seq<ChatMessage>, store: Store)
    requires Holds(store, ms)
  {
    forall i :: 0 < i < |ms| && ms[i - 1].role == ms[i].role ==> store[ms[i]] == []
  }

  lemma NothingToMergeSnoc(front: seq<ChatMessage>, last: ChatMessage, store: Store)
    requires Holds(store, front) && last in store
    ensures NothingToMerge(front + [last], store) <==>
      NothingToMerge(front, store) && (front != [] && front[|front| - 1].role == last.role ==> store[last] == [])
  {
    var ms := front + [last];
    assert forall i :: 0 <= i < |front| ==> ms[i] == front[i];
    assert ms[|front|] == last;
  }

  /** The last role of the list is the last role of the messages. */
  lemma {:induction false} LastRole(ms: seq<ChatMessage>, store: Store)
    requires Holds(store, ms)
    ensures var list := MergeObjects(ms, store).list;
      && (list == [] <==> ms == [])
      && (ms != [] ==> list[|list| - 1].role == ms[|ms| - 1].role)
    decreases |ms|
  {
    if ms == [] {
    } else {
      LastRole(ms[..|ms| - 1], store);
    }
  }

  /** If a pass ends with the original contents, nothing had changed before it and it added nothing. */
  lemma AddObjectUnchanged(acc: Merged, m: ChatMessage, store: Store)
    requires Holds(acc.store, acc.list) && m in acc.store && Grows(store, acc.store)
    ensures var n := |acc.list| - 1;
      AddObject(acc, m).store == store <==>
        acc.store == store && (acc.list != [] && acc.list[n].role == m.role ==> store[m] == [])
  {
    AddObjectGrows(acc, m);
    if AddObject(acc, m).store == store {
      forall o | o in store ensures acc.store[o] == store[o] {
        assert store[o] <= acc.store[o] <= store[o];
      }
    }
  }

  /**
   Merging leaves the caller's objects as they were exactly when no message with parts follows
   one of its own role, whether or not an object occurs twice.
   */
  lemma {:induction false} UnchangedExactlyWhenNothingToMerge(ms: seq<ChatMessage>, store: Store)
    requires Holds(store, ms)
    ensures MergeObjects(ms, store).store == store <==> NothingToMerge(ms, store)
    decreases |ms|
  {
    if ms == [] {
    } else {
      var front, last := ms[..|ms| - 1], ms[|ms| - 1];
      assert front + [last] == ms;
      UnchangedExactlyWhenNothingToMerge(front, store);
      MergeObjectsGrows(front, store);
      LastRole(front, store);
      NothingToMergeSnoc(front, last, store);
      AddObjectUnchanged(MergeObjects(front, store), last, store);
    }
  }

  /** Which objects are kept depends on roles only. */
  lemma {:induction false} ListFromRoles(ms: seq<ChatMessage>, store: Store, store': Store)
    requires Holds(store, ms) && Holds(store', ms)
    ensures MergeObjects(ms, store).list == MergeObjects(ms, store').list
    decreases |ms|
  {
    if ms == [] {
    } else {
      ListFromRoles(ms[..|ms| - 1], store, store');
    }
  }

  /**
   `acc` and `after` are what merging `ms` gives: for distinct objects the merge of their values,
   and unchanged contents exactly when there was nothing to merge.
   */
  ghost predicate MergedInPlace(ms: seq<ChatMessage>, before: Store, acc: seq<ChatMessage>, after: Store) {
    && Holds(before, ms) && Merged(acc, after) == MergeObjects(ms, before) && Holds(after, acc)
    && (Distinct(ms) ==> ValuesIn(acc, after) == Merge(ValuesIn(ms, before)))
    && (after == before <==> NothingToMerge(ms, before))
  }

  lemma InPlaceMeans(ms: seq<ChatMessage>, store: Store)
    requires Holds(store, ms)
    ensures var out := MergeObjects(ms, store); MergedInPlace(ms, store, out.list, out.store)
  {
    UnchangedExactlyWhenNothingToMerge(ms, store);
    if Distinct(ms) {
      MergeObjectsValues(ms, store);
    }
  }

  /** One pass: extends the last object, or adds the message itself. */
  method AddTurn(acc: seq<ChatMessage>, m: ChatMessage, ghost ms: seq<ChatMessage>) returns (out: seq<ChatMessage>)
    requires m in ms && forall i :: 0 <= i < |acc| ==> acc[i] in ms
    modifies ms
    ensures Merged(out, StoreOf(ms)) == AddObject(Merged(acc, old(StoreOf(ms))), m)
    ensures forall i :: 0 <= i < |out| ==> out[i] in ms
  {
    out := acc;
    if |acc| > 0 && acc[|acc| - 1].role == m.role {
      var last := acc[|acc| - 1];
      last.parts := last.parts + m.parts;
    } else {
      out := acc + [m];
    }
  }

  /** The aggregation both agents use, in terms of the objects and, if these are distinct, of their values. */
  method MergeInPlace(ms: seq<ChatMessage>) returns (acc: seq<ChatMessage>)
    modifies ms
    ensures MergedInPlace(ms, old(StoreOf(ms)), acc, StoreOf(ms))
  {
    acc := [];
    ghost var store := StoreOf(ms);
    for k := 0 to |ms|
      invariant forall i :: 0 <= i < |acc| ==> acc[i] in ms
      invariant Merged(acc, StoreOf(ms)) == MergeObjects(ms[..k], store)
    {
      assert ms[..k + 1][..k] == ms[..k];
      acc := AddTurn(acc, ms[k], ms);
    }
    assert ms[..|ms|] == ms;
    InPlaceMeans(ms, store);
  }

  /** Objects outside the list hold the same anyway. */
  lemma SameValuesSameStore(list: seq<ChatMessage>, store: Store, store': Store)
    requires Holds(store, list) && store.Keys == store'.Keys
    requires forall m :: m in store && m !in list ==> store'[m] == store[m]
    ensures ValuesIn(list, store') == ValuesIn(list, store) <==> store' == store
  {
    if ValuesIn(list, store') == ValuesIn(list, store) {
      forall m | m in store ensures store'[m] == store[m] {
        if m in list {
          var i :| 0 <= i < |list| && list[i] == m;
          assert ValuesIn(list, store')[i] == ValuesIn(list, store)[i];
        }
      }
    }
  }

  lemma NothingToMergeBefore(ms: seq<ChatMessage>, store: Store, store': Store)
    requires Holds(store, ms) && Grows(store, store') && NothingToMerge(ms, store')
    ensures NothingToMerge(ms, store)
  {
    forall i | 0 < i < |ms| && ms[i - 1].role == ms[i].role ensures store[ms[i]] == [] {
      assert store[ms[i]] <= store'[ms[i]] == [];
    }
  }

  /** Building a request again from the same objects gives the same request exactly when nothing was merged. */
  lemma RebuildSameExactlyWhenNothingToMerge(ms: seq<ChatMessage>, store: Store)
    requires Holds(store, ms)
    ensures var first := MergeObjects(ms, store);
      var second := MergeObjects(ms, first.store);
      && second.list == first.list
      && (ValuesIn(second.list, second.store) == ValuesIn(first.list, first.store) <==> NothingToMerge(ms, store))
  {
    var first := MergeObjects(ms, store);
    var second := MergeObjects(ms, first.store);
    ListFromRoles(ms, store, first.store);
    MergeObjectsFrame(ms, first.store);
    SameValuesSameStore(first.list, first.store, second.store);
    UnchangedExactlyWhenNothingToMerge(ms, store);
    UnchangedExactlyWhenNothingToMerge(ms, first.store);
    MergeObjectsGrows(ms, store);
    if second.store == first.store {
      NothingToMergeBefore(ms, store, first.store);
    }
  }

  // ----- What merging keeps -----

  ghost predicate Alternates(ts: seq<Turn>) {
    forall i :: 0 < i < |ts| ==> ts[i - 1].role != ts[i].role
  }

  /** The parts in order, each with its role. */
  function Flat(ts: seq<Turn>): seq<(string, string)> {
    if ts == [] then []
    else Flat(ts[..|ts| - 1]) + Tagged(ts[|ts| - 1])
  }

  function Tagged(t: Turn): seq<(string, string)> {
    seq(|t.parts|, i requires 0 <= i < |t.parts| => (t.role, t.parts[i]))
  }

  lemma FlatExtend(acc: seq<Turn>, t: Turn)
    ensures Flat(Extend(acc, t)) == Flat(acc) + Tagged(t)
  {
    var out, n := Extend(acc, t), |acc| - 1;
    if acc != [] && acc[n].role == t.role {
      assert out[..n] == acc[..n];
      assert Tagged(out[n]) == Tagged(acc[n]) + Tagged(t);
      assert Flat(acc[..n]) + (Tagged(acc[n]) + Tagged(t)) == Flat(acc[..n]) + Tagged(acc[n]) + Tagged(t);
    } else {
      assert out[..|acc|] == acc;
    }
  }

  lemma {:induction false} MergeAlternates(ts: seq<Turn>)
    ensures Alternates(Merge(ts)) && |Merge(ts)| <= |ts|
    ensures ts != [] ==>
      && Merge(ts) != [] && Merge(ts)[0].role == ts[0].role
      && Merge(ts)[|Merge(ts)| - 1].role == ts[|ts| - 1].role
  {
    if ts == [] {
    } else {
      MergeAlternates(ts[..|ts| - 1]);
    }
  }

  lemma {:induction false} MergeFlat(ts: seq<Turn>)
    ensures Flat(Merge(ts)) == Flat(ts)
  {
    if ts == [] {
    } else {
      MergeFlat(ts[..|ts| - 1]);
      FlatExtend(Merge(ts[..|ts| - 1]), ts[|ts| - 1]);
    }
  }

  /** No two neighbours share a role; the parts with their roles, and the first and last roles, are kept. */
  lemma MergeKeeps(ts: seq<Turn>)
    ensures Alternates(Merge(ts)) && Flat(Merge(ts)) == Flat(ts)
    ensures (Merge(ts) == []) == (ts == [])
    ensures ts != [] ==>
      Merge(ts)[0].role == ts[0].role && Merge(ts)[|Merge(ts)| - 1].role == ts[|ts| - 1].role
  {
    MergeAlternates(ts);
    MergeFlat(ts);
  }

  /** All turns have this role. */
  ghost predicate SameRole(run: seq<Turn>, role: string) { forall i :: 0 <= i < |run| ==> run[i].role == role }

  function PartsOf(ts: seq<Turn>): seq<seq<string>> {
    seq(|ts|, i requires 0 <= i < |ts| => ts[i].parts)
  }

  lemma {:induction false} MergeSameRole(run: seq<Turn>, role: string)
    requires run != [] && SameRole(run, role)
    ensures Merge(run) == [Turn(role, Concat(PartsOf(run)))]
    decreases |run|
  {
    var front, t := run[..|run| - 1], run[|run| - 1];
    assert front + [t] == run && PartsOf(run) == PartsOf(front) + [t.parts];
    MergeSnoc(front, t);
    ConcatSnoc(PartsOf(front), t.parts);
    if front == [] {
      assert PartsOf(front) == [] && [] + t.parts == t.parts;
    } else {
      MergeSameRole(front, role);
    }
  }

  /**
   Each longest run of one role becomes one turn with the run's parts joined, in order: this
   determines the merged list.
   */
  lemma {:induction false} MergeRuns(run: seq<Turn>, role: string, rest: seq<Turn>)
    requires run != [] && SameRole(run, role) && (rest != [] ==> rest[0].role != role)
    ensures Merge(run + rest) == [Turn(role, Concat(PartsOf(run)))] + Merge(rest)
    decreases |rest|
  {
    var first := [Turn(role, Concat(PartsOf(run)))];
    MergeSameRole(run, role);
    if rest == [] {
      assert run + rest == run && first + [] == first;
    } else {
      var front, t := rest[..|rest| - 1], rest[|rest| - 1];
      assert run + rest == run + front + [t] && front + [t] == rest;
      MergeRuns(run, role, front);
      MergeSnoc(run + front, t);
      MergeSnoc(front, t);
      MergeAlternates(front);
      ExtendAfter(first, Merge(front), t);
    }
  }

  lemma ExtendAfter(first: seq<Turn>, acc: seq<Turn>, t: Turn)
    requires |first| == 1 && (acc == [] ==> first[0].role != t.role)
    ensures Extend(first + acc, t) == first + Extend(acc, t)
  {
    if acc == [] {
      assert first + acc == first;
    }
  }

  /** A list that alternates is left alone. */
  lemma {:induction false} MergeFixed(ts: seq<Turn>)
    requires Alternates(ts)
    ensures Merge(ts) == ts
  {
    if ts == [] {
    } else {
      var front := ts[..|ts| - 1];
      MergeFixed(front);
      assert |ts| > 1 ==> ts[|ts| - 2].role != ts[|ts| - 1].role;
    }
  }

  lemma MergeIdempotent(ts: seq<Turn>)
    ensures Merge(Merge(ts)) == Merge(ts)
  {
    MergeKeeps(ts);
    MergeFixed(Merge(ts));
  }

  // ----- The two requests -----

  predicate Opening(role: string) { role == "user" || role == "function" }

  /** Gemini: the first and last message must be from the user or a function. */
  function GeminiContents(ts: seq<Turn>): Result<seq<Turn>> {
    if ts == [] || (ts[0].role != "user" && ts[0].role != "function") then
      Err("The first message must be from the user or function")
    else if ts[|ts| - 1].role != "user" && ts[|ts| - 1].role != "function" then
      Err("The last message must be from the user or function")
    else Ok(Merge(ts))
  }

  /** An accepted Gemini request starts and ends with user or function, alternates, and keeps every part. */
  lemma GeminiRequest(ts: seq<Turn>)
    ensures GeminiContents(ts).Ok? <==> ts != [] && Opening(ts[0].role) && Opening(ts[|ts| - 1].role)
    ensures GeminiContents(ts).Ok? ==>
      var contents := GeminiContents(ts).value;
      && contents != [] && Opening(contents[0].role) && Opening(contents[|contents| - 1].role)
      && Alternates(contents) && Flat(contents) == Flat(ts)
  {
    MergeKeeps(ts);
  }

  /** The list starts with the first object, ends with the last role, and no two neighbours share a role. */
  lemma {:induction false} MergeObjectsAlternate(ms: seq<ChatMessage>, store: Store)
    requires Holds(store, ms)
    ensures var list := MergeObjects(ms, store).list;
      && (forall i :: 0 < i < |list| ==> list[i - 1].role != list[i].role)
      && (ms != [] ==> list != [] && list[0] == ms[0] && list[|list| - 1].role == ms[|ms| - 1].role)
    decreases |ms|
  {
    if ms == [] {
    } else {
      MergeObjectsAlternate(ms[..|ms| - 1], store);
      LastRole(ms, store);
    }
  }

  /** The list starts and ends with user or function, and no two neighbours share a role. */
  ghost predicate OpensAndAlternates(list: seq<ChatMessage>) {
    && list != [] && Opening(list[0].role) && Opening(list[|list| - 1].role)
    && forall i :: 0 < i < |list| ==> list[i - 1].role != list[i].role
  }

  lemma RequestAlternates(ms: seq<ChatMessage>, store: Store)
    requires Holds(store, ms) && ms != [] && Opening(ms[0].role) && Opening(ms[|ms| - 1].role)
    ensures OpensAndAlternates(MergeObjects(ms, store).list)
  {
    MergeObjectsAlternate(ms, store);
  }

  /** The Gemini request on the content objects themselves, repeated ones included. */
  method BuildContents(ms: seq<ChatMessage>) returns (r: Result<seq<ChatMessage>>)
    modifies ms
    ensures r.Ok? <==> ms != [] && Opening(ms[0].role) && Opening(ms[|ms| - 1].role)
    ensures r.Ok? ==>
      MergedInPlace(ms, old(StoreOf(ms)), r.value, StoreOf(ms)) && OpensAndAlternates(r.value)
    ensures r.Err? ==> unchanged(ms)
  {
    if ms == [] || (ms[0].role != "user" && ms[0].role != "function") {
      return Err("The first message must be from the user or function");
    }
    if ms[|ms| - 1].role != "user" && ms[|ms| - 1].role != "function" {
      return Err("The last message must be from the user or function");
    }
    RequestAlternates(ms, StoreOf(ms));
    var merged := MergeInPlace(ms);
    r := Ok(merged);
  }

  /** An incoming Anthropic message: a chat message object, or something else. */
  datatype Incoming = Chat(message: ChatMessage) | Foreign

  /** Why an incoming message is refused, if it is. */
  function Refusal(x: Incoming): Option<string> {
    match x
    case Foreign => Some("Unexpected message type")
    case Chat(m) =>
      if m.role == "system" then Some("system message has already been set and only one system message is supported")
      else None
  }

  ghost predicate FirstRefused(incoming: seq<Incoming>, i: int) {
    0 <= i < |incoming| && Refusal(incoming[i]).Some? && forall j :: 0 <= j < i ==> Refusal(incoming[j]).None?
  }

  ghost predicate RefusedFirst(incoming: seq<Incoming>, error: string) {
    exists i :: FirstRefused(incoming, i) && Refusal(incoming[i]) == Some(error)
  }

  /** Only chat messages, none of them a system message. */
  ghost predicate Accepted(incoming: seq<Incoming>) {
    forall i :: 0 <= i < |incoming| ==> incoming[i].Chat? && incoming[i].message.role != "system"
  }

  ghost function Objects(incoming: seq<Incoming>): (ms: seq<ChatMessage>)
    requires Accepted(incoming)
  {
    assert forall i :: 0 <= i < |incoming| ==> Refusal(incoming[i]).None? ==> incoming[i].Chat?;
    seq(|incoming|, i requires 0 <= i < |incoming| && incoming[i].Chat? => incoming[i].message)
  }

  ghost function ChatObjects(incoming: seq<Incoming>): set<ChatMessage> {
    set i | 0 <= i < |incoming| && incoming[i].Chat? :: incoming[i].message
  }

  lemma ObjectsAreChats(incoming: seq<Incoming>)
    requires Accepted(incoming)
    ensures forall m :: m in Objects(incoming) ==> m in ChatObjects(incoming)
  {
    forall m | m in Objects(incoming) ensures m in ChatObjects(incoming) {
      var i :| 0 <= i < |incoming| && Objects(incoming)[i] == m;
      assert incoming[i].message == m;
    }
  }

  /** The contents of the incoming messages, unless one is refused. */
  method Contents(incoming: seq<Incoming>) returns (r: Result<seq<ChatMessage>>)
    ensures r.Ok? <==> Accepted(incoming)
    ensures r.Ok? ==> r.value == Objects(incoming)
    ensures r.Err? ==> RefusedFirst(incoming, r.error)
  {
    var messages: seq<ChatMessage> := [];
    for i := 0 to |incoming|
      invariant |messages| == i
      invariant forall j :: 0 <= j < i ==> Refusal(incoming[j]).None? && incoming[j].message == messages[j]
    {
      if incoming[i].Foreign? {
        assert FirstRefused(incoming, i);
        return Err("Unexpected message type");
      }
      if incoming[i].message.role == "system" {
        assert FirstRefused(incoming, i);
        return Err("system message has already been set and only one system message is supported");
      }
      messages := messages + [incoming[i].message];
    }
    assert messages == Objects(incoming);
    r := Ok(messages);
  }

  method MergeContents(messages: seq<ChatMessage>, ghost incoming: seq<Incoming>, ghost store: Store)
    returns (acc: seq<ChatMessage>)
    requires Accepted(incoming) && messages == Objects(incoming) && store == StoreOf(messages)
    modifies ChatObjects(incoming)
    ensures MergedInPlace(Objects(incoming), store, acc, StoreOf(Objects(incoming)))
  {
    ObjectsAreChats(incoming);
    acc := MergeInPlace(messages);
  }

  /** Anthropic: the first system or foreign message is refused before anything is merged. */
  method BuildMessages(incoming: seq<Incoming>) returns (r: Result<seq<ChatMessage>>)
    modifies ChatObjects(incoming)
    ensures r.Ok? <==> Accepted(incoming)
    ensures r.Ok? ==>
      MergedInPlace(Objects(incoming), old(StoreOf(Objects(incoming))), r.value, StoreOf(Objects(incoming)))
    ensures r.Err? ==> RefusedFirst(incoming, r.error)
    ensures r.Err? ==> unchanged(ChatObjects(incoming))
  {
    ghost var store := if Accepted(incoming) then StoreOf(Objects(incoming)) else map[];
    var contents := Contents(incoming);
    if contents.Err? {
      return contents;
    }
    var merged := MergeContents(contents.value, incoming, store);
    r := Ok(merged);
  }

  /** Building two requests from the same messages. */
  method BuildTwice(ms: seq<ChatMessage>)
    returns (first: seq<ChatMessage>, second: seq<ChatMessage>, ghost sent: seq<Turn>)
    modifies ms
    ensures second == first && Holds(StoreOf(ms), second)
    ensures sent == ValuesIn(second, StoreOf(ms)) <==> NothingToMerge(ms, old(StoreOf(ms)))
  {
    ghost var store := StoreOf(ms);
    first := MergeInPlace(ms);
    sent := ValuesIn(first, StoreOf(ms));
    second := MergeInPlace(ms);
    RebuildSameExactlyWhenNothingToMerge(ms, store);
  }

  /** For example, building a second request from two messages of one role repeats the second one's parts. */
  method RebuildRepeats(a: ChatMessage, b: ChatMessage) returns (acc: seq<ChatMessage>)
    requires a != b && a.role == b.role
    modifies a, b
    ensures acc == [a] && a.parts == old(a.parts) + old(b.parts) + old(b.parts)
  {
    MergePair(a, b, StoreOf([a, b]));
    acc := MergeInPlace([a, b]);
    MergePair(a, b, StoreOf([a, b]));
    acc := MergeInPlace([a, b]);
  }

  lemma MergePair(a: ChatMessage, b: ChatMessage, store: Store)
    requires a in store && b in store && a.role == b.role
    ensures MergeObjects([a, b], store) == Merged([a], store[a := store[a] + store[b]])
  {
    assert [a, b][..1] == [a] && [a][..0] == [];
    assert MergeObjects([a], store) == Merged([a], store);
  }
}
