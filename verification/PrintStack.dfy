/** Stacked print middlewares over one text stream: the yielded object is shared between the layers. */
module PrintStack {
  import opened Wrappers
  import TC = ToolCalls

  datatype TextUpdate = TextUpdate(role: string, content: Option<string>, from: Option<string>)

  class TextMessage {
    const role: string
    const from: Option<string>
    var content: string

    constructor FromUpdate(u: TextUpdate)
      ensures role == u.role && from == u.from && content == Str(u.content)
    {
      role, from, content := u.role, u.from, Str(u.content);
    }

    /** Fails, changing nothing, when role or sender differ. */
    method Apply(u: TextUpdate) returns (ok: bool)
      modifies this
      ensures ok <==> u.role == role && u.from == from
      ensures content == if ok then old(content) + Str(u.content) else old(content)
    {
      if u.role != role || u.from != from {
        return false;
      }
      content := content + Str(u.content);
      ok := true;
    }
  }

  /** What flows between agents: messages are references, updates are values. */
  datatype Item =
    | Update(update: TextUpdate)
    | ToolUpdate(call: TC.Update)
    | Text(text: TextMessage)
    | Tool(tool: TC.ToolCallMessage)
    | Other(tag: nat)

  /** One running `InvokeAsync` of the middleware. */
  class PrintLayer {
    var recent: Option<Item>

    constructor ()
      ensures recent.None?
    {
      recent := None;
    }

    /** The object that reacting to `m` may change besides this layer. */
    ghost function Target(m: Item): set<object>
      reads this
    {
      match recent
      case Some(Text(t)) => if m.Update? then {t} else {}
      case Some(Tool(t)) => if m.ToolUpdate? then {t} else {}
      case _ => {}
    }

    /** One pass of the loop over the inner stream; not `ok` when it throws. */
    method Feed(m: Item) returns (out: Item, ok: bool)
      modifies this, Target(m)
      ensures m.Text? || m.Tool? || m.Other? ==> ok && out == m && recent == Some(m)
      ensures m.Update? && old(recent).None? ==>
        && ok && out == m && recent.Some? && recent.value.Text? && fresh(recent.value.text)
        && recent.value.text.content == Str(m.update.content)
        && recent.value.text.role == m.update.role && recent.value.text.from == m.update.from
      ensures m.Update? && old(recent).Some? && old(recent).value.Text? ==>
        var t := old(recent).value.text;
        && recent == old(recent)
        && ok == (m.update.role == t.role && m.update.from == t.from)
        && (ok ==> out == Text(t) && t.content == old(t.content) + Str(m.update.content))
      ensures m.ToolUpdate? && old(recent).None? ==>
        && ok && out == m && recent.Some? && recent.value.Tool? && fresh(recent.value.tool)
        && recent.value.tool.calls == TC.Absorb([], m.call) && recent.value.tool.from == m.call.from
      ensures m.ToolUpdate? && old(recent).Some? && old(recent).value.Tool? ==>
        var t := old(recent).value.tool;
        && recent == old(recent) && out == m
        && ok == (m.call.from == t.from) && (ok ==> t.calls == TC.Absorb(old(t.calls), m.call))
      ensures m.Update? && old(recent).Some? && !old(recent).value.Text? ==> !ok
      ensures m.ToolUpdate? && old(recent).Some? && !old(recent).value.Tool? ==> !ok
    {
      out, ok := m, true;
      if m.Update? {
        if recent.None? {
          var t := new TextMessage.FromUpdate(m.update);
          recent := Some(Text(t));
        } else if recent.value.Text? {
          ok := recent.value.text.Apply(m.update);
          out := recent.value;
        } else {
          ok := false;
        }
      } else if m.ToolUpdate? {
        if recent.None? {
          var t := new TC.ToolCallMessage.FromUpdate(m.call);
          recent := Some(Tool(t));
        } else if recent.value.Tool? {
          ok := recent.value.tool.Apply(m.call);
        } else {
          ok := false;
        }
      } else {
        recent := Some(m);
      }
    }
  }

  ghost predicate Distinct(layers: seq<PrintLayer>) {
    forall i, j :: 0 <= i < j < |layers| ==> layers[i] != layers[j]
  }

  /** All updates have the role and sender of the first. */
  ghost predicate Uniform(us: seq<TextUpdate>) {
    us != [] && forall i :: 0 <= i < |us| ==> us[i].role == us[0].role && us[i].from == us[0].from
  }

  function Contents(us: seq<TextUpdate>): string {
    Concat(seq(|us|, i requires 0 <= i < |us| => Str(us[i].content)))
  }

  lemma ContentsSnoc(us: seq<TextUpdate>, u: TextUpdate)
    ensures Contents(us + [u]) == Contents(us) + Str(u.content)
  {
    var texts := seq(|us|, i requires 0 <= i < |us| => Str(us[i].content));
    ConcatSnoc(texts, Str(u.content));
    assert texts + [Str(u.content)] == seq(|us + [u]|, i requires 0 <= i < |us + [u]| => Str((us + [u])[i].content));
  }

  /** The first update climbs the stack as it is; every layer starts a message of its own. */
  method Climb(layers: seq<PrintLayer>, u: TextUpdate) returns (out: Item)
    requires Distinct(layers) && forall i :: 0 <= i < |layers| ==> layers[i].recent.None?
    modifies layers
    ensures out == Update(u)
    ensures forall i :: 0 <= i < |layers| ==>
      && layers[i].recent.Some? && layers[i].recent.value.Text? && fresh(layers[i].recent.value.text)
      && layers[i].recent.value.text.content == Str(u.content)
      && layers[i].recent.value.text.role == u.role && layers[i].recent.value.text.from == u.from
  {
    out := Update(u);
    for k := 0 to |layers|
      invariant out == Update(u)
      invariant forall i :: k <= i < |layers| ==> layers[i].recent.None?
      invariant forall i :: 0 <= i < k ==>
        && layers[i].recent.Some? && layers[i].recent.value.Text? && fresh(layers[i].recent.value.text)
        && layers[i].recent.value.text.content == Str(u.content)
        && layers[i].recent.value.text.role == u.role && layers[i].recent.value.text.from == u.from
    {
      var ok;
      out, ok := layers[k].Feed(out);
    }
  }

  /** A finished message passes every layer from `k` up, which adopts it and yields it on. */
  method Pass(layers: seq<PrintLayer>, k: nat, t: TextMessage) returns (out: Item)
    requires Distinct(layers) && k <= |layers|
    modifies layers[k..]
    ensures out == Text(t)
    ensures forall i :: k <= i < |layers| ==> layers[i].recent == Some(Text(t))
    ensures forall i :: 0 <= i < k ==> layers[i].recent == old(layers[i].recent)
  {
    out := Text(t);
    for j := k to |layers|
      invariant out == Text(t)
      invariant forall i :: k <= i < j ==> layers[i].recent == Some(Text(t))
      invariant forall i :: 0 <= i < k ==> layers[i].recent == old(layers[i].recent)
    {
      assert layers[j] in layers[k..] by { assert layers[k..][j - k] == layers[j]; }
      var ok;
      out, ok := layers[j].Feed(out);
    }
  }

  /** What a consumer has seen: the first update, then always the same message object. */
  ghost predicate Seen(out: seq<Item>, n: nat, u: TextUpdate, t: TextMessage) {
    |out| == n > 0 && out[0] == Update(u) && forall i :: 1 <= i < |out| ==> out[i] == Text(t)
  }

  /** The message object has the updates joined, and their role and sender. */
  ghost predicate Joins(t: TextMessage, us: seq<TextUpdate>)
    requires us != []
    reads t
  {
    t.content == Contents(us) && t.role == us[0].role && t.from == us[0].from
  }

  /** A further update reaches the bottom layer's message, which then passes all other layers. */
  method Follow(layers: seq<PrintLayer>, u: TextUpdate, t: TextMessage, ghost us: seq<TextUpdate>) returns (item: Item)
    requires layers != [] && Distinct(layers) && layers[0].recent == Some(Text(t))
    requires us != [] && Joins(t, us) && u.role == us[0].role && u.from == us[0].from
    modifies layers, t
    ensures item == Text(t) && layers[0].recent == Some(Text(t)) && Joins(t, us + [u])
  {
    ContentsSnoc(us, u);
    var ok;
    item, ok := layers[0].Feed(Update(u));
    item := Pass(layers, 1, t);
  }

  lemma FirstJoined(us: seq<TextUpdate>)
    requires us != []
    ensures Contents(us[..1]) == Str(us[0].content)
  {
    ContentsSnoc([], us[0]);
    assert us[..1] == [] + [us[0]];
  }

  /** All updates after the first. */
  method FollowAll(layers: seq<PrintLayer>, us: seq<TextUpdate>, first: Item, t: TextMessage) returns (out: seq<Item>)
    requires layers != [] && Distinct(layers) && layers[0].recent == Some(Text(t))
    requires Uniform(us) && first == Update(us[0]) && Joins(t, us[..1])
    modifies layers, t
    ensures layers[0].recent == Some(Text(t)) && Joins(t, us) && Seen(out, |us|, us[0], t)
  {
    out := [first];
    for j := 1 to |us|
      invariant layers[0].recent == Some(Text(t))
      invariant Joins(t, us[..j]) && Seen(out, j, us[0], t)
    {
      assert us[..j + 1] == us[..j] + [us[j]];
      var item := Follow(layers, us[j], t, us[..j]);
      out := out + [item];
    }
    assert us[..|us|] == us;
  }

  /** The inner stream ends: each layer in turn yields its recent message to the layers above. */
  method Drain(layers: seq<PrintLayer>, before: seq<Item>, t: TextMessage, ghost n: nat, ghost u: TextUpdate)
    returns (out: seq<Item>)
    requires layers != [] && Distinct(layers) && layers[0].recent == Some(Text(t)) && Seen(before, n, u, t)
    modifies layers
    ensures Seen(out, n + |layers|, u, t)
  {
    out := before;
    for k := 0 to |layers|
      invariant k < |layers| ==> layers[k].recent == Some(Text(t))
      invariant Seen(out, n + k, u, t)
    {
      var item := Pass(layers, k + 1, layers[k].recent.value.text);
      out := out + [item];
    }
  }

  /**
   A whole stream through a stack of at least one layer: every item a consumer sees after the
   first is one and the same message object, which at the end holds all updates joined.
   */
  method StreamThrough(layers: seq<PrintLayer>, us: seq<TextUpdate>) returns (out: seq<Item>, t: TextMessage)
    requires layers != [] && Distinct(layers) && Uniform(us)
    requires forall i :: 0 <= i < |layers| ==> layers[i].recent.None?
    modifies layers
    ensures fresh(t) && Joins(t, us)
    ensures Seen(out, |us| + |layers|, us[0], t)
  {
    var first := Climb(layers, us[0]);
    t := layers[0].recent.value.text;
    FirstJoined(us);
    out := FollowAll(layers, us, first, t);
    out := Drain(layers, out, t, |us|, us[0]);
  }
}
