/** Middleware agents: how `Use` composes, and what a registered copy shares with its original. */
module MiddlewareStack {

  /**
   What an agent delegates to: a plain agent with behaviour `b`, a middleware around another
   target, or a middleware agent object, whose behaviour is looked up when it is called.
   */
  datatype Target<!B> =
    | Plain(b: B)
    | Delegate(middleware: B -> B, inner: Target<B>)
    | Object(agent: MiddlewareAgent<B>)

  /** The middlewares around `b`, the last one outermost. */
  function Compose<B>(ms: seq<B -> B>, b: B): B {
    if ms == [] then b else ms[|ms| - 1](Compose(ms[..|ms| - 1], b))
  }

  function Wrapped<B>(ms: seq<B -> B>, t: Target<B>): Target<B> {
    if ms == [] then t else Delegate(ms[|ms| - 1], Wrapped(ms[..|ms| - 1], t))
  }

  /** The agent objects `t` may call are valid and among `under`. */
  ghost predicate Reaches<B>(t: Target<B>, under: set<MiddlewareAgent<B>>)
    reads under
    decreases under, 1, t
  {
    match t
    case Plain(_) => true
    case Delegate(_, inner) => Reaches(inner, under)
    case Object(a) => a in under && a.repr <= under && a.Valid()
  }

  ghost function Behaves<B>(t: Target<B>, under: set<MiddlewareAgent<B>>): B
    requires Reaches(t, under)
    reads under
    decreases under, 1, t
  {
    match t
    case Plain(b) => b
    case Delegate(m, inner) => m(Behaves(inner, under))
    case Object(a) => a.Behaviour()
  }

  lemma {:induction false} WrappedBehaves<B>(ms: seq<B -> B>, t: Target<B>, under: set<MiddlewareAgent<B>>)
    ensures Reaches(Wrapped(ms, t), under) <==> Reaches(t, under)
    ensures Reaches(t, under) ==> Behaves(Wrapped(ms, t), under) == Compose(ms, Behaves(t, under))
    decreases |ms|
  {
    if ms == [] {
    } else {
      WrappedBehaves(ms[..|ms| - 1], t, under);
    }
  }

  /** `MiddlewareAgent` and `MiddlewareStreamingAgent`, which differ in how they are copied. */
  class MiddlewareAgent<B> {
    var target: Target<B>
    var middlewares: seq<B -> B>
    ghost var inner: Target<B>
    ghost var repr: set<MiddlewareAgent<B>>

    ghost predicate Valid()
      reads this, repr
      decreases repr, 0
    {
      this in repr && target == Wrapped(middlewares, inner) && Reaches(target, repr - {this})
    }

    /** The reply behaviour: that of the current target. */
    ghost function Behaviour(): B
      requires Valid()
      reads this, repr
      decreases repr, 0
    {
      Behaves(target, repr - {this})
    }

    /** An agent with no middleware yet. */
    constructor (inner: Target<B>, ghost under: set<MiddlewareAgent<B>>)
      requires Reaches(inner, under)
      ensures Valid() && repr == under + {this} && this.inner == inner && middlewares == []
      ensures Behaviour() == Behaves(inner, under)
    {
      target, middlewares := inner, [];
      this.inner, repr := inner, under + {this};
      new;
      assert repr - {this} == under;
    }

    /** The copy of a `MiddlewareAgent` takes over the original's current target and list. */
    constructor Copy(other: MiddlewareAgent<B>)
      requires other.Valid()
      ensures Valid() && repr == other.repr - {other} + {this}
      ensures middlewares == other.middlewares && inner == other.inner && Behaviour() == other.Behaviour()
    {
      target, middlewares := other.target, other.middlewares;
      inner, repr := other.inner, other.repr - {other} + {this};
      new;
      assert repr - {this} == other.repr - {other};
    }

    /** The copy of a `MiddlewareStreamingAgent` wraps the original itself. */
    constructor CopyStreaming(other: MiddlewareAgent<B>)
      requires other.Valid()
      ensures Valid() && repr == other.repr + {this}
      ensures middlewares == [] && inner == Object(other) && Behaviour() == other.Behaviour()
    {
      target, middlewares := Object(other), [];
      inner, repr := Object(other), other.repr + {this};
      new;
      assert repr - {this} == other.repr;
    }

    method Use(m: B -> B)
      requires Valid()
      modifies this
      ensures Valid() && repr == old(repr) && inner == old(inner)
      ensures middlewares == old(middlewares) + [m] && Behaviour() == m(old(Behaviour()))
    {
      assert (middlewares + [m])[..|middlewares|] == middlewares;
      middlewares := middlewares + [m];
      target := Delegate(m, target);
    }
  }

  /** The constructor that is given middlewares: they compose, last outermost. */
  method WithMiddlewares<B>(inner: Target<B>, ms: seq<B -> B>, ghost under: set<MiddlewareAgent<B>>)
    returns (agent: MiddlewareAgent<B>)
    requires Reaches(inner, under)
    ensures fresh(agent) && agent.Valid() && agent.middlewares == ms
    ensures agent.Behaviour() == Compose(ms, Behaves(inner, under))
  {
    agent := new MiddlewareAgent<B>(inner, under);
    for i := 0 to |ms|
      invariant fresh(agent) && agent.Valid() && agent.middlewares == ms[..i]
      invariant Reaches(inner, under) && agent.Behaviour() == Compose(ms[..i], Behaves(inner, under))
    {
      assert ms[..i + 1][..i] == ms[..i];
      agent.Use(ms[i]);
    }
    assert ms[..|ms|] == ms;
  }

  /** An agent always behaves as its middlewares, last outermost, around what they were put on. */
  lemma BehavesAsComposed<B>(a: MiddlewareAgent<B>)
    requires a.Valid()
    ensures Reaches(a.inner, a.repr - {a})
    ensures a.Behaviour() == Compose(a.middlewares, Behaves(a.inner, a.repr - {a}))
  {
    WrappedBehaves(a.middlewares, a.inner, a.repr - {a});
  }

  /** `RegisterMiddleware`: the copy gets the middleware, the original stays as it is. */
  method Register<B>(agent: MiddlewareAgent<B>, m: B -> B) returns (copy: MiddlewareAgent<B>)
    requires agent.Valid()
    ensures fresh(copy) && copy.Valid() && agent.Valid() && copy !in agent.repr && agent !in copy.repr
    ensures copy.middlewares == agent.middlewares + [m] && copy.Behaviour() == m(agent.Behaviour())
  {
    copy := new MiddlewareAgent<B>.Copy(agent);
    copy.Use(m);
  }

  /** `RegisterStreamingMiddleware`: the copy gets the middleware around the original object. */
  method RegisterStreaming<B>(agent: MiddlewareAgent<B>, m: B -> B) returns (copy: MiddlewareAgent<B>)
    requires agent.Valid()
    ensures fresh(copy) && copy.Valid() && agent.Valid() && copy !in agent.repr
    ensures copy.inner == Object(agent) && copy.repr == agent.repr + {copy}
    ensures copy.middlewares == [m] && copy.Behaviour() == m(agent.Behaviour())
  {
    copy := new MiddlewareAgent<B>.CopyStreaming(agent);
    copy.Use(m);
  }

  /** A registered copy and its original never affect each other through later `Use`. */
  method UseApart<B>(agent: MiddlewareAgent<B>, copy: MiddlewareAgent<B>, m: B -> B)
    requires agent.Valid() && copy.Valid() && agent !in copy.repr
    modifies agent
    ensures agent.Valid() && agent.Behaviour() == m(old(agent.Behaviour()))
    ensures copy.Valid() && copy.Behaviour() == old(copy.Behaviour())
  {
    agent.Use(m);
  }

  /** A streaming copy composes over the original's current behaviour: a later `UseStreaming` shows through. */
  method UseShowsThrough<B>(agent: MiddlewareAgent<B>, copy: MiddlewareAgent<B>, m: B -> B)
    requires agent.Valid() && copy.Valid()
    requires copy.inner == Object(agent) && copy.repr == agent.repr + {copy} && copy !in agent.repr
    modifies agent
    ensures agent.Valid() && copy.Valid() && copy.middlewares == old(copy.middlewares)
    ensures copy.Behaviour() == Compose(copy.middlewares, m(old(agent.Behaviour())))
    ensures old(copy.Behaviour()) == Compose(copy.middlewares, old(agent.Behaviour()))
  {
    assert copy.repr - {copy} == agent.repr;
    BehavesAsComposed(copy);
    agent.Use(m);
    WrappedBehaves(copy.middlewares, copy.inner, copy.repr - {copy});
  }
}
