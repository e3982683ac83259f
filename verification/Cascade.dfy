/** The cascading agents sample: every handled message is published again until the last round. */
module Cascade {

  /** Deliveries not yet handled, in no particular order, and the rounds of the receive events published. */
  datatype State = State(pending: seq<int>, events: seq<int>)

  /** A publication of round `r`, delivered to each of the `k` agents. */
  function Deliveries(k: nat, r: int): seq<int> { seq(k, _ => r) }

  function Without(s: seq<int>, i: nat): seq<int>
    requires i < |s|
  {
    s[..i] + s[i + 1..]
  }

  /** `on_new_message` for the i-th pending delivery. */
  function Handle(k: nat, maxRounds: int, s: State, i: nat): State
    requires i < |s.pending|
  {
    var r := s.pending[i];
    State(Without(s.pending, i) + (if r == maxRounds then [] else Deliveries(k, r + 1)), s.events + [r])
  }

  /** `order` says which pending delivery is handled at each step. */
  ghost predicate Run(k: nat, maxRounds: int, s: State, order: seq<nat>)
    decreases |order|
  {
    order == [] || (order[0] < |s.pending| && Run(k, maxRounds, Handle(k, maxRounds, s, order[0]), order[1..]))
  }

  ghost function After(k: nat, maxRounds: int, s: State, order: seq<nat>): State
    requires Run(k, maxRounds, s, order)
    decreases |order|
  {
    if order == [] then s else After(k, maxRounds, Handle(k, maxRounds, s, order[0]), order[1..])
  }

  /** Round 1 has just been published. */
  function Started(k: nat): State { State(Deliveries(k, 1), []) }

  function Pow(k: nat, n: nat): nat { if n == 0 then 1 else k * Pow(k, n - 1) }

  /** k + k^2 + ... + k^n. */
  function Geometric(k: nat, n: nat): nat { if n == 0 then 0 else Geometric(k, n - 1) + Pow(k, n) }

  // ----- How much work a delivery still causes -----

  /** The messages handled because of one delivery of round `r`, itself included. */
  ghost function Work(k: nat, maxRounds: int, r: int): (w: nat)
    requires r <= maxRounds
    ensures w >= 1
    decreases maxRounds - r
  {
    if r == maxRounds then 1 else 1 + k * Work(k, maxRounds, r + 1)
  }

  ghost predicate InRange(s: seq<int>, maxRounds: int) { forall i :: 0 <= i < |s| ==> s[i] <= maxRounds }

  ghost function TotalWork(k: nat, maxRounds: int, s: seq<int>): (w: nat)
    requires InRange(s, maxRounds)
    ensures w >= |s|
  {
    if s == [] then 0 else Work(k, maxRounds, s[0]) + TotalWork(k, maxRounds, s[1..])
  }

  lemma {:induction false} TotalAppend(k: nat, maxRounds: int, a: seq<int>, b: seq<int>)
    requires InRange(a, maxRounds) && InRange(b, maxRounds)
    ensures TotalWork(k, maxRounds, a + b) == TotalWork(k, maxRounds, a) + TotalWork(k, maxRounds, b)
    decreases |a|
  {
    if a == [] {
      assert a + b == b;
    } else {
      assert (a + b)[1..] == a[1..] + b;
      TotalAppend(k, maxRounds, a[1..], b);
    }
  }

  lemma {:induction false} TotalDeliveries(k: nat, maxRounds: int, n: nat, r: int)
    requires r <= maxRounds
    ensures TotalWork(k, maxRounds, Deliveries(n, r)) == n * Work(k, maxRounds, r)
    decreases n
  {
    if n == 0 {
    } else {
      assert Deliveries(n, r)[1..] == Deliveries(n - 1, r);
      TotalDeliveries(k, maxRounds, n - 1, r);
    }
  }

  lemma TotalWithout(k: nat, maxRounds: int, s: seq<int>, i: nat)
    requires InRange(s, maxRounds) && i < |s|
    ensures InRange(Without(s, i), maxRounds)
    ensures TotalWork(k, maxRounds, Without(s, i)) == TotalWork(k, maxRounds, s) - Work(k, maxRounds, s[i])
  {
    var r, a, b := s[i], s[..i], s[i + 1..];
    assert s == a + ([r] + b);
    TotalAppend(k, maxRounds, a, [r] + b);
    TotalAppend(k, maxRounds, a, b);
    assert ([r] + b)[1..] == b;
  }

  /** Handling a delivery takes exactly one unit of work away. */
  lemma HandleWorks(k: nat, maxRounds: int, s: State, i: nat)
    requires InRange(s.pending, maxRounds) && i < |s.pending|
    ensures var s' := Handle(k, maxRounds, s, i);
      InRange(s'.pending, maxRounds) && TotalWork(k, maxRounds, s'.pending) == TotalWork(k, maxRounds, s.pending) - 1
  {
    var r, rest := s.pending[i], Without(s.pending, i);
    TotalWithout(k, maxRounds, s.pending, i);
    if r < maxRounds {
      var sent := Deliveries(k, r + 1);
      TotalAppend(k, maxRounds, rest, sent);
      TotalDeliveries(k, maxRounds, k, r + 1);
      assert Work(k, maxRounds, r) == 1 + TotalWork(k, maxRounds, sent);
    } else {
      assert rest + [] == rest;
    }
  }

  lemma {:induction false} WorkConserved(k: nat, maxRounds: int, s: State, order: seq<nat>)
    requires InRange(s.pending, maxRounds) && Run(k, maxRounds, s, order)
    ensures var s' := After(k, maxRounds, s, order);
      && InRange(s'.pending, maxRounds)
      && |order| + TotalWork(k, maxRounds, s'.pending) == TotalWork(k, maxRounds, s.pending)
      && |s'.events| == |s.events| + |order|
    decreases |order|
  {
    if order == [] {
    } else {
      HandleWorks(k, maxRounds, s, order[0]);
      WorkConserved(k, maxRounds, Handle(k, maxRounds, s, order[0]), order[1..]);
    }
  }

  lemma {:induction false} GeometricShift(k: nat, n: nat)
    ensures Geometric(k, n + 1) == k + k * Geometric(k, n)
  {
    if n == 0 {
      assert Pow(k, 1) == k * Pow(k, 0) == k;
    } else {
      GeometricShift(k, n - 1);
      assert Pow(k, n + 1) == k * Pow(k, n);
      Distributes(k, Geometric(k, n - 1), Pow(k, n));
    }
  }

  lemma Distributes(k: nat, a: nat, b: nat)
    ensures k * (a + b) == k * a + k * b
  {
  }

  lemma {:induction false} WorkIsGeometric(k: nat, maxRounds: int, r: int)
    requires r <= maxRounds
    ensures k * Work(k, maxRounds, r) == Geometric(k, maxRounds - r + 1)
    decreases maxRounds - r
  {
    GeometricShift(k, maxRounds - r);
    if r < maxRounds {
      WorkIsGeometric(k, maxRounds, r + 1);
      var w := k * Work(k, maxRounds, r + 1);
      assert k * (1 + w) == k + k * w;
    }
  }

  /**
   Whatever the handling order, a cascade over M rounds and k agents is over exactly when
   k + k^2 + ... + k^M messages have been handled, no run is longer, and there are as many
   receive events as handled messages.
   */
  lemma CascadeLength(k: nat, maxRounds: int, order: seq<nat>)
    requires maxRounds >= 1 && Run(k, maxRounds, Started(k), order)
    ensures var s := After(k, maxRounds, Started(k), order);
      && |order| <= Geometric(k, maxRounds)
      && (s.pending == [] <==> |order| == Geometric(k, maxRounds))
      && |s.events| == |order|
  {
    WorkConserved(k, maxRounds, Started(k), order);
    TotalDeliveries(k, maxRounds, k, 1);
    WorkIsGeometric(k, maxRounds, 1);
  }

  // ----- Events round by round -----

  /** How many of `s` are of round `r`. */
  ghost function Count(s: seq<int>, r: int): nat {
    if s == [] then 0 else Count(s[..|s| - 1], r) + if s[|s| - 1] == r then 1 else 0
  }

  /** The deliveries of round `r` that one of round `q` leads to, itself included. */
  ghost function Share(k: nat, q: int, r: int): nat {
    if q <= r then Pow(k, r - q) else 0
  }

  ghost function TotalShare(k: nat, s: seq<int>, r: int): nat {
    if s == [] then 0 else Share(k, s[0], r) + TotalShare(k, s[1..], r)
  }

  lemma {:induction false} ShareAppend(k: nat, a: seq<int>, b: seq<int>, r: int)
    ensures TotalShare(k, a + b, r) == TotalShare(k, a, r) + TotalShare(k, b, r)
    decreases |a|
  {
    if a == [] {
      assert a + b == b;
    } else {
      assert (a + b)[1..] == a[1..] + b;
      ShareAppend(k, a[1..], b, r);
    }
  }

  lemma {:induction false} ShareDeliveries(k: nat, n: nat, q: int, r: int)
    ensures TotalShare(k, Deliveries(n, q), r) == n * Share(k, q, r)
    decreases n
  {
    if n == 0 {
    } else {
      assert Deliveries(n, q)[1..] == Deliveries(n - 1, q);
      ShareDeliveries(k, n - 1, q, r);
      assert n * Share(k, q, r) == (n - 1) * Share(k, q, r) + Share(k, q, r);
    }
  }

  lemma ShareWithout(k: nat, s: seq<int>, i: nat, r: int)
    requires i < |s|
    ensures TotalShare(k, Without(s, i), r) == TotalShare(k, s, r) - Share(k, s[i], r)
  {
    var a, b := s[..i], s[i + 1..];
    assert s == a + ([s[i]] + b) && ([s[i]] + b)[1..] == b;
    ShareAppend(k, a, [s[i]] + b, r);
    ShareAppend(k, a, b, r);
  }

  lemma CountSnoc(s: seq<int>, q: int, r: int)
    ensures Count(s + [q], r) == Count(s, r) + if q == r then 1 else 0
  {
    assert (s + [q])[..|s|] == s;
  }

  /** Handling a delivery turns its share into its event and the shares of what it publishes. */
  lemma HandleShares(k: nat, maxRounds: int, s: State, i: nat, r: int)
    requires InRange(s.pending, maxRounds) && i < |s.pending| && r <= maxRounds
    ensures var s' := Handle(k, maxRounds, s, i);
      Count(s'.events, r) + TotalShare(k, s'.pending, r) == Count(s.events, r) + TotalShare(k, s.pending, r)
  {
    var q, rest := s.pending[i], Without(s.pending, i);
    ShareWithout(k, s.pending, i, r);
    CountSnoc(s.events, q, r);
    if q < maxRounds {
      ShareAppend(k, rest, Deliveries(k, q + 1), r);
      ShareDeliveries(k, k, q + 1, r);
    } else {
      assert rest + [] == rest;
    }
  }

  lemma {:induction false} SharesConserved(k: nat, maxRounds: int, s: State, order: seq<nat>, r: int)
    requires InRange(s.pending, maxRounds) && Run(k, maxRounds, s, order) && r <= maxRounds
    ensures var s' := After(k, maxRounds, s, order);
      Count(s'.events, r) + TotalShare(k, s'.pending, r) == Count(s.events, r) + TotalShare(k, s.pending, r)
    decreases |order|
  {
    if order == [] {
    } else {
      HandleWorks(k, maxRounds, s, order[0]);
      HandleShares(k, maxRounds, s, order[0], r);
      SharesConserved(k, maxRounds, Handle(k, maxRounds, s, order[0]), order[1..], r);
    }
  }

  /** When a cascade over k agents is over, there are exactly k^r receive events of each round r. */
  lemma EventsPerRound(k: nat, maxRounds: int, order: seq<nat>, r: nat)
    requires 1 <= r <= maxRounds && Run(k, maxRounds, Started(k), order)
    requires After(k, maxRounds, Started(k), order).pending == []
    ensures Count(After(k, maxRounds, Started(k), order).events, r) == Pow(k, r)
  {
    SharesConserved(k, maxRounds, Started(k), order, r);
    ShareDeliveries(k, k, 1, r);
  }

  /** The bound is compared with `==`: with fewer than one round and some agent, the cascade never ends. */
  lemma {:induction false} EndlessBelowOneRound(k: nat, maxRounds: int, s: State, order: seq<nat>)
    requires k >= 1 && s.pending != [] && (forall i :: 0 <= i < |s.pending| ==> s.pending[i] > maxRounds)
    requires Run(k, maxRounds, s, order)
    ensures var s' := After(k, maxRounds, s, order);
      s'.pending != [] && forall i :: 0 <= i < |s'.pending| ==> s'.pending[i] > maxRounds
    decreases |order|
  {
    if order == [] {
    } else {
      EndlessBelowOneRound(k, maxRounds, Handle(k, maxRounds, s, order[0]), order[1..]);
    }
  }
}
