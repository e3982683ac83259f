/** Remainders of shifted positions, for the round-robin rotation. */
module Rotation {

  lemma RemainderUnique(x: nat, q: nat, r: nat, n: nat)
    requires n > 0 && r < n && x == q * n + r
    ensures x % n == r
  {
    var d := q - x / n;
    assert x == (x / n) * n + x % n;
    assert d * n == x % n - r by {
      assert d * n == q * n - (x / n) * n;
    }
  }

  lemma Distributes(p: nat, q: nat, n: nat)
    ensures (p + q) * n == p * n + q * n
  {
  }

  lemma Wrap(a: nat, b: nat, n: nat)
    requires n > 0
    ensures (a % n + b) % n == (a + b) % n
  {
    var x := a % n + b;
    var p, q, r := a / n, x / n, x % n;
    assert x == q * n + r;
    assert a == p * n + a % n;
    Distributes(p, q, n);
    RemainderUnique(a + b, p + q, r, n);
  }

  lemma Reduced(r: nat, j: nat, n: nat)
    requires r < n && j < n
    ensures (r + j) % n == if r + j < n then r + j else r + j - n
  {
    if r + j < n {
      RemainderUnique(r + j, 0, r + j, n);
    } else {
      RemainderUnique(r + j, 1, r + j - n, n);
    }
  }

  /** Positions reached from `base` by offsets below `n`: every position, and each only once. */
  lemma OffsetExists(base: nat, n: nat, p: nat) returns (j: nat)
    requires p < n
    ensures j < n && (base + j) % n == p
  {
    var r := base % n;
    j := if p >= r then p - r else p - r + n;
    Wrap(base, j, n);
    Reduced(r, j, n);
  }

  lemma OffsetUnique(base: nat, n: nat, j: nat, j': nat)
    requires j < n && j' < n && (base + j) % n == (base + j') % n
    ensures j == j'
  {
    var r := base % n;
    assert r < n;
    Wrap(base, j, n);
    Wrap(base, j', n);
    Reduced(r, j, n);
    Reduced(r, j', n);
  }

  /** The next position in a ring of `n`. */
  function Succ(i: nat, n: nat): (j: nat)
    requires i < n
    ensures j < n
  {
    if i + 1 < n then i + 1 else 0
  }

  /** The position `k` turns after the next one. */
  function Turn(i: nat, k: nat, n: nat): (j: nat)
    requires i < n
    ensures j < n
    decreases k
  {
    if k == 0 then Succ(i, n) else Turn(Succ(i, n), k - 1, n)
  }

  lemma SuccIs(i: nat, n: nat)
    requires i < n
    ensures Succ(i, n) == (i + 1) % n
  {
    if i + 1 < n {
      RemainderUnique(i + 1, 0, i + 1, n);
    } else {
      RemainderUnique(i + 1, 1, 0, n);
    }
  }

  lemma {:induction false} TurnIs(i: nat, k: nat, n: nat)
    requires i < n
    ensures Turn(i, k, n) == (i + k + 1) % n
    decreases k
  {
    SuccIs(i, n);
    if k == 0 {
    } else {
      TurnIs(Succ(i, n), k - 1, n);
      Wrap(i + 1, k, n);
    }
  }
}
