/**
 * The reference bookkeeping of manager-providing probes as a state machine on
 * values. A world records the count of every manager under consideration and,
 * for every live probe, the manager it holds (or none). The three operations
 * of the probe, allocation, replacement of the held manager and freeing, are
 * steps of this machine; the methods of UprobeUpumpMgr are proved to perform
 * exactly these steps on the heap.
 */
module Ledger {
  import opened Wrappers
  import Refcount

  datatype World<M, P> = World(counts: map<M, int>, held: map<P, Option<M>>)

  datatype Op<M, P> =
    | AllocOp(p: P, m: Option<M>)
    | SetOp(p: P, m: Option<M>)
    | FreeOp(p: P)

  /** An absent manager, or one whose count the world records. */
  predicate Known<M, P>(w: World<M, P>, m: Option<M>)
  {
    m.Some? ==> m.value in w.counts
  }

  /**
   * When an operation is meaningful: a new probe is not live yet, set and
   * free address a live probe, and a manager handed in is one the world knows.
   */
  predicate Enabled<M, P>(w: World<M, P>, op: Op<M, P>)
  {
    match op
    case AllocOp(p, m) => p !in w.held && Known(w, m)
    case SetOp(p, m) => p in w.held && Known(w, m)
    case FreeOp(p) => p in w.held
  }

  /**
   * One operation. Allocation stores the manager and takes a reference on it;
   * set releases the old reference first and then takes one on the new
   * manager; free releases the held reference and forgets the probe.
   */
  function Step<M, P>(w: World<M, P>, op: Op<M, P>): (r: World<M, P>)
    requires Enabled(w, op)
    ensures r.counts.Keys == w.counts.Keys
  {
    match op
    case AllocOp(p, m) => World(Refcount.Use(w.counts, m), w.held[p := m])
    case SetOp(p, m) => World(Refcount.Use(Refcount.Release(w.counts, w.held[p]), m), w.held[p := m])
    case FreeOp(p) => World(Refcount.Release(w.counts, w.held[p]), w.held - {p})
  }

  /** A whole sequence of operations; None when one of them is not enabled. */
  function Run<M, P>(w: World<M, P>, ops: seq<Op<M, P>>): Option<World<M, P>>
    decreases |ops|
  {
    if ops == [] then Some(w)
    else if Enabled(w, ops[0]) then Run(Step(w, ops[0]), ops[1..])
    else None
  }

  /** The live probes holding manager `m`. */
  ghost function HolderSet<M, P>(held: map<P, Option<M>>, m: M): set<P>
  {
    set p | p in held && held[p] == Some(m)
  }

  ghost function Holders<M, P>(held: map<P, Option<M>>, m: M): nat
  {
    |HolderSet(held, m)|
  }

  /**
   * The reference-count invariant: every manager's count is its count from
   * holders outside the probes (`base`) plus the number of live probes
   * holding it.
   */
  ghost predicate Inv<M, P>(base: map<M, int>, w: World<M, P>)
  {
    && w.counts.Keys == base.Keys
    && (forall p :: p in w.held ==> Known(w, w.held[p]))
    && (forall m :: m in w.counts ==> w.counts[m] == base[m] + Holders(w.held, m))
  }

  lemma {:induction false} HoldersAssign<M, P>(held: map<P, Option<M>>, p: P, v: Option<M>, m: M)
    ensures Holders(held[p := v], m) == Holders(held - {p}, m) + (if v == Some(m) then 1 else 0)
  {
    var s := HolderSet(held - {p}, m);
    assert p !in s;
    if v == Some(m) {
      assert HolderSet(held[p := v], m) == s + {p};
    } else {
      assert HolderSet(held[p := v], m) == s;
    }
  }

  lemma {:induction false} HoldersRemove<M, P>(held: map<P, Option<M>>, p: P, m: M)
    ensures Holders(held, m) == Holders(held - {p}, m) + (if p in held && held[p] == Some(m) then 1 else 0)
  {
    var s := HolderSet(held - {p}, m);
    assert p !in s;
    if p in held && held[p] == Some(m) {
      assert HolderSet(held, m) == s + {p};
    } else {
      assert HolderSet(held, m) == s;
    }
  }

  /** Allocation: the probe holds exactly `m`, whose count alone rises by one. */
  lemma AllocEffect<M, P>(w: World<M, P>, p: P, m: Option<M>)
    requires Enabled(w, AllocOp(p, m))
    ensures Step(w, AllocOp(p, m)).held == w.held[p := m]
    ensures forall k :: k in w.counts ==>
      Step(w, AllocOp(p, m)).counts[k] == w.counts[k] + (if m == Some(k) then 1 else 0)
  {
  }

  /**
   * Set: the probe holds `m` afterwards; the old manager lost one reference
   * and the new one gained one, so the same manager on both sides nets zero.
   */
  lemma SetEffect<M, P>(w: World<M, P>, p: P, m: Option<M>)
    requires Enabled(w, SetOp(p, m))
    ensures Step(w, SetOp(p, m)).held == w.held[p := m]
    ensures forall k :: k in w.counts ==>
      Step(w, SetOp(p, m)).counts[k] ==
        w.counts[k] - (if w.held[p] == Some(k) then 1 else 0) + (if m == Some(k) then 1 else 0)
  {
  }

  /** Free: the probe is forgotten and only its manager's count drops, by one. */
  lemma FreeEffect<M, P>(w: World<M, P>, p: P)
    requires Enabled(w, FreeOp(p))
    ensures Step(w, FreeOp(p)).held.Keys == w.held.Keys - {p}
    ensures forall k :: k in w.counts ==>
      Step(w, FreeOp(p)).counts[k] == w.counts[k] - (if w.held[p] == Some(k) then 1 else 0)
  {
  }

  /** Before any probe exists the invariant holds with the counts as base. */
  lemma InitialInv<M, P>(base: map<M, int>)
    ensures Inv(base, World<M, P>.World(base, map[]))
  {
  }

  lemma {:induction false} StepKeepsInv<M, P>(base: map<M, int>, w: World<M, P>, op: Op<M, P>)
    requires Inv(base, w) && Enabled(w, op)
    ensures Inv(base, Step(w, op))
  {
    var r := Step(w, op);
    forall k | k in r.counts
      ensures r.counts[k] == base[k] + Holders(r.held, k)
    {
      HoldersRemove(w.held, op.p, k);
      match op
      case AllocOp(p, m) =>
        HoldersAssign(w.held, p, m, k);
      case SetOp(p, m) =>
        HoldersAssign(w.held, p, m, k);
      case FreeOp(p) =>
    }
  }

  /** The refcount invariant survives every sequence of alloc, set and free. */
  lemma {:induction false} RunKeepsInv<M, P>(base: map<M, int>, w: World<M, P>, ops: seq<Op<M, P>>)
    requires Inv(base, w)
    requires Run(w, ops).Some?
    ensures Inv(base, Run(w, ops).value)
    decreases |ops|
  {
    if ops != [] {
      StepKeepsInv(base, w, ops[0]);
      RunKeepsInv(base, Step(w, ops[0]), ops[1..]);
    }
  }

  /**
   * Under the invariant a count never falls below its base, and a manager
   * held by a live probe has at least one reference more than its base; so
   * with a base of at least one no count reaches zero.
   */
  lemma {:induction false} HeldNeverZero<M, P>(base: map<M, int>, w: World<M, P>, p: P)
    requires Inv(base, w)
    requires p in w.held && w.held[p].Some?
    ensures w.held[p].value in w.counts
    ensures w.counts[w.held[p].value] >= base[w.held[p].value] + 1
  {
    var m := w.held[p].value;
    assert p in HolderSet(w.held, m);
  }

  /**
   * Setting the manager a probe already holds changes nothing in the end,
   * and the count seen between the release and the use is at least the base.
   */
  lemma {:induction false} SetSameInstance<M, P>(base: map<M, int>, w: World<M, P>, p: P)
    requires Inv(base, w)
    requires p in w.held && w.held[p].Some?
    ensures Enabled(w, SetOp(p, w.held[p]))
    ensures Step(w, SetOp(p, w.held[p])) == w
    ensures Refcount.Release(w.counts, w.held[p])[w.held[p].value] >= base[w.held[p].value]
  {
    HeldNeverZero(base, w, p);
    Refcount.ReleaseThenUse(w.counts, w.held[p]);
    assert w.held[p := w.held[p]] == w.held;
  }

  /**
   * The release comes first: when the probe holds the only reference (no
   * holder outside the probes), setting the same manager again passes its
   * count through zero before the use restores it.
   */
  lemma {:induction false} SetSameInstanceTransientZero<M, P>(k: M, p: P)
    ensures var w := World(map[k := 1], map[p := Some(k)]);
      && Inv(map[k := 0], w)
      && Enabled(w, SetOp(p, Some(k)))
      && Refcount.Release(w.counts, Some(k))[k] == 0
      && Step(w, SetOp(p, Some(k))) == w
  {
    var w := World(map[k := 1], map[p := Some(k)]);
    assert HolderSet(w.held, k) == {p};
    assert w.held[p := Some(k)] == w.held;
    Refcount.ReleaseThenUse(w.counts, Some(k));
  }
}
