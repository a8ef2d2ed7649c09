/**
 * The probe that catches need_upump_mgr events and provides a given pump
 * manager. It is a link of a probe chain (`next` is the link to try when this
 * one does not catch an event) and holds at most one manager, on which it
 * keeps one reference for as long as it holds it.
 */
module UprobeUpumpMgr {
  import opened Wrappers
  import Refcount
  import Ledger
  import opened UpumpMgr

  /** The events a pipe throws; only the request for a pump manager matters here. */
  datatype Event = NeedUpumpMgr | OtherEvent(code: nat)

  /**
   * What the catch function did: the manager it offered to the pipe's
   * upipe_set_upump_mgr (None when it did not call it) and whether it reports
   * the event as caught.
   */
  datatype Reply<M> = Reply(offered: Option<M>, handled: bool)

  /**
   * uprobe_upump_mgr_throw, given the manager the probe holds. The pipe's
   * answer to upipe_set_upump_mgr is the oracle `pipeSet`, true when the pipe
   * accepts the manager offered. The probe offers its manager only for a
   * need_upump_mgr event and only when it holds one, and claims the event
   * exactly when the pipe accepts; being a function, it leaves the probe and
   * every reference count as they were.
   */
  function Throw<M>(event: Event, held: Option<M>, pipeSet: M -> bool): (r: Reply<M>)
    ensures r.offered.Some? <==> event == NeedUpumpMgr && held.Some?
    ensures r.offered.Some? ==> r.offered == held
    ensures r.handled <==> r.offered.Some? && pipeSet(r.offered.value)
  {
    if event == NeedUpumpMgr && held.Some? then
      Reply(held, pipeSet(held.value))
    else
      Reply(None, false)
  }

  /** struct uprobe_upump_mgr: the manager to provide and the next link of the chain. */
  class Probe<L> {
    var mgr: Option<Mgr>
    const next: Option<L>
    /** False once the probe has been freed; a freed probe may not be used again. */
    ghost var live: bool

    constructor (next: Option<L>, mgr: Option<Mgr>)
      ensures this.next == next && this.mgr == mgr && live
    {
      this.next := next;
      this.mgr := mgr;
      live := true;
    }

    /** The catch function of this probe, reading the manager it holds. */
    function Catch(event: Event, pipeSet: Mgr -> bool): (r: Reply<Mgr>)
      reads this
      ensures r.handled ==> event == NeedUpumpMgr && r.offered == mgr && mgr.Some? && pipeSet(mgr.value)
      ensures event == NeedUpumpMgr && mgr.Some? && pipeSet(mgr.value) ==> r.handled
    {
      Throw(event, mgr, pipeSet)
    }

    /**
     * uprobe_upump_mgr_set: releases the reference on the manager held (if
     * any), stores the new one and takes a reference on it (if any), in that
     * order. `probes` are the live probes and `pool` the managers whose counts
     * are observed; `between` are the counts after the release and before the
     * use, so a manager held and set again is one reference lower there.
     */
    method Set(m: Option<Mgr>, ghost probes: set<Probe<L>>, ghost pool: set<Mgr>)
      returns (ghost between: map<Mgr, int>)
      requires live && this in probes
      requires Held(mgr) <= pool && Held(m) <= pool
      modifies this, Held(mgr), Held(m)
      ensures mgr == m && live
      ensures between == Refcount.Release(old(Counts(pool)), old(mgr))
      ensures Counts(pool) == Refcount.Use(between, m)
      ensures old(mgr).Some? ==> between[old(mgr).value] == old(mgr.value.refcount) - 1
      ensures View(probes, pool) == Ledger.Step(old(View(probes, pool)), Ledger.SetOp(this, m))
    {
      ghost var c0 := Counts(pool);
      if mgr.Some? {
        mgr.value.Release();
      }
      between := Counts(pool);
      assert between == Refcount.Release(c0, old(mgr)) by {
        forall k | k in pool ensures between[k] == Refcount.Release(c0, old(mgr))[k] {
        }
      }
      mgr := m;
      if m.Some? {
        m.value.Use();
      }
      assert Counts(pool) == Refcount.Use(between, m) by {
        forall k | k in pool ensures Counts(pool)[k] == Refcount.Use(between, m)[k] {
        }
      }
    }

    /**
     * uprobe_upump_mgr_free: releases the reference on the manager held (a
     * no-op when none is held) and returns the next link, so that the chain
     * can go on unwinding. The probe leaves the live probes.
     */
    method Free(ghost probes: set<Probe<L>>, ghost pool: set<Mgr>) returns (nextLink: Option<L>)
      requires live && this in probes
      requires Held(mgr) <= pool
      modifies this, Held(mgr)
      ensures nextLink == next
      ensures !live && mgr == old(mgr)
      ensures View(probes - {this}, pool) == Ledger.Step(old(View(probes, pool)), Ledger.FreeOp(this))
    {
      nextLink := next;
      ghost var c0 := Counts(pool);
      ReleaseMaybe(mgr);
      live := false;
      assert Counts(pool) == Refcount.Release(c0, mgr) by {
        forall k | k in pool ensures Counts(pool)[k] == Refcount.Release(c0, mgr)[k] {
        }
      }
    }
  }

  /** The counts of `pool` and the manager held by each probe of `probes`. */
  ghost function View<L>(probes: set<Probe<L>>, pool: set<Mgr>): Ledger.World<Mgr, Probe<L>>
    reads probes, pool
  {
    Ledger.World(Counts(pool), map p | p in probes :: p.mgr)
  }

  /**
   * uprobe_upump_mgr_alloc. `mallocOk` is the outcome of the allocation:
   * when it fails nothing is allocated and no reference is taken; otherwise
   * the new probe holds `m`, has `next` as its successor, and a reference is
   * taken on `m` when it is present.
   */
  method Alloc<L>(next: Option<L>, m: Option<Mgr>, mallocOk: bool,
                  ghost probes: set<Probe<L>>, ghost pool: set<Mgr>)
    returns (p: Option<Probe<L>>)
    requires Held(m) <= pool
    modifies Held(m)
    ensures p.None? <==> !mallocOk
    ensures p.None? ==> unchanged(Held(m)) && View(probes, pool) == old(View(probes, pool))
    ensures p.Some? ==> fresh(p.value) && p.value.mgr == m && p.value.next == next && p.value.live
    ensures p.Some? ==> p.value !in probes
    ensures p.Some? ==>
              View(probes + {p.value}, pool) == Ledger.Step(old(View(probes, pool)), Ledger.AllocOp(p.value, m))
  {
    if !mallocOk {
      return None;
    }
    ghost var c0 := Counts(pool);
    var probe := new Probe(next, m);
    if m.Some? {
      m.value.Use();
    }
    assert Counts(pool) == Refcount.Use(c0, m) by {
      forall k | k in pool ensures Counts(pool)[k] == Refcount.Use(c0, m)[k] {
      }
    }
    p := Some(probe);
  }
}
