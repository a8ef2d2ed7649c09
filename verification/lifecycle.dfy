/**
 * Manager-providing probes sharing one pump manager, as an application sets
 * them up and tears them down: what the contracts of alloc, set and free let
 * a caller conclude about the manager's reference count.
 */
module Lifecycle {
  import opened Wrappers
  import Ledger
  import opened UpumpMgr
  import opened UprobeUpumpMgr

  /**
   * A manager created with `initial` references is provided by probe `a`
   * from its allocation and by probe `b` after a set; `a` is then set to the
   * same manager again and both probes are freed. While both probes hold the
   * manager its count is two above `initial`, between the release and the use
   * of the same-instance set it is one above, and it ends where it started;
   * when the first allocation fails, it never moves.
   */
  method ShareAndUnwind(initial: int, mallocOk: bool) returns (shared: int, final: int, ghost dip: int)
    ensures final == initial
    ensures shared == if mallocOk then initial + 2 else initial
    ensures mallocOk ==> dip == initial + 1
  {
    var mgr := new Mgr(initial);
    ghost var pool := {mgr};
    ghost var probes: set<Probe<nat>> := {};
    var a := Alloc(None, Some(mgr), mallocOk, probes, pool);
    if a.None? {
      return mgr.refcount, mgr.refcount, initial;
    }
    var pa := a.value;
    probes := {pa};
    assert View(probes, pool).counts[mgr] == initial + 1;

    var b := Alloc(None, None, true, probes, pool);
    var pb := b.value;
    probes := probes + {pb};
    assert View(probes, pool).counts[mgr] == initial + 1;

    var _ := pb.Set(Some(mgr), probes, pool);
    assert View(probes, pool).counts[mgr] == initial + 2;
    shared := mgr.refcount;

    var between := pa.Set(Some(mgr), probes, pool);
    dip := between[mgr];
    assert View(probes, pool).counts[mgr] == initial + 2;

    var nextA := pa.Free(probes, pool);
    probes := probes - {pa};
    assert View(probes, pool).counts[mgr] == initial + 1;

    var nextB := pb.Free(probes, pool);
    probes := probes - {pb};
    assert View(probes, pool).counts[mgr] == initial;
    final := mgr.refcount;
  }

  /**
   * The creator of a manager hands it to a probe and drops its own
   * reference, so the probe holds the only one. Setting the probe to that
   * same manager then passes the count through zero between the release and
   * the use, and leaves it at one.
   */
  method SoleHolderSetsSame(mallocOk: bool) returns (final: int, ghost between: int)
    ensures final == 1
    ensures mallocOk ==> between == 0
  {
    var mgr := new Mgr(1);
    ghost var pool := {mgr};
    ghost var probes: set<Probe<nat>> := {};
    var a := Alloc(None, Some(mgr), mallocOk, probes, pool);
    if a.None? {
      return mgr.refcount, 1;
    }
    var p := a.value;
    probes := {p};
    mgr.Release();
    var counts := p.Set(Some(mgr), probes, pool);
    between := counts[mgr];
    final := mgr.refcount;
  }
}
