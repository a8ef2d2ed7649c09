/**
 * The pump manager, seen only as a holder of a reference count. Its
 * allocation, its backend and what happens when the count reaches zero are
 * outside this model.
 */
module UpumpMgr {
  import opened Wrappers

  class Mgr {
    /** Number of references currently taken on the manager. */
    var refcount: int

    /** A manager whose creator holds `refcount` references. */
    constructor (refcount: int)
      ensures this.refcount == refcount
    {
      this.refcount := refcount;
    }

    /** upump_mgr_use: takes one reference. */
    method Use()
      modifies this
      ensures refcount == old(refcount) + 1
    {
      refcount := refcount + 1;
    }

    /** upump_mgr_release: drops one reference. */
    method Release()
      modifies this
      ensures refcount == old(refcount) - 1
    {
      refcount := refcount - 1;
    }
  }

  /** The managers an optional manager pointer refers to: none or one. */
  function Held(m: Option<Mgr>): (s: set<Mgr>)
    ensures m.Some? ==> m.value in s
    ensures forall k :: k in s ==> m == Some(k)
  {
    if m.Some? then {m.value} else {}
  }

  /** upump_mgr_release called on a pointer that may be NULL, where it does nothing. */
  method ReleaseMaybe(m: Option<Mgr>)
    modifies Held(m)
    ensures m.Some? ==> m.value.refcount == old(m.value.refcount) - 1
  {
    if m.Some? {
      m.value.Release();
    }
  }

  /** The reference counts of the managers in `pool`. */
  ghost function Counts(pool: set<Mgr>): (c: map<Mgr, int>)
    reads pool
    ensures c.Keys == pool
  {
    map m | m in pool :: m.refcount
  }
}
