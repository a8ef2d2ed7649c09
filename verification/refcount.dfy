/**
 * Reference-count bookkeeping on a table of counts, one per pump manager.
 * `Use` and `Release` are what upump_mgr_use and upump_mgr_release do to the
 * count of the manager they are given; both leave the table alone when the
 * manager is absent (the NULL pointer of the C code).
 */
module Refcount {
  import opened Wrappers

  /** upump_mgr_use on an optional manager: one more reference on it. */
  function Use<M>(c: map<M, int>, m: Option<M>): (r: map<M, int>)
    ensures r.Keys == c.Keys
    ensures forall k :: k in c ==> r[k] == if m == Some(k) then c[k] + 1 else c[k]
  {
    if m.Some? && m.value in c then c[m.value := c[m.value] + 1] else c
  }

  /** upump_mgr_release on an optional manager: one reference fewer on it, nothing on NULL. */
  function Release<M>(c: map<M, int>, m: Option<M>): (r: map<M, int>)
    ensures r.Keys == c.Keys
    ensures forall k :: k in c ==> r[k] == if m == Some(k) then c[k] - 1 else c[k]
  {
    if m.Some? && m.value in c then c[m.value := c[m.value] - 1] else c
  }

  /** Releasing a reference and then taking one on the same manager restores every count. */
  lemma ReleaseThenUse<M>(c: map<M, int>, m: Option<M>)
    ensures Use(Release(c, m), m) == c
  {
  }
}
