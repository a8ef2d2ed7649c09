# Manager-providing probe of upipe, modelled in Dafny

upipe stages that need an event-loop ("pump") manager throw a
`UPROBE_NEED_UPUMP_MGR` event down their chain of probes. The probe
`uprobe_upump_mgr` (`lib/upipe/uprobe_upump_mgr.c`) catches that event and
hands the stage the manager it was given. It is one link of the chain: it
keeps a `next` link for the events it does not catch. It holds at most one
manager, and keeps one reference on that manager while it holds it.

This project models that probe:

- `UpumpMgr.Mgr` is a class with a `refcount` field. `Use` and `Release` stand for
  `upump_mgr_use` and `upump_mgr_release`. `ReleaseMaybe` is the release that does
  nothing on a NULL manager.
- `UprobeUpumpMgr.Probe<L>` is `struct uprobe_upump_mgr`. It has a mutable
  `mgr: Option<Mgr>` and an immutable `next: Option<L>`. `L` is the type of the
  chain's other links.
- `UprobeUpumpMgr.Alloc`, `Probe.Set` and `Probe.Free` are the three imperative
  operations. `Throw` is the catch function, a pure decision.
- The methods are proved against `Ledger`, a state machine on values. A world
  maps each manager to its count and each live probe to the manager it holds.
  `View(probes, pool)` reads that world off the heap. Each method's `ensures`
  says that the new view is `Ledger.Step` of the old view. The reference-count
  invariant is proved for every sequence of steps (`Ledger.RunKeepsInv`).
- `ProbeChain.Walk` is a model-level walk of a chain of these probes. It goes
  front to back and stops at the first link that catches the event. The
  framework's own traversal (`uprobe_init` and the code that throws events) is
  not part of this model.

In the code, setting the manager a probe already holds is not a no-op. `set`
releases the old reference before it takes the new one
(`lib/upipe/uprobe_upump_mgr.c:125-129`), so a count of one passes through
zero. `Probe.Set` returns, as a ghost value, the counts between the release
and the use. `Lifecycle.SoleHolderSetsSame` shows those counts reaching zero
on the heap, when the probe holds the only reference.
`Ledger.SetSameInstanceTransientZero` shows the same on values, in a world
that satisfies the invariant. `Ledger.SetSameInstance` shows the other side:
when someone outside the probes also holds a reference, the count between
the two steps stays at or above that outside count, and the step as a whole
changes nothing.

## Model

| member | source | states |
|---|---|---|
| UpumpMgr.Mgr.Use | lib/upipe/uprobe_upump_mgr.c:95-96 | taking a reference raises the manager's count by exactly one |
| UpumpMgr.Mgr.Release | lib/upipe/uprobe_upump_mgr.c:125-126 | releasing a reference lowers the manager's count by exactly one |
| UpumpMgr.ReleaseMaybe | lib/upipe/uprobe_upump_mgr.c:111 | release on a possibly absent manager: one reference fewer on a present one; an absent one changes nothing (frame) |
| Refcount.Use | lib/upipe/uprobe_upump_mgr.c:128-129 | on the table of counts, exactly the given manager gains one reference; an absent manager changes no count |
| Refcount.Release | lib/upipe/uprobe_upump_mgr.c:125-126 | on the table of counts, exactly the given manager loses one reference; an absent manager changes no count |
| Refcount.ReleaseThenUse | lib/upipe/uprobe_upump_mgr.c:125-129 | release followed by use on the same manager restores every count |
| UprobeUpumpMgr.Throw | lib/upipe/uprobe_upump_mgr.c:62-78 | the pipe's setter is called, with the held manager, exactly when the event is need_upump_mgr and a manager is held; the event is caught exactly when the pipe accepts; otherwise it is declined without calling the setter |
| UprobeUpumpMgr.Probe.Catch | lib/upipe/uprobe_upump_mgr.c:65-68 | the probe catches an event only if it is need_upump_mgr and the pipe accepts the manager the probe holds, and it always catches in that case |
| UprobeUpumpMgr.Probe.constructor | lib/upipe/uprobe_upump_mgr.c:94-97 | a new holder stores the given manager and next link |
| UprobeUpumpMgr.Alloc | lib/upipe/uprobe_upump_mgr.c:86-99 | a failed allocation returns none and changes no count. Otherwise it returns a fresh probe that holds exactly `m` and has `next` as its successor. `m`'s count rises by one and no other count changes (the Ledger alloc step) |
| UprobeUpumpMgr.Probe.Set | lib/upipe/uprobe_upump_mgr.c:121-130 | the probe then holds `m`. The counts between the two steps (`between`) are the old counts with one reference fewer on the old manager, and the final counts are `between` with one more on `m`. So the release comes first, and a manager held and set again is one lower in between. The whole is the Ledger set step; other probes and managers are unchanged |
| UprobeUpumpMgr.Probe.Free | lib/upipe/uprobe_upump_mgr.c:106-114 | returns exactly the probe's `next`. The held manager loses one reference, or nothing changes when none is held. The probe is no longer live, so it cannot be set or freed again, and it leaves the live set (the Ledger free step) |
| Ledger.Step | lib/upipe/uprobe_upump_mgr.c:86-130 | alloc, set and free as steps on a world of counts and held managers; no manager enters or leaves the table |
| Ledger.AllocEffect | lib/upipe/uprobe_upump_mgr.c:94-96 | after alloc the probe holds exactly `m`; only `m`'s count changes, by +1 |
| Ledger.SetEffect | lib/upipe/uprobe_upump_mgr.c:125-129 | after set the probe holds `m`; the old manager loses one and the new one gains one, so the net change is zero when they are the same manager |
| Ledger.FreeEffect | lib/upipe/uprobe_upump_mgr.c:108-113 | after free the probe is no longer live; only the held manager's count changes, by -1 |
| Ledger.InitialInv | lib/upipe/uprobe_upump_mgr.c:86-99 | before any probe is allocated, every count equals its outside count plus zero holders |
| Ledger.StepKeepsInv | lib/upipe/uprobe_upump_mgr.c:86-130 | each alloc, set or free keeps every count equal to its outside count plus the number of live probes holding the manager |
| Ledger.RunKeepsInv | lib/upipe/uprobe_upump_mgr.c:86-130 | the same invariant after any sequence of alloc, set and free |
| Ledger.HeldNeverZero | lib/upipe/uprobe_upump_mgr.c:95-96 | under the invariant, a manager held by a live probe has at least one reference above its outside count, so it never reaches zero while that count is at least zero |
| Ledger.SetSameInstance | lib/upipe/uprobe_upump_mgr.c:125-129 | setting the manager already held leaves the world unchanged, and the count between release and use stays at or above the outside count |
| Ledger.SetSameInstanceTransientZero | lib/upipe/uprobe_upump_mgr.c:125-129 | a world satisfying the invariant in which that same-instance set passes the count through zero |
| ProbeChain.Walk | lib/upipe/uprobe_upump_mgr.c:80-97 | the event is caught by a link that catches it, and every link before that one, or every link when none catches, declines it |
| ProbeChain.WalkOffers | lib/upipe/uprobe_upump_mgr.c:68-75 | for need_upump_mgr the pipe is offered, in chain order, the manager of every tried link that holds one; for other events it is offered nothing |
| ProbeChain.OtherEventFallsThrough | lib/upipe/uprobe_upump_mgr.c:68-77 | no link of this kind catches an event other than need_upump_mgr, and none calls the setter |
| ProbeChain.OnlyHolderCatches | lib/upipe/uprobe_upump_mgr.c:68-74 | when only link k holds a manager and the pipe accepts it, the walk makes exactly one assignment attempt, by link k, and link k catches the event |
| ProbeChain.RejectedFallsThrough | lib/upipe/uprobe_upump_mgr.c:69-72 | a link whose manager the pipe rejects offers it and then leaves the event to the rest of the chain |
| Lifecycle.ShareAndUnwind | lib/upipe/uprobe_upump_mgr.c:86-130 | two probes share one manager through alloc, set, a same-instance set and two frees. The count is two above its start while both probes hold the manager, one above between the release and the use of the same-instance set, and ends where it started. After a failed allocation it never moves |
| Lifecycle.SoleHolderSetsSame | lib/upipe/uprobe_upump_mgr.c:125-129 | when the probe holds a manager's only reference, setting that same manager again passes its count through zero between the release and the use, and leaves it at one |

## Left out

- The pump manager's internals are not part of this model: the backend, watchers, the sink-block counter, and teardown when the count reaches zero. `upump_mgr_use` and `upump_mgr_release` are only a +1/-1 on `refcount`.
- `refcount` is an unbounded integer. Nothing detects a release without a matching use, and the count can then go below zero. `Ledger.Inv` is what keeps it at or above the outside count.
- `upipe_set_upump_mgr` is a call into the pipe and is modelled as an oracle `pipeSet: M -> bool`. Whether the pipe takes a reference of its own is not modelled. Nor is a pipe whose answer depends on earlier offers in the same walk.
- The warning logged when the pipe refuses the manager (`upipe_warn`, `lib/upipe/uprobe_upump_mgr.c:71`) is not modelled.
- The event's `va_list` arguments are not modelled. Neither is the `UPROBE_HELPER_UPROBE` conversion between the probe and its embedded `struct uprobe`; the probe is one object.
- `malloc` is modelled only by its outcome, the `mallocOk` parameter of `Alloc`. Dafny cannot free an object. After `Free` the probe's ghost `live` flag is false, and `Set` and `Free` require it true, so a freed probe cannot be used again. The caller's `probes` argument records which probes are live for the view. Nothing ties that set to the `live` flags: `Lifecycle` keeps the two consistent itself.
- `ProbeChain.Walk`: every link of the walked chain is a manager-providing probe. Probes of other kinds, and the framework's own traversal of the chain, are not part of this model.
- `tests/upump_ecore_test.c` is not part of this model. It drives real pipes, non-blocking writes and the Ecore main loop.
