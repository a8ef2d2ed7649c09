/**
 * A model-level walk of a probe chain. The chain traversal of the framework
 * (uprobe_init and the code that throws an event down the chain) is not part
 * of this model; the walk below only follows what `next` means for the
 * manager-providing probe: a link that does not catch an event leaves it to
 * the next one. The chain is given by the managers its probes hold, front to
 * back, every link being a manager-providing probe.
 */
module ProbeChain {
  import opened Wrappers
  import opened UprobeUpumpMgr

  /** The managers offered to the pipe in order, and the index of the link that caught the event. */
  datatype Dispatch<M> = Dispatch(offers: seq<M>, claimedBy: Option<nat>)

  /** The event goes to the links front to back until one of them catches it. */
  function Walk<M>(chain: seq<Option<M>>, event: Event, pipeSet: M -> bool): (r: Dispatch<M>)
    ensures r.claimedBy.Some? ==>
              r.claimedBy.value < |chain| && Throw(event, chain[r.claimedBy.value], pipeSet).handled
    ensures forall j :: 0 <= j < |chain| && (r.claimedBy.None? || j < r.claimedBy.value) ==>
              !Throw(event, chain[j], pipeSet).handled
  {
    if chain == [] then Dispatch([], None)
    else
      var reply := Throw(event, chain[0], pipeSet);
      var offered := if reply.offered.Some? then [reply.offered.value] else [];
      if reply.handled then Dispatch(offered, Some(0))
      else
        var rest := Walk(chain[1..], event, pipeSet);
        Dispatch(offered + rest.offers, if rest.claimedBy.Some? then Some(rest.claimedBy.value + 1) else None)
  }

  /** The managers held by a run of links, in order. */
  function Present<M>(s: seq<Option<M>>): seq<M>
  {
    if s == [] then [] else (if s[0].Some? then [s[0].value] else []) + Present(s[1..])
  }

  /** How many links the walk tried: up to the one that caught the event, or all. */
  function Tried<M>(r: Dispatch<M>, n: nat): nat
  {
    if r.claimedBy.Some? then r.claimedBy.value + 1 else n
  }

  /**
   * A need_upump_mgr event is offered to the pipe by every tried link that
   * holds a manager, in chain order; any other event is offered by none.
   */
  lemma {:induction false} WalkOffers<M>(chain: seq<Option<M>>, event: Event, pipeSet: M -> bool)
    ensures Tried(Walk(chain, event, pipeSet), |chain|) <= |chain|
    ensures Walk(chain, event, pipeSet).offers ==
      if event == NeedUpumpMgr then Present(chain[..Tried(Walk(chain, event, pipeSet), |chain|)]) else []
  {
    if chain != [] {
      var r := Walk(chain, event, pipeSet);
      var n := Tried(r, |chain|);
      assert chain[..n][0] == chain[0];
      if !Throw(event, chain[0], pipeSet).handled {
        var rest := Walk(chain[1..], event, pipeSet);
        WalkOffers(chain[1..], event, pipeSet);
        assert n == Tried(rest, |chain| - 1) + 1;
        assert chain[..n][1..] == chain[1..][..n - 1];
      } else {
        assert chain[..n][1..] == [];
      }
    }
  }

  /** No manager-providing probe catches an event other than need_upump_mgr. */
  lemma {:induction false} OtherEventFallsThrough<M>(chain: seq<Option<M>>, code: nat, pipeSet: M -> bool)
    ensures Walk(chain, OtherEvent(code), pipeSet) == Dispatch([], None)
  {
    if chain != [] {
      OtherEventFallsThrough(chain[1..], code, pipeSet);
    }
  }

  /**
   * When only link k holds a manager and the pipe accepts it, the pipe sees
   * exactly one assignment attempt, from link k, which catches the event.
   */
  lemma {:induction false} OnlyHolderCatches<M>(chain: seq<Option<M>>, k: nat, pipeSet: M -> bool)
    requires k < |chain| && chain[k].Some? && pipeSet(chain[k].value)
    requires forall j :: 0 <= j < |chain| && j != k ==> chain[j].None?
    ensures Walk(chain, NeedUpumpMgr, pipeSet) == Dispatch([chain[k].value], Some(k))
  {
    if k > 0 {
      OnlyHolderCatches(chain[1..], k - 1, pipeSet);
    }
  }

  /**
   * A link whose manager the pipe rejects does not stop the event: the walk
   * goes on with the rest of the chain, after that manager was offered.
   */
  lemma RejectedFallsThrough<M>(chain: seq<Option<M>>, pipeSet: M -> bool)
    requires chain != [] && chain[0].Some? && !pipeSet(chain[0].value)
    ensures Walk(chain, NeedUpumpMgr, pipeSet).offers ==
              [chain[0].value] + Walk(chain[1..], NeedUpumpMgr, pipeSet).offers
    ensures Walk(chain, NeedUpumpMgr, pipeSet).claimedBy.Some? <==>
              Walk(chain[1..], NeedUpumpMgr, pipeSet).claimedBy.Some?
  {
  }
}
