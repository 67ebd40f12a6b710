/** The slot array refines a first-in first-out cache: what is in the ring is
    decided by the last `S` transfers alone, and the slot taken next is the one
    filled `S` transfers ago. */
module Fifo {
  import opened Common
  import opened Arithmetic
  import opened Device
  import opened Engine
  import opened Protocol
  import opened Safety

  /** The blocks transferred so far, oldest first: the ids of the timing records. */
  function Transferred(h: Host): seq<Id> {
    seq(|h.timings|, i requires 0 <= i < |h.timings| => h.timings[i].id)
  }

  function Oldest(n: nat, s: nat): nat {
    if n < s then 0 else n - s
  }

  /** The last `s` transfers. */
  function Recent(trace: seq<Id>, s: nat): seq<Id> {
    trace[Oldest(|trace|, s)..]
  }

  /** The abstract cache: a block among the last `s` transfers is a hit. */
  function Touch(trace: seq<Id>, s: nat, id: Id): seq<Id> {
    if id in Recent(trace, s) then trace else trace + [id]
  }

  ghost predicate RingInv(h: Host) {
    var s, n := |h.slots|, |h.timings|;
    && s > 0 && h.next == n % s
    && (forall i: nat :: Oldest(n, s) <= i < n ==> h.slots[i % s].occupant == Some(h.timings[i].id))
    && (forall j: nat :: n <= j < s ==> h.slots[j].occupant == None)
  }

  // -------------------------------------------------------------- refinement

  lemma SlotsAreRecent(h: Host, id: Id)
    requires RingInv(h)
    ensures SlotHolding(h.slots, id).Some? <==> id in Recent(Transferred(h), |h.slots|)
  {
    var s, n := |h.slots|, |h.timings|;
    var held := SlotHolding(h.slots, id);
    if held.Some? {
      if n < s {
        assert held.value < n;
        ModOf(0, s, held.value);
        assert Transferred(h)[held.value] == id;
        assert Recent(Transferred(h), s)[held.value] == id;
      } else {
        var i := WindowCovers(n, s, held.value);
        assert Recent(Transferred(h), s)[i - Oldest(n, s)] == id;
      }
    }
    if id in Recent(Transferred(h), s) {
      var k :| 0 <= k < |Recent(Transferred(h), s)| && Recent(Transferred(h), s)[k] == id;
      var i := k + Oldest(n, s);
      assert h.slots[i % s].occupant == Some(id);
    }
  }

  /** The slot taken next holds the block transferred `S` transfers ago. */
  lemma Victim(h: Host)
    requires RingInv(h)
    ensures h.slots[h.next].occupant ==
      if |h.timings| < |h.slots| then None else Some(Transferred(h)[|h.timings| - |h.slots|])
  {
    var s, n := |h.slots|, |h.timings|;
    if n < s {
      ModOf(0, s, n);
    } else {
      ModBack(n, s);
    }
  }

  lemma FetchRefines(cfg: Config, h: Host, id: Id)
    requires RingInv(h) && id in cfg.bytes
    ensures WellFormed(h)
    ensures RingInv(Fetch(cfg, h, id).0)
    ensures Transferred(Fetch(cfg, h, id).0) == Transferred(h) + [id]
  {
    var s, n := |h.slots|, |h.timings|;
    var h' := Fetch(cfg, h, id).0;
    ModNext(n, s);
    forall i: nat | Oldest(n + 1, s) <= i < n + 1 ensures h'.slots[i % s].occupant == Some(h'.timings[i].id) {
      if i < n {
        ModApart(i, n, s);
      }
    }
    forall j: nat | n + 1 <= j < s ensures h'.slots[j].occupant == None {
      ModOf(0, s, n);
    }
    assert Transferred(h') == Transferred(h) + [id];
  }

  /** Every call acts on the transfer trace as the abstract cache does. */
  lemma ApplyRefines(cfg: Config, s: Session, call: Call)
    requires RingInv(s.host) && (call.id in cfg.bytes || call.id in cfg.resident)
    ensures WellFormed(s.host) && |Apply(cfg, s, call).host.slots| == |s.host.slots|
    ensures RingInv(Apply(cfg, s, call).host)
    ensures Transferred(Apply(cfg, s, call).host) ==
      if (call.PrefetchCall? || call.GetCall?) && call.id !in cfg.resident
      then Touch(Transferred(s.host), |s.host.slots|, call.id)
      else Transferred(s.host)
  {
    SlotsAreRecent(s.host, call.id);
    if Transfers(cfg, s, call) {
      FetchRefines(cfg, s.host, call.id);
      var h1 := Fetch(cfg, s.host, call.id).0;
      assert Apply(cfg, s, call).host.timings == h1.timings && Apply(cfg, s, call).host.slots == h1.slots;
    } else {
      assert Apply(cfg, s, call).host.timings == s.host.timings;
    }
  }

  // ------------------------------------------------------- accounting, any run

  ghost predicate Known(cfg: Config, calls: seq<Call>) {
    forall k :: 0 <= k < |calls| ==> calls[k].id in cfg.order
  }

  function Issues(calls: seq<Call>): nat {
    if calls == [] then 0
    else
      var last := calls[|calls| - 1];
      Issues(calls[..|calls| - 1]) + (if last.PrefetchCall? || last.GetCall? then 1 else 0)
  }

  function TimedBytes(timings: seq<Timing>): nat {
    if timings == [] then 0 else TimedBytes(timings[..|timings| - 1]) + timings[|timings| - 1].bytes
  }

  ghost predicate Accounted(cfg: Config, h: Host, issues: nat) {
    && h.stats.transferCount + h.stats.cacheHits + h.stats.residentHits == issues
    && h.stats.transferCount == |h.timings|
    && h.stats.bytesH2D == TimedBytes(h.timings)
    && (forall k :: 0 <= k < |h.timings| ==>
          && h.timings[k].id in cfg.order && h.timings[k].id !in cfg.resident
          && h.timings[k].id in cfg.bytes && h.timings[k].bytes == cfg.bytes[h.timings[k].id])
  }

  /** Occupants are streaming blocks, pairwise distinct, and fit the ring's slots. */
  ghost predicate RingHoldsStreamingBlocks(cfg: Config, h: Host) {
    && OccupantsDistinct(h)
    && forall j: nat :: j < |h.slots| && h.slots[j].occupant.Some? ==>
         var id := h.slots[j].occupant.value;
         && id in cfg.order && id !in cfg.resident && id != UNASSIGNED
         && id in cfg.bytes && cfg.bytes[id] <= cfg.capacity
  }

  lemma ApplyAccounts(cfg: Config, s: Session, call: Call, issues: nat)
    requires RingInv(s.host) && Accounted(cfg, s.host, issues)
    requires call.id in cfg.order && (call.id in cfg.bytes)
    ensures Accounted(cfg, Apply(cfg, s, call).host, issues + (if call.PrefetchCall? || call.GetCall? then 1 else 0))
  {
    var h, h' := s.host, Apply(cfg, s, call).host;
    if Transfers(cfg, s, call) {
      assert h'.timings == h.timings + [Timing(call.id, cfg.bytes[call.id])];
      assert h'.timings[..|h'.timings| - 1] == h.timings;
    } else {
      assert h'.timings == h.timings;
    }
  }

  lemma {:induction false} RunAccounts(cfg: Config, hasShared: bool, ids: seq<Id>, calls: seq<Call>)
    requires EngineConfig(cfg, hasShared, ids) && Known(cfg, calls)
    ensures var h := Run(cfg, Opened(hasShared, ids, cfg.slotCount), calls).host;
      RingInv(h) && |h.slots| == cfg.slotCount && Accounted(cfg, h, Issues(calls))
    decreases |calls|
  {
    if calls == [] {
      ModOf(0, cfg.slotCount, 0);
    } else {
      var before, call := calls[..|calls| - 1], calls[|calls| - 1];
      assert Known(cfg, before);
      RunAccounts(cfg, hasShared, ids, before);
      var s := Run(cfg, Opened(hasShared, ids, cfg.slotCount), before);
      assert call.id in cfg.order;
      ApplyRefines(cfg, s, call);
      ApplyAccounts(cfg, s, call, Issues(before));
    }
  }

  lemma OccupantWasTransferred(h: Host, j: nat)
    requires RingInv(h) && j < |h.slots| && h.slots[j].occupant.Some?
    ensures exists i: nat :: i < |h.timings| && h.timings[i].id == h.slots[j].occupant.value
  {
    var i := j;
    if |h.timings| < |h.slots| {
      ModOf(0, |h.slots|, j);
    } else {
      i := WindowCovers(|h.timings|, |h.slots|, j);
    }
    assert i < |h.timings| && h.timings[i].id == h.slots[j].occupant.value;
  }

  /** After any calls naming the engine's blocks: successful issues are exactly
      the transfers plus the two kinds of hit, the byte counter is the sum of the
      timing records, and the ring holds distinct streaming blocks that fit. */
  lemma RingStateAlways(cfg: Config, hasShared: bool, ids: seq<Id>, calls: seq<Call>)
    requires EngineConfig(cfg, hasShared, ids) && Known(cfg, calls)
    ensures var h := Run(cfg, Opened(hasShared, ids, cfg.slotCount), calls).host;
      Accounted(cfg, h, Issues(calls)) && RingHoldsStreamingBlocks(cfg, h)
  {
    var s0 := Opened(hasShared, ids, cfg.slotCount);
    RunAccounts(cfg, hasShared, ids, calls);
    OpenedInv(cfg, hasShared, ids);
    RunConsistent(cfg, s0, calls);
    var h := Run(cfg, s0, calls).host;
    forall j: nat | j < |h.slots| && h.slots[j].occupant.Some?
      ensures h.slots[j].occupant.value in cfg.order && h.slots[j].occupant.value !in cfg.resident
    {
      OccupantWasTransferred(h, j);
    }
  }
}
