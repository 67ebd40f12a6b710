/** The streaming engine's host side: a fixed ring of device slots, a resident
    pool that is never evicted, and the commands it issues to the device. */
module Engine {
  import opened Common
  import opened Errors
  import opened Device

  /** What is fixed once the engine is built.  `bytes` gives every known block
      (the shared one included) its size, `resident` gives every resident block
      its ready event, and `start` is the issue-log position up to which the
      host has synchronized before the first call. */
  datatype Config = Config(
    order: seq<Id>, bytes: map<Id, nat>, resident: map<Id, nat>, start: nat, slotCount: nat, capacity: nat)

  /** `ready` is meaningful only while the slot is occupied. */
  datatype Slot = Slot(occupant: Option<Id>, ready: nat, free: Option<nat>)

  datatype Stats = Stats(bytesH2D: nat, transferCount: nat, cacheHits: nat, residentHits: nat)

  datatype Timing = Timing(id: Id, bytes: nat)

  datatype Host = Host(slots: seq<Slot>, next: nat, stats: Stats, timings: seq<Timing>, log: Log)

  datatype Placement = Placement(loc: Loc, ready: nat)

  // ------------------------------------------------------------- start-up

  /** Allocate (an asynchronous memset), copy in, record; the host then waits for the record. */
  function LoadCommands(loc: Loc, id: Id): (r: Log)
    ensures |r| == 5
  {
    [ZeroBegin(loc), ZeroEnd(loc), CopyBegin(loc, id), CopyEnd(loc, id), Record(Transfer)]
  }

  function SharedLog(hasShared: bool): Log {
    if hasShared then LoadCommands(Shared, UNASSIGNED) else []
  }

  function ResidentLog(ids: seq<Id>): Log {
    if ids == [] then []
    else ResidentLog(ids[..|ids| - 1]) + LoadCommands(Pool(ids[|ids| - 1]), ids[|ids| - 1])
  }

  /** The ring buffers' memsets; nothing waits for them. */
  function RingLog(slotCount: nat): Log {
    if slotCount == 0 then []
    else RingLog(slotCount - 1) + [ZeroBegin(Ring(slotCount - 1)), ZeroEnd(Ring(slotCount - 1))]
  }

  lemma ResidentLogStep(ids: seq<Id>, k: nat)
    requires k < |ids|
    ensures ids[..k + 1] == ids[..k] + [ids[k]]
    ensures ResidentLog(ids[..k + 1]) == ResidentLog(ids[..k]) + LoadCommands(Pool(ids[k]), ids[k])
  {
    assert ids[..k + 1][..k] == ids[..k];
  }

  function SyncedLog(hasShared: bool, ids: seq<Id>): Log {
    SharedLog(hasShared) + ResidentLog(ids)
  }

  function BootLog(hasShared: bool, ids: seq<Id>, slotCount: nat): Log {
    SyncedLog(hasShared, ids) + RingLog(slotCount)
  }

  /** The ready event of the `k`-th resident block. */
  function ReadyIndex(hasShared: bool, k: nat): nat {
    (if hasShared then 5 else 0) + 5 * k + 4
  }

  const EMPTY_SLOT := Slot(None, 0, None)

  const NO_STATS := Stats(0, 0, 0, 0)

  function Boot(hasShared: bool, ids: seq<Id>, slotCount: nat): Host {
    Host(seq(slotCount, _ => EMPTY_SLOT), 0, NO_STATS, [], BootLog(hasShared, ids, slotCount))
  }

  /** `resident` names each block's ready event. */
  ghost predicate ReadyTable(resident: map<Id, nat>, hasShared: bool, ids: seq<Id>) {
    && (forall id :: id in resident <==> id in ids)
    && forall k :: 0 <= k < |ids| ==> ids[k] in resident && resident[ids[k]] == ReadyIndex(hasShared, k)
  }

  ghost predicate ConfigOf(cfg: Config, hasShared: bool, ids: seq<Id>) {
    && Distinct(ids)
    && cfg.slotCount > 0
    && cfg.start == |SyncedLog(hasShared, ids)|
    && ReadyTable(cfg.resident, hasShared, ids)
  }

  /** The configuration of a freshly built engine, with its block table and ring sizing. */
  ghost predicate EngineConfig(cfg: Config, hasShared: bool, ids: seq<Id>) {
    && ConfigOf(cfg, hasShared, ids)
    && Distinct(cfg.order) && UNASSIGNED !in cfg.order
    && (forall id :: id in cfg.order ==> id in cfg.bytes)
    && (forall id :: id in ids ==> id in cfg.order)
    && (forall id :: id in cfg.order && id !in cfg.resident ==> cfg.bytes[id] <= cfg.capacity)
  }

  // ---------------------------------------------------------- transitions

  predicate WellFormed(h: Host) {
    h.next < |h.slots|
  }

  /** The first slot at or after `k` that holds `id`. */
  function SlotHolding(slots: seq<Slot>, id: Id, k: nat := 0): (r: Option<nat>)
    requires k <= |slots|
    ensures r.Some? ==> k <= r.value < |slots| && slots[r.value].occupant == Some(id)
    ensures r.Some? ==> forall j :: k <= j < r.value ==> slots[j].occupant != Some(id)
    ensures r.None? ==> forall j :: k <= j < |slots| ==> slots[j].occupant != Some(id)
    decreases |slots| - k
  {
    if k == |slots| then None
    else if slots[k].occupant == Some(id) then Some(k)
    else SlotHolding(slots, id, k + 1)
  }

  /** The ring's slots are sized for the streaming blocks only: a copy of another
      block would run past the end of its slot. */
  predicate FitsSlot(cfg: Config, id: Id)
    requires id in cfg.bytes
  {
    cfg.bytes[id] <= cfg.capacity
  }

  predicate Missing(cfg: Config, h: Host, id: Id) {
    id !in cfg.resident && SlotHolding(h.slots, id).None?
  }

  function FreeWait(slot: Slot): Log {
    if slot.free.Some? then [Wait(Transfer, slot.free.value)] else []
  }

  /** Timing start, the copy, the ready event, timing end. */
  function CopyCommands(j: nat, id: Id): Log {
    [Record(Transfer), CopyBegin(Ring(j), id), CopyEnd(Ring(j), id), Record(Transfer), Record(Transfer)]
  }

  function Fetch(cfg: Config, h: Host, id: Id): (Host, Placement)
    requires WellFormed(h) && id in cfg.bytes
  {
    var j := h.next;
    var head := h.log + FreeWait(h.slots[j]);
    var ready := |head| + 3;
    (Host(h.slots[j := Slot(Some(id), ready, None)],
          (h.next + 1) % |h.slots|,
          h.stats.(bytesH2D := h.stats.bytesH2D + cfg.bytes[id], transferCount := h.stats.transferCount + 1),
          h.timings + [Timing(id, cfg.bytes[id])],
          head + CopyCommands(j, id)),
     Placement(Ring(j), ready))
  }

  function Issue(cfg: Config, h: Host, id: Id): (Host, Result<Placement, EngineError>)
    requires WellFormed(h)
  {
    if id in cfg.resident then
      (h.(stats := h.stats.(residentHits := h.stats.residentHits + 1)), Ok(Placement(Pool(id), cfg.resident[id])))
    else
      match SlotHolding(h.slots, id)
      case Some(j) =>
        (h.(stats := h.stats.(cacheHits := h.stats.cacheHits + 1)), Ok(Placement(Ring(j), h.slots[j].ready)))
      case None =>
        if id !in cfg.bytes then (h, Err(UnknownBlock(id)))
        else
          var (h', placement) := Fetch(cfg, h, id);
          (h', Ok(placement))
  }

  function Get(cfg: Config, h: Host, id: Id): (Host, Result<Placement, EngineError>)
    requires WellFormed(h)
  {
    var (h', r) := Issue(cfg, h, id);
    if r.Ok? then (h'.(log := h'.log + [Wait(Compute, r.value.ready)]), r) else (h', r)
  }

  function Done(cfg: Config, h: Host, id: Id): Host
    requires WellFormed(h)
  {
    if id in cfg.resident then h
    else
      match SlotHolding(h.slots, id)
      case None => h
      case Some(j) =>
        h.(slots := h.slots[j := h.slots[j].(free := Some(|h.log|))], log := h.log + [Record(Compute)])
  }

  // ------------------------------------------------------------ the engine

  lemma ReadyTableStep(resident: map<Id, nat>, hasShared: bool, ids: seq<Id>, id: Id)
    requires ReadyTable(resident, hasShared, ids) && id !in ids
    ensures ReadyTable(resident[id := ReadyIndex(hasShared, |ids|)], hasShared, ids + [id])
  {
  }

  lemma FillStep(hasShared: bool, ids: seq<Id>, k: nat)
    requires k < |ids|
    ensures SyncedLog(hasShared, ids[..k + 1]) == SyncedLog(hasShared, ids[..k]) + LoadCommands(Pool(ids[k]), ids[k])
  {
    ResidentLogStep(ids, k);
  }

  lemma TableStep(hasShared: bool, ids: seq<Id>, k: nat, resident: map<Id, nat>)
    requires Distinct(ids) && k < |ids| && ReadyTable(resident, hasShared, ids[..k])
    ensures ReadyTable(resident[ids[k] := ReadyIndex(hasShared, k)], hasShared, ids[..k + 1])
  {
    assert ids[k] !in ids[..k] by {
      assert forall i :: 0 <= i < k ==> ids[..k][i] == ids[i];
    }
    assert ids[..k + 1] == ids[..k] + [ids[k]];
    ReadyTableStep(resident, hasShared, ids[..k], ids[k]);
  }

  ghost predicate PoolIds(resident: map<Id, nat>, ids: seq<Id>) {
    forall id :: id in resident <==> id in ids
  }

  /** The pool once the first `k` residents are loaded. */
  ghost predicate FilledUpTo(hasShared: bool, ids: seq<Id>, k: nat, log: Log, resident: map<Id, nat>) {
    && k <= |ids| && PoolIds(resident, ids[..k])
    && log == SyncedLog(hasShared, ids[..k]) && |log| == ReadyIndex(hasShared, k) - 4
    && (Distinct(ids) ==> ReadyTable(resident, hasShared, ids[..k]))
  }

  lemma PoolIdsStep(resident: map<Id, nat>, ids: seq<Id>, k: nat, ready: nat)
    requires k < |ids| && PoolIds(resident, ids[..k])
    ensures PoolIds(resident[ids[k] := ready], ids[..k + 1])
  {
    assert ids[..k + 1] == ids[..k] + [ids[k]];
  }

  lemma FilledStep(hasShared: bool, ids: seq<Id>, k: nat, log: Log, resident: map<Id, nat>)
    requires k < |ids| && FilledUpTo(hasShared, ids, k, log, resident)
    ensures FilledUpTo(hasShared, ids, k + 1, log + LoadCommands(Pool(ids[k]), ids[k]), resident[ids[k] := |log| + 4])
  {
    FillStep(hasShared, ids, k);
    PoolIdsStep(resident, ids, k, |log| + 4);
    if Distinct(ids) {
      TableStep(hasShared, ids, k, resident);
    }
  }

  lemma Filled(hasShared: bool, ids: seq<Id>, log: Log, resident: map<Id, nat>)
    requires FilledUpTo(hasShared, ids, |ids|, log, resident)
    ensures log == SyncedLog(hasShared, ids) && PoolIds(resident, ids)
    ensures Distinct(ids) ==> ReadyTable(resident, hasShared, ids)
  {
    assert ids[..|ids|] == ids;
  }

  /** Allocate, copy and record each resident block in turn. */
  method FillPool(hasShared: bool, ids: seq<Id>) returns (log: Log, resident: map<Id, nat>)
    ensures log == SyncedLog(hasShared, ids) && forall id :: id in resident <==> id in ids
    ensures Distinct(ids) ==> ReadyTable(resident, hasShared, ids)
  {
    log := SharedLog(hasShared);
    resident := map[];
    assert ids[..0] == [];
    for k := 0 to |ids|
      invariant FilledUpTo(hasShared, ids, k, log, resident)
    {
      FilledStep(hasShared, ids, k, log, resident);
      log := log + LoadCommands(Pool(ids[k]), ids[k]);
      resident := resident[ids[k] := |log| - 1];
    }
    Filled(hasShared, ids, log, resident);
  }

  method RingCapacity(order: seq<Id>, bytes: map<Id, nat>, resident: set<Id>) returns (capacity: nat)
    requires forall id :: id in order ==> id in bytes
    ensures forall id :: id in order && id !in resident ==> bytes[id] <= capacity
    ensures capacity == 0 || exists id :: id in order && id !in resident && bytes[id] == capacity
  {
    capacity := 0;
    for k := 0 to |order|
      invariant forall i :: 0 <= i < k && order[i] !in resident ==> bytes[order[i]] <= capacity
      invariant capacity == 0 || exists id :: id in order && id !in resident && bytes[id] == capacity
    {
      if order[k] !in resident && bytes[order[k]] > capacity {
        capacity := bytes[order[k]];
      }
    }
  }

  method AllocateRing(slotCount: nat) returns (ring: seq<Slot>, log: Log)
    ensures ring == seq(slotCount, _ => EMPTY_SLOT) && log == RingLog(slotCount)
  {
    ring, log := [], [];
    for k := 0 to slotCount
      invariant log == RingLog(k) && ring == seq(k, _ => EMPTY_SLOT)
    {
      log := log + [ZeroBegin(Ring(k)), ZeroEnd(Ring(k))];
      ring := ring + [EMPTY_SLOT];
    }
  }

  class RustEngine {
    const cfg: Config
    var slots: seq<Slot>
    var nextSlot: nat
    var stats: Stats
    var blockTimings: seq<Timing>
    var issued: Log

    function Model(): Host
      reads this
    {
      Host(slots, nextSlot, stats, blockTimings, issued)
    }

    ghost predicate Valid()
      reads this
    {
      WellFormed(Model())
    }

    /** The tail of start-up: fill the resident pool, size the ring to the
        largest block that still streams, allocate the ring. */
    constructor (order: seq<Id>, bytes: map<Id, nat>, hasShared: bool, residentIds: seq<Id>, vramSlots: nat)
      requires forall id :: id in order ==> id in bytes
      ensures Valid()
      ensures Distinct(order) && UNASSIGNED !in order && Distinct(residentIds) &&
        (forall id :: id in residentIds ==> id in order)
        ==> EngineConfig(cfg, hasShared, residentIds)
      ensures forall id :: id in cfg.resident <==> id in residentIds
      ensures cfg.order == order && cfg.bytes == bytes
      ensures cfg.slotCount == if vramSlots == 0 then 1 else vramSlots
      ensures cfg.capacity == 0 || exists id :: id in order && id !in residentIds && bytes[id] == cfg.capacity
      ensures Model() == Boot(hasShared, residentIds, cfg.slotCount)
    {
      var log, resident := FillPool(hasShared, residentIds);
      var capacity := RingCapacity(order, bytes, resident.Keys);
      var slotCount := if vramSlots == 0 then 1 else vramSlots;
      var ring, zeroing := AllocateRing(slotCount);
      cfg := Config(order, bytes, resident, |log|, slotCount, capacity);
      slots, nextSlot, stats, blockTimings, issued := ring, 0, NO_STATS, [], log + zeroing;
    }

    method Position(id: Id) returns (r: Option<nat>)
      ensures r == SlotHolding(slots, id)
    {
      for k := 0 to |slots|
        invariant SlotHolding(slots, id) == SlotHolding(slots, id, k)
      {
        if slots[k].occupant == Some(id) {
          return Some(k);
        }
      }
      return None;
    }

    method IssueTransfer(id: Id) returns (r: Result<Placement, EngineError>)
      requires Valid()
      modifies this
      ensures Valid() && (Model(), r) == Issue(cfg, old(Model()), id)
    {
      if id in cfg.resident {
        stats := stats.(residentHits := stats.residentHits + 1);
        return Ok(Placement(Pool(id), cfg.resident[id]));
      }
      var held := Position(id);
      if held.Some? {
        stats := stats.(cacheHits := stats.cacheHits + 1);
        return Ok(Placement(Ring(held.value), slots[held.value].ready));
      }
      if id !in cfg.bytes {
        return Err(UnknownBlock(id));
      }
      var idx := nextSlot;
      nextSlot := (nextSlot + 1) % |slots|;
      if slots[idx].free.Some? {
        issued := issued + [Wait(Transfer, slots[idx].free.value)];
        slots := slots[idx := slots[idx].(free := None)];
      }
      issued := issued + [Record(Transfer)];
      issued := issued + [CopyBegin(Ring(idx), id), CopyEnd(Ring(idx), id)];
      var ready := |issued|;
      issued := issued + [Record(Transfer)];
      issued := issued + [Record(Transfer)];
      slots := slots[idx := slots[idx].(ready := ready, occupant := Some(id))];
      blockTimings := blockTimings + [Timing(id, cfg.bytes[id])];
      stats := stats.(bytesH2D := stats.bytesH2D + cfg.bytes[id], transferCount := stats.transferCount + 1);
      assert issued == old(issued) + FreeWait(old(slots)[idx]) + CopyCommands(idx, id);
      assert slots == old(slots)[idx := Slot(Some(id), ready, None)];
      return Ok(Placement(Ring(idx), ready));
    }

    method Prefetch(id: Id) returns (r: Result<Placement, EngineError>)
      requires Valid()
      modifies this
      ensures Valid() && (Model(), r) == Issue(cfg, old(Model()), id)
      ensures old(issued) <= issued
      ensures forall k :: |old(issued)| <= k < |issued| ==> StreamOf(issued[k]) == Transfer
    {
      r := IssueTransfer(id);
    }

    method GetBlock(id: Id) returns (r: Result<Placement, EngineError>)
      requires Valid()
      modifies this
      ensures Valid() && (Model(), r) == Get(cfg, old(Model()), id)
    {
      r := IssueTransfer(id);
      if r.Ok? {
        issued := issued + [Wait(Compute, r.value.ready)];
      }
    }

    method MarkBlockDone(id: Id)
      requires Valid()
      modifies this
      ensures Valid() && Model() == Done(cfg, old(Model()), id)
    {
      if id in cfg.resident {
        return;
      }
      var held := Position(id);
      if held.None? {
        return;
      }
      var event := |issued|;
      issued := issued + [Record(Compute)];
      slots := slots[held.value := slots[held.value].(free := Some(event))];
    }
  }
}
