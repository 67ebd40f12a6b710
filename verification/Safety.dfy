/** Whole-run results about the two streams: disciplined clients are safe under
    every interleaving, undisciplined ones are not, and nothing ever deadlocks. */
module Safety {
  import opened Common
  import opened Device
  import opened Engine
  import opened Protocol

  // ---------------------------------------------------------------- start-up

  lemma SyncedStep(hasShared: bool, ids: seq<Id>)
    requires ids != []
    ensures var last := ids[|ids| - 1];
      SyncedLog(hasShared, ids) == SyncedLog(hasShared, ids[..|ids| - 1]) + LoadCommands(Pool(last), last)
  {
  }

  lemma {:induction false} SyncedShape(hasShared: bool, ids: seq<Id>)
    ensures |SyncedLog(hasShared, ids)| == (if hasShared then 5 else 0) + 5 * |ids|
    ensures forall k :: 0 <= k < |SyncedLog(hasShared, ids)| ==>
      StreamOf(SyncedLog(hasShared, ids)[k]) == Transfer && !SyncedLog(hasShared, ids)[k].Wait?
    ensures forall k :: 0 <= k < |ids| ==> SyncedLog(hasShared, ids)[ReadyIndex(hasShared, k)] == Record(Transfer)
  {
    if ids != [] {
      SyncedShape(hasShared, ids[..|ids| - 1]);
      SyncedStep(hasShared, ids);
    }
  }

  /** A resident block's ready event is recorded directly behind its own copy. */
  lemma {:induction false} ReadyFollowsLoad(hasShared: bool, ids: seq<Id>, k: nat)
    requires k < |ids|
    ensures var log, ready := SyncedLog(hasShared, ids), ReadyIndex(hasShared, k);
      0 < ready < |log| && log[ready] == Record(Transfer) && log[ready - 1] == CopyEnd(Pool(ids[k]), ids[k])
  {
    var last := |ids| - 1;
    SyncedShape(hasShared, ids[..last]);
    SyncedStep(hasShared, ids);
    if k < last {
      ReadyFollowsLoad(hasShared, ids[..last], k);
    }
  }

  /** ... and so is that of a block transferred into the ring: it is what the block's
      slot keeps, and what its users wait for. */
  lemma ReadyFollowsCopy(cfg: Config, h: Host, id: Id)
    requires WellFormed(h) && Missing(cfg, h, id) && id in cfg.bytes
    ensures var (h', r) := Issue(cfg, h, id);
      && r.Ok? && r.value.loc == Ring(h.next)
      && h'.slots == h.slots[h.next := Slot(Some(id), r.value.ready, None)]
      && 0 < r.value.ready < |h'.log| && h'.log[r.value.ready] == Record(Transfer)
      && h'.log[r.value.ready - 1] == CopyEnd(Ring(h.next), id)
  {
    var head := h.log + FreeWait(h.slots[h.next]);
    assert (head + CopyCommands(h.next, id))[|head| + 2] == CopyEnd(Ring(h.next), id);
  }

  /** Loading a block leaves it in its buffer and the other buffers alone. */
  lemma LoadContent(before: Log, loc: Loc, id: Id, other: Loc)
    ensures var log := before + LoadCommands(loc, id);
      ContentAt(log, |log|, other) == if other == loc then Holds(id) else ContentAt(before, |before|, other)
  {
    var more := LoadCommands(loc, id);
    var log := before + more;
    if other == loc {
      assert log[|log| - 1] == Record(Transfer) && log[|log| - 2] == CopyEnd(loc, id);
    } else {
      ContentPrefix(before, more, |before|, other);
      QuietContent(log, other, |before|, |log|);
    }
  }

  lemma {:induction false} SyncedContent(hasShared: bool, ids: seq<Id>)
    requires Distinct(ids)
    ensures var log := SyncedLog(hasShared, ids);
      && (forall id :: id in ids ==> ContentAt(log, |log|, Pool(id)) == Holds(id))
      && (hasShared ==> ContentAt(log, |log|, Shared) == Holds(UNASSIGNED))
  {
    if ids == [] {
      LoadContent([], Shared, UNASSIGNED, Shared);
      assert [] + LoadCommands(Shared, UNASSIGNED) == LoadCommands(Shared, UNASSIGNED);
      assert SyncedLog(hasShared, []) == SharedLog(hasShared);
    } else {
      var last := ids[|ids| - 1];
      var front := ids[..|ids| - 1];
      SyncedContent(hasShared, front);
      SyncedStep(hasShared, ids);
      LoadContent(SyncedLog(hasShared, front), Pool(last), last, Shared);
      forall id | id in ids
        ensures ContentAt(SyncedLog(hasShared, ids), |SyncedLog(hasShared, ids)|, Pool(id)) == Holds(id)
      {
        LoadContent(SyncedLog(hasShared, front), Pool(last), last, Pool(id));
      }
    }
  }

  lemma {:induction false} RingShape(slotCount: nat)
    ensures forall k :: 0 <= k < |RingLog(slotCount)| ==>
      (RingLog(slotCount)[k].ZeroBegin? || RingLog(slotCount)[k].ZeroEnd?) && RingLog(slotCount)[k].loc.Ring?
  {
    if slotCount > 0 {
      RingShape(slotCount - 1);
    }
  }

  lemma OpenedShape(hasShared: bool, ids: seq<Id>, slotCount: nat)
    ensures forall i: nat :: i < |BootLog(hasShared, ids, slotCount)| ==>
      !BootLog(hasShared, ids, slotCount)[i].Wait? && !BootLog(hasShared, ids, slotCount)[i].KernelBegin?
  {
    SyncedShape(hasShared, ids);
    RingShape(slotCount);
  }

  lemma OpenedPool(cfg: Config, hasShared: bool, ids: seq<Id>, id: Id)
    requires ConfigOf(cfg, hasShared, ids) && id in cfg.resident
    ensures PoolOk(cfg, Opened(hasShared, ids, cfg.slotCount).host, id)
  {
    var synced, ring := SyncedLog(hasShared, ids), RingLog(cfg.slotCount);
    SyncedShape(hasShared, ids);
    SyncedContent(hasShared, ids);
    RingShape(cfg.slotCount);
    var k :| 0 <= k < |ids| && ids[k] == id;
    ContentPrefix(synced, ring, |synced|, Pool(id));
  }

  lemma OpenedInv(cfg: Config, hasShared: bool, ids: seq<Id>)
    requires ConfigOf(cfg, hasShared, ids)
    ensures Inv(cfg, Opened(hasShared, ids, cfg.slotCount))
  {
    OpenedShape(hasShared, ids, cfg.slotCount);
    forall id | id in cfg.resident ensures PoolOk(cfg, Opened(hasShared, ids, cfg.slotCount).host, id) {
      OpenedPool(cfg, hasShared, ids, id);
    }
  }

  // ----------------------------------------------------------- what holds always

  lemma DoneConsistent(cfg: Config, h: Host, id: Id)
    requires Consistent(cfg, h)
    ensures Consistent(cfg, Done(cfg, h, id))
  {
    var held := SlotHolding(h.slots, id);
    if id !in cfg.resident && held.Some? {
      var h1 := h.(log := h.log + [Record(Compute)]);
      var h2 := Done(cfg, h, id);
      ConsistentExtends(cfg, h, [Record(Compute)]);
      forall j: nat | j < |h2.slots| ensures SlotOk(cfg, h2, j) {
        assert SlotOk(cfg, h1, j);
      }
      forall b | b in cfg.resident ensures PoolOk(cfg, h2, b) {
        assert PoolOk(cfg, h1, b);
      }
    }
  }

  lemma IssueConsistent(cfg: Config, h: Host, id: Id)
    requires Consistent(cfg, h)
    ensures Consistent(cfg, Issue(cfg, h, id).0)
  {
    if Missing(cfg, h, id) && id in cfg.bytes {
      FetchConsistent(cfg, h, id);
    } else {
      var h' := Issue(cfg, h, id).0;
      forall j: nat | j < |h.slots| ensures SlotOk(cfg, h', j) {
        assert SlotOk(cfg, h, j);
      }
      forall b | b in cfg.resident ensures PoolOk(cfg, h', b) {
        assert PoolOk(cfg, h, b);
      }
    }
  }

  lemma ApplyConsistent(cfg: Config, s: Session, call: Call)
    requires Consistent(cfg, s.host)
    ensures Consistent(cfg, Apply(cfg, s, call).host)
  {
    match call
    case PrefetchCall(id) => IssueConsistent(cfg, s.host, id);
    case GetCall(id) =>
      IssueConsistent(cfg, s.host, id);
      var (h1, r) := Issue(cfg, s.host, id);
      if r.Ok? {
        IssuePlaces(cfg, s.host, id);
        if r.value.loc.Ring? {
          assert SlotOk(cfg, h1, r.value.loc.slot);
        } else {
          assert PoolOk(cfg, h1, id);
        }
        var more := [Wait(Compute, r.value.ready)];
        assert Binds(h1.log + more, |h1.log|);
        ConsistentExtends(cfg, h1, more);
      }
    case LaunchCall(id) =>
      if id in s.lent {
        ConsistentExtends(cfg, s.host, LaunchCommands(s.lent[id], id));
      }
    case DoneCall(id) => DoneConsistent(cfg, s.host, id);
  }

  lemma {:induction false} RunConsistent(cfg: Config, s: Session, calls: seq<Call>)
    requires Consistent(cfg, s.host)
    ensures Consistent(cfg, Run(cfg, s, calls).host)
    decreases |calls|
  {
    if calls != [] {
      RunConsistent(cfg, s, calls[..|calls| - 1]);
      ApplyConsistent(cfg, Run(cfg, s, calls[..|calls| - 1]), calls[|calls| - 1]);
    }
  }

  /** Whatever calls a client makes: every wait on either stream names an event
      whose record was issued earlier, so in every execution some stream can
      move until both queues are empty, and no execution runs forever. */
  lemma NoDeadlock(cfg: Config, hasShared: bool, ids: seq<Id>, calls: seq<Call>)
    requires ConfigOf(cfg, hasShared, ids)
    ensures var log := Run(cfg, Opened(hasShared, ids, cfg.slotCount), calls).host.log;
      && WaitsBind(log)
      && forall run :: Execution(log, cfg.start, run) ==>
           && InRange(log, run[|run| - 1])
           && |run| <= 2 * (|log| - cfg.start) + 1
           && (!CanStep(log, run[|run| - 1]) <==> run[|run| - 1] == Cursors(|log|, |log|))
  {
    var s := Opened(hasShared, ids, cfg.slotCount);
    OpenedInv(cfg, hasShared, ids);
    RunConsistent(cfg, s, calls);
    var log := Run(cfg, s, calls).host.log;
    forall run | Execution(log, cfg.start, run)
      ensures InRange(log, run[|run| - 1]) && |run| <= 2 * (|log| - cfg.start) + 1
      ensures !CanStep(log, run[|run| - 1]) <==> run[|run| - 1] == Cursors(|log|, |log|)
    {
      ExecutionsTerminate(log, cfg.start, run);
    }
  }

  // ------------------------------------------------ buffers never rewritten

  ghost predicate WritesRingOnly(log: Log, start: nat) {
    forall y: nat, loc :: start <= y < |log| && Writes(log[y], loc) ==> loc.Ring?
  }

  ghost predicate RingOnly(more: Log) {
    forall y: nat, loc :: y < |more| && Writes(more[y], loc) ==> loc.Ring?
  }

  lemma AppendRingOnly(log: Log, more: Log, start: nat)
    requires WritesRingOnly(log, start) && RingOnly(more)
    ensures WritesRingOnly(log + more, start)
  {
    forall y: nat, loc | start <= y < |log + more| && Writes((log + more)[y], loc) ensures loc.Ring? {
      if y >= |log| {
        assert Writes(more[y - |log|], loc);
      }
    }
  }

  function IssueCommands(cfg: Config, h: Host, id: Id): Log
    requires WellFormed(h)
  {
    if Missing(cfg, h, id) && id in cfg.bytes then FreeWait(h.slots[h.next]) + CopyCommands(h.next, id) else []
  }

  /** What a call adds to the issue log. */
  function CallCommands(cfg: Config, s: Session, call: Call): Log
    requires WellFormed(s.host)
  {
    match call
    case PrefetchCall(id) => IssueCommands(cfg, s.host, id)
    case GetCall(id) =>
      var r := Issue(cfg, s.host, id).1;
      IssueCommands(cfg, s.host, id) + if r.Ok? then [Wait(Compute, r.value.ready)] else []
    case LaunchCall(id) => if id in s.lent then LaunchCommands(s.lent[id], id) else []
    case DoneCall(id) =>
      if id !in cfg.resident && SlotHolding(s.host.slots, id).Some? then [Record(Compute)] else []
  }

  lemma IssueAppends(cfg: Config, h: Host, id: Id)
    requires WellFormed(h)
    ensures Issue(cfg, h, id).0.log == h.log + IssueCommands(cfg, h, id) && RingOnly(IssueCommands(cfg, h, id))
  {
  }

  lemma ApplyAppends(cfg: Config, s: Session, call: Call)
    requires WellFormed(s.host)
    ensures Apply(cfg, s, call).host.log == s.host.log + CallCommands(cfg, s, call)
    ensures RingOnly(CallCommands(cfg, s, call))
  {
    IssueAppends(cfg, s.host, call.id);
  }

  lemma {:induction false} RunWritesRingOnly(cfg: Config, s: Session, calls: seq<Call>, start: nat)
    requires WellFormed(s.host) && WritesRingOnly(s.host.log, start)
    ensures WritesRingOnly(Run(cfg, s, calls).host.log, start)
    ensures |s.host.log| <= |Run(cfg, s, calls).host.log|
    ensures Run(cfg, s, calls).host.log[..|s.host.log|] == s.host.log
    decreases |calls|
  {
    if calls != [] {
      var before := calls[..|calls| - 1];
      RunWritesRingOnly(cfg, s, before, start);
      ApplyAppends(cfg, Run(cfg, s, before), calls[|calls| - 1]);
      AppendRingOnly(Run(cfg, s, before).host.log, CallCommands(cfg, Run(cfg, s, before), calls[|calls| - 1]), start);
    }
  }

  lemma StaticContent(log: Log, synced: Log, t: nat, loc: Loc)
    requires |synced| <= t <= |log| && log[..|synced|] == synced
    requires WritesRingOnly(log, |synced|) && !loc.Ring?
    ensures ContentAt(log, t, loc) == ContentAt(synced, |synced|, loc)
  {
    assert log == synced + log[|synced|..];
    ContentPrefix(synced, log[|synced|..], |synced|, loc);
    QuietContent(log, loc, |synced|, t);
  }

  lemma BootWritesRingOnly(hasShared: bool, ids: seq<Id>, slotCount: nat)
    ensures var log, synced := BootLog(hasShared, ids, slotCount), SyncedLog(hasShared, ids);
      WritesRingOnly(log, |synced|) && log[..|synced|] == synced
  {
    RingShape(slotCount);
  }

  // ------------------------------------------------------ copies stay inside

  /** Every copy into a ring slot is of a block the slot is large enough for. */
  ghost predicate CopiesFit(cfg: Config, log: Log) {
    forall y :: 0 <= y < |log| && log[y].CopyBegin? && log[y].loc.Ring? ==>
      log[y].id in cfg.bytes && FitsSlot(cfg, log[y].id)
  }

  lemma CopiesFitConcat(cfg: Config, a: Log, b: Log)
    requires CopiesFit(cfg, a) && CopiesFit(cfg, b)
    ensures CopiesFit(cfg, a + b)
  {
    forall y | |a| <= y < |a + b| ensures (a + b)[y] == b[y - |a|] {
    }
  }

  lemma BootCopiesFit(cfg: Config, hasShared: bool, ids: seq<Id>)
    ensures CopiesFit(cfg, BootLog(hasShared, ids, cfg.slotCount))
  {
    BootWritesNoRing(hasShared, ids);
    RingShape(cfg.slotCount);
  }

  lemma {:induction false} BootWritesNoRing(hasShared: bool, ids: seq<Id>)
    ensures forall y :: 0 <= y < |SyncedLog(hasShared, ids)| && SyncedLog(hasShared, ids)[y].CopyBegin? ==>
      !SyncedLog(hasShared, ids)[y].loc.Ring?
  {
    if ids != [] {
      BootWritesNoRing(hasShared, ids[..|ids| - 1]);
      SyncedStep(hasShared, ids);
    }
  }

  /** What the ring is asked to copy by an issue: the block itself, if it is missing. */
  lemma IssueCopies(cfg: Config, h: Host, id: Id)
    requires WellFormed(h)
    ensures CopiesFit(cfg, IssueCommands(cfg, h, id))
      <==> (Missing(cfg, h, id) && id in cfg.bytes ==> FitsSlot(cfg, id))
  {
    if Missing(cfg, h, id) && id in cfg.bytes {
      var wait, copy := FreeWait(h.slots[h.next]), CopyCommands(h.next, id);
      assert (wait + copy)[|wait| + 1] == copy[1] == CopyBegin(Ring(h.next), id);
      forall y | 0 <= y < |wait + copy| && (wait + copy)[y].CopyBegin? ensures (wait + copy)[y] == copy[1] {
      }
    }
  }

  lemma PlainFits(cfg: Config, more: Log)
    requires forall y :: 0 <= y < |more| ==> !more[y].CopyBegin?
    ensures CopiesFit(cfg, more)
  {
  }

  lemma CopiesFitPrefix(cfg: Config, a: Log, b: Log)
    requires CopiesFit(cfg, a + b)
    ensures CopiesFit(cfg, a) && CopiesFit(cfg, b)
  {
    forall y | 0 <= y < |a| ensures a[y] == (a + b)[y] {
    }
    forall y | 0 <= y < |b| ensures b[y] == (a + b)[|a| + y] {
    }
  }

  lemma CallCopies(cfg: Config, s: Session, call: Call)
    requires WellFormed(s.host)
    ensures CopiesFit(cfg, CallCommands(cfg, s, call)) <==> (Transfers(cfg, s, call) ==> FitsSlot(cfg, call.id))
  {
    IssueCopies(cfg, s.host, call.id);
    if call.GetCall? {
      var issued := IssueCommands(cfg, s.host, call.id);
      var r := Issue(cfg, s.host, call.id).1;
      var wait := if r.Ok? then [Wait(Compute, r.value.ready)] else [];
      PlainFits(cfg, wait);
      if CopiesFit(cfg, issued) {
        CopiesFitConcat(cfg, issued, wait);
      }
      if CopiesFit(cfg, issued + wait) {
        CopiesFitPrefix(cfg, issued, wait);
      }
    } else if !call.PrefetchCall? {
      PlainFits(cfg, CallCommands(cfg, s, call));
    }
  }

  /** The call's transfer, if it makes one, fits its slot. */
  lemma ApplyFits(cfg: Config, s: Session, call: Call)
    requires WellFormed(s.host) && CopiesFit(cfg, s.host.log)
    ensures CopiesFit(cfg, Apply(cfg, s, call).host.log) <==> (Transfers(cfg, s, call) ==> FitsSlot(cfg, call.id))
  {
    ApplyAppends(cfg, s, call);
    CallCopies(cfg, s, call);
    var more := CallCommands(cfg, s, call);
    if CopiesFit(cfg, more) {
      CopiesFitConcat(cfg, s.host.log, more);
    }
    if CopiesFit(cfg, s.host.log + more) {
      CopiesFitPrefix(cfg, s.host.log, more);
    }
  }

  /** No call asks the ring for a block larger than its slots.  Blocks listed by
      the engine never are; the shared block, which the ring is not sized for, may be. */
  ghost predicate Sized(cfg: Config, calls: seq<Call>) {
    forall k :: 0 <= k < |calls| ==> CallSized(cfg, calls[k])
  }

  predicate CallSized(cfg: Config, call: Call) {
    (call.PrefetchCall? || call.GetCall?) && call.id in cfg.bytes && call.id !in cfg.resident ==> FitsSlot(cfg, call.id)
  }

  lemma ListedIsSized(cfg: Config, hasShared: bool, ids: seq<Id>, calls: seq<Call>)
    requires EngineConfig(cfg, hasShared, ids)
    requires forall k :: 0 <= k < |calls| ==> calls[k].id in cfg.order || calls[k].id !in cfg.bytes
    ensures Sized(cfg, calls)
  {
  }

  lemma {:induction false} SizedRunFits(cfg: Config, hasShared: bool, ids: seq<Id>, calls: seq<Call>)
    requires cfg.slotCount > 0 && Sized(cfg, calls)
    ensures CopiesFit(cfg, Run(cfg, Opened(hasShared, ids, cfg.slotCount), calls).host.log)
    decreases |calls|
  {
    if calls == [] {
      BootCopiesFit(cfg, hasShared, ids);
    } else {
      var before := calls[..|calls| - 1];
      SizedRunFits(cfg, hasShared, ids, before);
      ApplyFits(cfg, Run(cfg, Opened(hasShared, ids, cfg.slotCount), before), calls[|calls| - 1]);
    }
  }

  lemma {:induction false} DisciplinedRunFits(cfg: Config, hasShared: bool, ids: seq<Id>, calls: seq<Call>)
    requires cfg.slotCount > 0 && Disciplined(cfg, Opened(hasShared, ids, cfg.slotCount), calls)
    ensures CopiesFit(cfg, Run(cfg, Opened(hasShared, ids, cfg.slotCount), calls).host.log)
    decreases |calls|
  {
    if calls == [] {
      BootCopiesFit(cfg, hasShared, ids);
    } else {
      var before := calls[..|calls| - 1];
      DisciplinedRunFits(cfg, hasShared, ids, before);
      ApplyFits(cfg, Run(cfg, Opened(hasShared, ids, cfg.slotCount), before), calls[|calls| - 1]);
    }
  }

  /** Prefetching a non-resident block on a fresh engine stays inside its slot if
      and only if the block fits: asking for the shared block when it is larger
      than every streaming block writes past the end of slot 0. */
  lemma OversizedFetchOverruns(cfg: Config, hasShared: bool, ids: seq<Id>, id: Id)
    requires ConfigOf(cfg, hasShared, ids) && id in cfg.bytes && id !in cfg.resident
    ensures CopiesFit(cfg, Run(cfg, Opened(hasShared, ids, cfg.slotCount), [PrefetchCall(id)]).host.log)
      <==> FitsSlot(cfg, id)
  {
    var s := Opened(hasShared, ids, cfg.slotCount);
    BootCopiesFit(cfg, hasShared, ids);
    assert [PrefetchCall(id)][..0] == [];
    assert Run(cfg, s, [PrefetchCall(id)]) == Apply(cfg, s, PrefetchCall(id));
    EmptyRingMisses(cfg, s.host, id);
    ApplyFits(cfg, s, PrefetchCall(id));
  }

  lemma EmptyRingMisses(cfg: Config, h: Host, id: Id)
    requires forall j :: 0 <= j < |h.slots| ==> h.slots[j].occupant.None?
    ensures SlotHolding(h.slots, id).None?
  {
  }

  /** The shared buffer and the resident pool keep their blocks in every
      reachable device state, in whatever order the client calls: ring copies go to
      ring slots, and none runs past the end of its slot. */
  lemma StaticBuffersKeepTheirBlocks(
      cfg: Config, hasShared: bool, ids: seq<Id>, calls: seq<Call>, run: seq<Cursors>, k: nat)
    requires ConfigOf(cfg, hasShared, ids) && Sized(cfg, calls)
    requires var log := Run(cfg, Opened(hasShared, ids, cfg.slotCount), calls).host.log;
      Execution(log, cfg.start, run) && k < |run|
    ensures var log := Run(cfg, Opened(hasShared, ids, cfg.slotCount), calls).host.log;
      && InRange(log, run[k]) && CopiesFit(cfg, log)
      && (hasShared ==> ContentAt(log, run[k].transfer, Shared) == Holds(UNASSIGNED))
      && (forall id :: id in ids ==> ContentAt(log, run[k].transfer, Pool(id)) == Holds(id))
  {
    var s := Opened(hasShared, ids, cfg.slotCount);
    var synced := SyncedLog(hasShared, ids);
    SizedRunFits(cfg, hasShared, ids, calls);
    OpenedInv(cfg, hasShared, ids);
    RunConsistent(cfg, s, calls);
    var log := Run(cfg, s, calls).host.log;
    ExecutionInvariant(log, cfg.start, run, k);
    BootWritesRingOnly(hasShared, ids, cfg.slotCount);
    RunWritesRingOnly(cfg, s, calls, cfg.start);
    assert log[..|synced|] == s.host.log[..|synced|];
    SyncedContent(hasShared, ids);
    StaticContent(log, synced, run[k].transfer, Shared);
    forall id | id in ids ensures ContentAt(log, run[k].transfer, Pool(id)) == Holds(id) {
      StaticContent(log, synced, run[k].transfer, Pool(id));
    }
  }

  // --------------------------------------------------- discipline and safety

  /** A client that never lets a transfer land on an outstanding block's slot is
      safe: whatever the two streams do, no copy into a buffer overlaps a kernel
      reading it and every kernel finds its own block there. */
  lemma DisciplineIsSafe(cfg: Config, hasShared: bool, ids: seq<Id>, calls: seq<Call>)
    requires ConfigOf(cfg, hasShared, ids)
    requires Disciplined(cfg, Opened(hasShared, ids, cfg.slotCount), calls)
    ensures AlwaysSafe(Run(cfg, Opened(hasShared, ids, cfg.slotCount), calls).host.log, cfg.start)
    ensures CopiesFit(cfg, Run(cfg, Opened(hasShared, ids, cfg.slotCount), calls).host.log)
  {
    DisciplinedRunFits(cfg, hasShared, ids, calls);
    var s := Opened(hasShared, ids, cfg.slotCount);
    OpenedInv(cfg, hasShared, ids);
    RunKeeps(cfg, s, calls);
    ProtectedIsAlwaysSafe(Run(cfg, s, calls).host.log, cfg.start);
  }

  lemma {:induction false} EnabledPrefix(log: Log, more: Log, start: nat, run: seq<Cursors>)
    requires Execution(log, start, run)
    ensures Execution(log + more, start, run)
  {
    forall k | 0 <= k < |run| - 1 ensures Step(log + more, run[k], run[k + 1]) {
      assert Step(log, run[k], run[k + 1]);
      var stream :| Enabled(log, stream, run[k]) && run[k + 1] == Advance(run[k], stream);
      assert Enabled(log + more, stream, run[k]);
    }
  }

  /** Extend an execution by letting one stream run over commands it may freely execute. */
  lemma {:induction false} RunOn(log: Log, start: nat, run: seq<Cursors>, stream: Stream, n: nat)
    returns (run': seq<Cursors>)
    requires Execution(log, start, run)
    requires At(run[|run| - 1], stream) + n <= |log|
    requires forall p: nat | At(run[|run| - 1], stream) <= p < At(run[|run| - 1], stream) + n ::
      StreamOf(log[p]) == stream && Binds(log, p) && StreamOf(log[log[p].event]) != stream ==>
        log[p].event < At(run[|run| - 1], StreamOf(log[log[p].event]))
    ensures Execution(log, start, run')
    ensures var s, s' := run[|run| - 1], run'[|run'| - 1];
      At(s', stream) == At(s, stream) + n &&
      forall other :: other != stream ==> At(s', other) == At(s, other)
    decreases n
  {
    if n == 0 {
      run' := run;
    } else {
      var before := RunOn(log, start, run, stream, n - 1);
      var s := before[|before| - 1];
      assert Enabled(log, stream, s);
      assert Step(log, s, Advance(s, stream));
      run' := before + [Advance(s, stream)];
    }
  }

  lemma RunTwo(cfg: Config, s: Session, a: Call, b: Call)
    requires WellFormed(s.host)
    ensures Run(cfg, s, [a, b]) == Apply(cfg, Apply(cfg, s, a), b)
  {
    assert [a, b][..1] == [a] && [a][..0] == [];
    assert Run(cfg, s, [a]) == Apply(cfg, Run(cfg, s, []), a);
  }

  /** Getting a known block lends it, and a prefetch takes nothing back. */
  lemma GetLends(cfg: Config, s: Session, id: Id, more: seq<Call>)
    requires WellFormed(s.host) && (id in cfg.resident || id in cfg.bytes)
    requires more == [] || exists other :: more == [PrefetchCall(other)]
    ensures id in Run(cfg, s, [GetCall(id)] + more).lent
  {
    var calls := [GetCall(id)] + more;
    assert Run(cfg, s, []) == s;
    if more == [] {
      assert calls[..0] == [];
    } else {
      assert calls[..1] == [GetCall(id)] && [GetCall(id)][..0] == [];
      assert Run(cfg, s, calls[..1]) == Apply(cfg, s, GetCall(id));
    }
  }

  lemma CopyAt(log: Log, p: nat, slot: nat, copied: Id)
    requires p + 5 <= |log| && log[p..p + 5] == CopyCommands(slot, copied)
    ensures log[p] == Record(Transfer) == log[p + 3] == log[p + 4]
    ensures log[p + 1] == CopyBegin(Ring(slot), copied) && log[p + 2] == CopyEnd(Ring(slot), copied)
  {
    assert log[p] == log[p..p + 5][0] && log[p + 1] == log[p..p + 5][1] && log[p + 2] == log[p..p + 5][2];
    assert log[p + 3] == log[p..p + 5][3] && log[p + 4] == log[p..p + 5][4];
  }

  /** The kernel starts while the copy into its buffer is under way. */
  lemma OverwrittenWhileRead(log: Log, start: nat, p: nat, slot: nat, copied: Id, id: Id)
    requires start <= p && p + 6 <= |log|
    requires log[p..p + 5] == CopyCommands(slot, copied)
    requires log[p + 5] == KernelBegin(Ring(slot), id)
    ensures !AlwaysSafe(log, start)
  {
    CopyAt(log, p, slot, copied);
    var run0 := IssueOrderReachable(log, start, p);
    var run1 := RunOn(log, start, run0, Transfer, 2);
    forall q: nat | p <= q < p + 6 ensures StreamOf(log[q]) == Compute ==> !log[q].Wait? {
      assert q == p || q == p + 1 || q == p + 2 || q == p + 3 || q == p + 4 || q == p + 5;
    }
    var run2 := RunOn(log, start, run1, Compute, 6);
    assert run2[|run2| - 1] == Cursors(p + 2, p + 6);
    InTheMiddle(log, p, slot, copied, id);
    assert !Safe(log, run2[|run2| - 1]);
  }

  lemma InTheMiddle(log: Log, p: nat, slot: nat, copied: Id, id: Id)
    requires p + 6 <= |log|
    requires log[p + 1] == CopyBegin(Ring(slot), copied) && log[p + 5] == KernelBegin(Ring(slot), id)
    ensures WriteInFlight(log, p + 2, Ring(slot)) && KernelInFlight(log, p + 6, Ring(slot), id)
  {
  }

  /** The kernel starts after another block was copied into its buffer. */
  lemma ReadsAnotherBlock(log: Log, start: nat, p: nat, slot: nat, copied: Id, id: Id)
    requires start <= p && p + 7 <= |log| && copied != id
    requires log[p..p + 5] == CopyCommands(slot, copied) && log[p + 5].Wait?
    requires log[p + 6] == KernelBegin(Ring(slot), id)
    ensures !AlwaysSafe(log, start)
  {
    CopyAt(log, p, slot, copied);
    var run := IssueOrderReachable(log, start, p + 7);
    QuietContent(log, Ring(slot), p + 3, p + 7);
    assert ContentAt(log, p + 3, Ring(slot)) == Holds(copied);
    assert KernelInFlight(log, p + 7, Ring(slot), id);
    assert !Safe(log, run[|run| - 1]);
  }

  /** The discipline is necessary: once a transfer lands on the slot of an
      outstanding block, a kernel on that block has an interleaving in which its
      buffer is being overwritten, or already holds another block. */
  lemma UndisciplinedIsUnsafe(cfg: Config, s: Session, call: Call, id: Id)
    requires Consistent(cfg, s.host) && Transfers(cfg, s, call) && call.id != id
    requires id in s.lent && s.lent[id] == Ring(s.host.next)
    ensures !AlwaysSafe(Run(cfg, s, [call, LaunchCall(id)]).host.log, cfg.start)
  {
    var h := s.host;
    RunTwo(cfg, s, call, LaunchCall(id));
    FetchSplits(cfg, h, call.id);
    var p := |AwaitFree(h).log|;
    var copy := CopyCommands(h.next, call.id);
    var launch := LaunchCommands(Ring(h.next), id);
    var log := Run(cfg, s, [call, LaunchCall(id)]).host.log;
    if call.PrefetchCall? {
      assert log == AwaitFree(h).log + copy + launch;
      assert log[p..p + 5] == copy && log[p + 5] == launch[0];
      OverwrittenWhileRead(log, cfg.start, p, h.next, call.id, id);
    } else {
      var ready := Fetch(cfg, h, call.id).1.ready;
      assert log == AwaitFree(h).log + copy + [Wait(Compute, ready)] + launch;
      assert log[p..p + 5] == copy && log[p + 5].Wait? && log[p + 6] == launch[0];
      ReadsAnotherBlock(log, cfg.start, p, h.next, call.id, id);
    }
  }
}
