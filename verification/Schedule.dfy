/** The client that `attach_engine` installs: one prefetch of the first block,
    then, for every block of every forward pass, get, prefetch ahead, run, done. */
module Schedule {
  import opened Common
  import opened Arithmetic
  import opened Device
  import opened Engine
  import opened Protocol
  import opened Safety
  import opened Fifo
  import opened Plan

  function PrefetchCalls(cfg: Config, ahead: nat, q: nat): seq<Call> {
    if q + ahead < |cfg.order| then [PrefetchCall(cfg.order[q + ahead])] else []
  }

  /** Pre-hook, forward and post-hook of the block at position `q`. */
  function PositionCalls(cfg: Config, ahead: nat, q: nat): seq<Call>
    requires q < |cfg.order|
  {
    var id := cfg.order[q];
    [GetCall(id)] + (PrefetchCalls(cfg, ahead, q) + [LaunchCall(id), DoneCall(id)])
  }

  /** A forward pass up to position `q`. */
  function PassCalls(cfg: Config, ahead: nat, q: nat): seq<Call>
    requires q <= |cfg.order|
  {
    if q == 0 then [] else PassCalls(cfg, ahead, q - 1) + PositionCalls(cfg, ahead, q - 1)
  }

  /** Attach, then `steps` whole forward passes. */
  function AttachCalls(cfg: Config, ahead: nat, steps: nat): seq<Call>
    requires cfg.order != []
  {
    if steps == 0 then [PrefetchCall(cfg.order[0])]
    else AttachCalls(cfg, ahead, steps - 1) + PassCalls(cfg, ahead, |cfg.order|)
  }

  // ------------------------------------------------------------ one position

  ghost predicate Ready(cfg: Config, h: Host, trace: seq<Id>) {
    && RingInv(h) && |h.slots| == cfg.slotCount && Transferred(h) == trace && Consistent(cfg, h)
    && StreamingFits(cfg)
  }

  /** Every block has a size, and every streaming block fits a ring slot. */
  ghost predicate StreamingFits(cfg: Config) {
    forall id :: id in cfg.order ==> id in cfg.bytes && (id !in cfg.resident ==> FitsSlot(cfg, id))
  }

  /** Between positions nothing is outstanding. */
  ghost predicate Idle(cfg: Config, s: Session, trace: seq<Id>) {
    Ready(cfg, s.host, trace) && s.lent == map[]
  }

  /** Between its get and its done, exactly block `q` is outstanding. */
  ghost predicate Running(cfg: Config, s: Session, trace: seq<Id>, q: nat) {
    && Ready(cfg, s.host, trace) && q < |cfg.order|
    && s.lent.Keys == {cfg.order[q]}
    && var loc := s.lent[cfg.order[q]];
       if Streams(cfg, q)
       then loc.Ring? && loc.slot < |s.host.slots| && s.host.slots[loc.slot].occupant == Some(cfg.order[q])
       else loc == Pool(cfg.order[q])
  }

  predicate GetAsPlanned(cfg: Config, trace: seq<Id>, pattern: Pattern, q: nat) {
    Streams(cfg, q) ==> (GetTransfers(cfg, pattern, q) <==> cfg.order[q] !in Recent(trace, cfg.slotCount))
  }

  predicate PrefetchAsPlanned(cfg: Config, ahead: nat, trace: seq<Id>, pattern: Pattern, q: nat) {
    Streams(cfg, q + ahead) ==>
      (PrefetchTransfers(cfg, ahead, pattern, q) <==> cfg.order[q + ahead] !in Recent(trace, cfg.slotCount))
  }

  /** A prefetch while block `q` runs leaves its slot alone: the ring is not full,
      or block `q` is not the oldest of the last `S` transfers. */
  ghost predicate Spared(cfg: Config, ahead: nat, trace: seq<Id>, pattern: Pattern, q: nat) {
    Streams(cfg, q) && PrefetchTransfers(cfg, ahead, pattern, q) ==>
      || |trace| < cfg.slotCount
      || exists i: nat :: |trace| - cfg.slotCount < i < |trace| && trace[i] == cfg.order[q]
  }

  ghost predicate PositionOk(cfg: Config, ahead: nat, base: seq<Id>, pattern: Pattern, q: nat) {
    var got := base + PlannedGot(cfg, ahead, pattern, q);
    && GetAsPlanned(cfg, base + Planned(cfg, ahead, pattern, q), pattern, q)
    && PrefetchAsPlanned(cfg, ahead, got, pattern, q)
    && Spared(cfg, ahead, got, pattern, q)
  }

  lemma RunOne(cfg: Config, s: Session, call: Call)
    requires WellFormed(s.host)
    ensures Run(cfg, s, [call]) == Apply(cfg, s, call)
    ensures Disciplined(cfg, s, [call]) <==> CallOk(cfg, s, call)
  {
    assert [call][..0] == [];
  }

  lemma ReadyStays(cfg: Config, s: Session, call: Call, trace: seq<Id>)
    requires Ready(cfg, s.host, trace) && call.id in cfg.order
    ensures Ready(cfg, Apply(cfg, s, call).host,
      if (call.PrefetchCall? || call.GetCall?) && call.id !in cfg.resident
      then Touch(trace, cfg.slotCount, call.id) else trace)
  {
    ApplyRefines(cfg, s, call);
    ApplyConsistent(cfg, s, call);
  }

  lemma GetRuns(cfg: Config, s: Session, trace: seq<Id>, pattern: Pattern, q: nat)
    requires Idle(cfg, s, trace) && q < |cfg.order|
    requires GetAsPlanned(cfg, trace, pattern, q)
    ensures var s' := Run(cfg, s, [GetCall(cfg.order[q])]);
      Running(cfg, s', trace + GetPart(cfg, pattern, q), q)
    ensures Disciplined(cfg, s, [GetCall(cfg.order[q])])
  {
    var call := GetCall(cfg.order[q]);
    RunOne(cfg, s, call);
    ReadyStays(cfg, s, call, trace);
    IssuePlaces(cfg, s.host, cfg.order[q]);
    assert trace + [] == trace;
  }

  /** The slot a prefetch takes is not the running block's. */
  lemma PrefetchSpares(cfg: Config, ahead: nat, s: Session, trace: seq<Id>, pattern: Pattern, q: nat)
    requires Running(cfg, s, trace, q) && Spared(cfg, ahead, trace, pattern, q)
    requires PrefetchTransfers(cfg, ahead, pattern, q)
    ensures Ring(s.host.next) !in s.lent.Values
  {
    var h, n := s.host, cfg.slotCount;
    if Streams(cfg, q) {
      var j := s.lent[cfg.order[q]].slot;
      Victim(h);
      if |trace| >= n {
        var i: nat :| |trace| - n < i < |trace| && trace[i] == cfg.order[q];
        assert h.slots[i % n].occupant == Some(cfg.order[q]);
        assert i % n == j;
        ModBack(|trace|, n);
        ModApart(|trace| - n, i, n);
      }
      assert s.host.next != j;
    }
    forall v | v in s.lent.Values ensures v != Ring(h.next) {
      assert v == s.lent[cfg.order[q]];
    }
  }

  lemma PrefetchRuns(cfg: Config, ahead: nat, s: Session, trace: seq<Id>, pattern: Pattern, q: nat)
    requires Running(cfg, s, trace, q) && q + ahead < |cfg.order|
    requires PrefetchAsPlanned(cfg, ahead, trace, pattern, q) && Spared(cfg, ahead, trace, pattern, q)
    ensures var call := PrefetchCall(cfg.order[q + ahead]);
      && Running(cfg, Apply(cfg, s, call), trace + PrefetchPart(cfg, ahead, pattern, q), q)
      && CallOk(cfg, s, call)
  {
    var call := PrefetchCall(cfg.order[q + ahead]);
    ReadyStays(cfg, s, call, trace);
    assert trace + [] == trace;
    SlotsAreRecent(s.host, call.id);
    if PrefetchTransfers(cfg, ahead, pattern, q) {
      PrefetchSpares(cfg, ahead, s, trace, pattern, q);
      assert s.lent[cfg.order[q]] in s.lent.Values;
    }
  }

  lemma FinishRuns(cfg: Config, s: Session, trace: seq<Id>, q: nat)
    requires Running(cfg, s, trace, q)
    ensures var calls := [LaunchCall(cfg.order[q]), DoneCall(cfg.order[q])];
      Idle(cfg, Run(cfg, s, calls), trace) && Disciplined(cfg, s, calls)
  {
    var launch, done := LaunchCall(cfg.order[q]), DoneCall(cfg.order[q]);
    RunTwo(cfg, s, launch, done);
    assert [launch, done][..1] == [launch];
    RunOne(cfg, s, launch);
    ReadyStays(cfg, s, launch, trace);
    ReadyStays(cfg, Apply(cfg, s, launch), done, trace);
  }

  lemma RestRuns(cfg: Config, ahead: nat, s: Session, trace: seq<Id>, pattern: Pattern, q: nat)
    requires Running(cfg, s, trace, q)
    requires PrefetchAsPlanned(cfg, ahead, trace, pattern, q) && Spared(cfg, ahead, trace, pattern, q)
    ensures var calls := PrefetchCalls(cfg, ahead, q) + [LaunchCall(cfg.order[q]), DoneCall(cfg.order[q])];
      && Idle(cfg, Run(cfg, s, calls), trace + PrefetchPart(cfg, ahead, pattern, q))
      && Disciplined(cfg, s, calls)
  {
    var finish := [LaunchCall(cfg.order[q]), DoneCall(cfg.order[q])];
    RunConcat(cfg, s, PrefetchCalls(cfg, ahead, q), finish);
    if q + ahead < |cfg.order| {
      var call := PrefetchCall(cfg.order[q + ahead]);
      PrefetchRuns(cfg, ahead, s, trace, pattern, q);
      RunOne(cfg, s, call);
      FinishRuns(cfg, Apply(cfg, s, call), trace + PrefetchPart(cfg, ahead, pattern, q), q);
    } else {
      assert trace + PrefetchPart(cfg, ahead, pattern, q) == trace;
      FinishRuns(cfg, s, trace, q);
    }
  }

  lemma PositionParts(cfg: Config, ahead: nat, base: seq<Id>, pattern: Pattern, q: nat)
    ensures base + Planned(cfg, ahead, pattern, q) + GetPart(cfg, pattern, q)
         == base + PlannedGot(cfg, ahead, pattern, q)
    ensures base + PlannedGot(cfg, ahead, pattern, q) + PrefetchPart(cfg, ahead, pattern, q)
         == base + Planned(cfg, ahead, pattern, q + 1)
  {
  }

  lemma PositionRuns(cfg: Config, ahead: nat, s: Session, base: seq<Id>, pattern: Pattern, q: nat)
    requires q < |cfg.order|
    requires Idle(cfg, s, base + Planned(cfg, ahead, pattern, q)) && PositionOk(cfg, ahead, base, pattern, q)
    ensures Idle(cfg, Run(cfg, s, PositionCalls(cfg, ahead, q)), base + Planned(cfg, ahead, pattern, q + 1))
    ensures Disciplined(cfg, s, PositionCalls(cfg, ahead, q))
  {
    var get := [GetCall(cfg.order[q])];
    PositionParts(cfg, ahead, base, pattern, q);
    RunConcat(cfg, s, get, PrefetchCalls(cfg, ahead, q) + [LaunchCall(cfg.order[q]), DoneCall(cfg.order[q])]);
    GetRuns(cfg, s, base + Planned(cfg, ahead, pattern, q), pattern, q);
    RestRuns(cfg, ahead, Run(cfg, s, get), base + PlannedGot(cfg, ahead, pattern, q), pattern, q);
  }

  // ------------------------------------------------------------- whole passes

  /** The calls are disciplined and end idle with `trace` transferred. */
  ghost predicate Reaches(cfg: Config, s: Session, calls: seq<Call>, trace: seq<Id>)
    requires WellFormed(s.host)
  {
    Idle(cfg, Run(cfg, s, calls), trace) && Disciplined(cfg, s, calls)
  }

  lemma ReachesNext(
      cfg: Config, ahead: nat, s: Session, calls: seq<Call>, base: seq<Id>, pattern: Pattern, q: nat)
    requires WellFormed(s.host) && q < |cfg.order| && PositionOk(cfg, ahead, base, pattern, q)
    requires Reaches(cfg, s, calls, base + Planned(cfg, ahead, pattern, q))
    ensures Reaches(cfg, s, calls + PositionCalls(cfg, ahead, q), base + Planned(cfg, ahead, pattern, q + 1))
  {
    RunConcat(cfg, s, calls, PositionCalls(cfg, ahead, q));
    PositionRuns(cfg, ahead, Run(cfg, s, calls), base, pattern, q);
  }

  lemma PassCallsStep(cfg: Config, ahead: nat, calls: seq<Call>, q: nat)
    requires q < |cfg.order|
    ensures calls + PassCalls(cfg, ahead, q + 1) == calls + PassCalls(cfg, ahead, q) + PositionCalls(cfg, ahead, q)
  {
  }

  ghost predicate PositionsOk(cfg: Config, ahead: nat, base: seq<Id>, pattern: Pattern, lo: nat, hi: nat) {
    forall q: nat :: lo <= q < hi ==> PositionOk(cfg, ahead, base, pattern, q)
  }

  /** Position `q` of a pass is reached as planned. */
  ghost predicate PassReaches(
      cfg: Config, ahead: nat, s: Session, calls: seq<Call>, base: seq<Id>, pattern: Pattern, q: nat)
    requires WellFormed(s.host) && q <= |cfg.order|
  {
    Reaches(cfg, s, calls + PassCalls(cfg, ahead, q), base + Planned(cfg, ahead, pattern, q))
  }

  lemma PassGoesOn(
      cfg: Config, ahead: nat, s: Session, calls: seq<Call>, base: seq<Id>, pattern: Pattern, q: nat)
    requires WellFormed(s.host) && q < |cfg.order| && PositionOk(cfg, ahead, base, pattern, q)
    requires PassReaches(cfg, ahead, s, calls, base, pattern, q)
    ensures PassReaches(cfg, ahead, s, calls, base, pattern, q + 1)
  {
    PassCallsStep(cfg, ahead, calls, q);
    ReachesNext(cfg, ahead, s, calls + PassCalls(cfg, ahead, q), base, pattern, q);
  }

  /** A pass, from position `lo` on, transfers exactly what its pattern plans. */
  lemma {:induction false} PassRuns(
      cfg: Config, ahead: nat, s: Session, calls: seq<Call>, base: seq<Id>, pattern: Pattern, lo: nat, hi: nat)
    requires WellFormed(s.host) && lo <= hi <= |cfg.order|
    requires PassReaches(cfg, ahead, s, calls, base, pattern, lo)
    requires PositionsOk(cfg, ahead, base, pattern, lo, hi)
    ensures PassReaches(cfg, ahead, s, calls, base, pattern, hi)
    decreases hi
  {
    if lo < hi {
      PassRuns(cfg, ahead, s, calls, base, pattern, lo, hi - 1);
      PassGoesOn(cfg, ahead, s, calls, base, pattern, hi - 1);
    }
  }

  lemma OpenedReady(cfg: Config, hasShared: bool, ids: seq<Id>)
    requires EngineConfig(cfg, hasShared, ids)
    ensures Idle(cfg, Opened(hasShared, ids, cfg.slotCount), [])
  {
    OpenedInv(cfg, hasShared, ids);
    ModOf(0, cfg.slotCount, 0);
  }

  lemma AttachPrefetches(cfg: Config, hasShared: bool, ids: seq<Id>, cut: nat)
    requires EngineConfig(cfg, hasShared, ids) && cfg.order != [] && cut > 0
    ensures Reaches(cfg, Opened(hasShared, ids, cfg.slotCount),
      [PrefetchCall(cfg.order[0])], GetPart(cfg, First(cut), 0))
  {
    var s := Opened(hasShared, ids, cfg.slotCount);
    OpenedReady(cfg, hasShared, ids);
    RunOne(cfg, s, PrefetchCall(cfg.order[0]));
    ReadyStays(cfg, s, PrefetchCall(cfg.order[0]), []);
  }

  /** The initial prefetch stands in for the first get, which then hits. */
  lemma FirstGetHits(cfg: Config, s: Session, calls: seq<Call>, cut: nat)
    requires WellFormed(s.host) && cfg.order != [] && cut > 0 && cfg.slotCount > 0
    requires Reaches(cfg, s, calls, GetPart(cfg, First(cut), 0))
    ensures var calls' := calls + [GetCall(cfg.order[0])];
      Running(cfg, Run(cfg, s, calls'), GetPart(cfg, First(cut), 0), 0) && Disciplined(cfg, s, calls')
  {
    var trace := GetPart(cfg, First(cut), 0);
    GetRuns(cfg, Run(cfg, s, calls), trace, Settled, 0);
    assert trace + GetPart(cfg, Settled, 0) == trace;
    RunConcat(cfg, s, calls, [GetCall(cfg.order[0])]);
  }

  lemma FirstRestRuns(cfg: Config, ahead: nat, s: Session, calls: seq<Call>, cut: nat)
    requires WellFormed(s.host) && cfg.order != [] && cut > 0 && cfg.slotCount > 1
    requires PrefetchAsPlanned(cfg, ahead, GetPart(cfg, First(cut), 0), First(cut), 0)
    requires Running(cfg, Run(cfg, s, calls), GetPart(cfg, First(cut), 0), 0) && Disciplined(cfg, s, calls)
    ensures Reaches(cfg, s,
      calls + (PrefetchCalls(cfg, ahead, 0) + [LaunchCall(cfg.order[0]), DoneCall(cfg.order[0])]),
      GetPart(cfg, First(cut), 0) + PrefetchPart(cfg, ahead, First(cut), 0))
  {
    var trace := GetPart(cfg, First(cut), 0);
    assert Streams(cfg, 0) ==> trace[0] == cfg.order[0];
    RestRuns(cfg, ahead, Run(cfg, s, calls), trace, First(cut), 0);
    RunConcat(cfg, s, calls, PrefetchCalls(cfg, ahead, 0) + [LaunchCall(cfg.order[0]), DoneCall(cfg.order[0])]);
  }

  lemma FirstPositionCalls(cfg: Config, ahead: nat)
    requires cfg.order != []
    ensures AttachCalls(cfg, ahead, 0) + PassCalls(cfg, ahead, 1) ==
      [PrefetchCall(cfg.order[0])] + [GetCall(cfg.order[0])] +
      (PrefetchCalls(cfg, ahead, 0) + [LaunchCall(cfg.order[0]), DoneCall(cfg.order[0])])
    ensures forall cut ::
      Planned(cfg, ahead, First(cut), 1) == GetPart(cfg, First(cut), 0) + PrefetchPart(cfg, ahead, First(cut), 0)
  {
    assert PassCalls(cfg, ahead, 0) == [];
    assert forall cut :: Planned(cfg, ahead, First(cut), 0) == [];
  }

  /** Attaching and running the first block. */
  lemma FirstPositionRuns(cfg: Config, ahead: nat, hasShared: bool, ids: seq<Id>, cut: nat)
    requires EngineConfig(cfg, hasShared, ids) && cfg.order != [] && cut > 0 && cfg.slotCount > 1
    requires PrefetchAsPlanned(cfg, ahead, GetPart(cfg, First(cut), 0), First(cut), 0)
    ensures Reaches(cfg, Opened(hasShared, ids, cfg.slotCount),
      AttachCalls(cfg, ahead, 0) + PassCalls(cfg, ahead, 1), Planned(cfg, ahead, First(cut), 1))
  {
    var s := Opened(hasShared, ids, cfg.slotCount);
    AttachPrefetches(cfg, hasShared, ids, cut);
    FirstGetHits(cfg, s, [PrefetchCall(cfg.order[0])], cut);
    FirstRestRuns(cfg, ahead, s, [PrefetchCall(cfg.order[0])] + [GetCall(cfg.order[0])], cut);
    FirstPositionCalls(cfg, ahead);
  }
}
