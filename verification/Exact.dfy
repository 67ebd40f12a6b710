/** The guard `slotCount > ahead` is not enough beyond a prefetch distance of
    one: the exact condition for every resident selection that block sizes and a
    budget can lead to, and for none. */
module Exact {
  import opened Common
  import opened Device
  import opened Engine
  import opened Protocol
  import opened Safety
  import opened Fifo
  import opened Plan
  import opened Schedule
  import opened Windows
  import opened Regimes
  import opened Attach
  import opened Thrash
  import opened Residents

  /** The largest size among the first `k` blocks. */
  function MaxBytes(order: seq<Id>, bytes: map<Id, nat>, k: nat): (c: nat)
    requires k <= |order| && forall id :: id in order ==> id in bytes
    ensures forall i :: 0 <= i < k ==> bytes[order[i]] <= c
  {
    if k == 0 then 0
    else
      var c := MaxBytes(order, bytes, k - 1);
      if bytes[order[k - 1]] > c then bytes[order[k - 1]] else c
  }

  function ReadyMap(hasShared: bool, ids: seq<Id>): map<Id, nat> {
    if ids == [] then map[]
    else ReadyMap(hasShared, ids[..|ids| - 1])[ids[|ids| - 1] := ReadyIndex(hasShared, |ids| - 1)]
  }

  lemma {:induction false} ReadyMapIsTable(hasShared: bool, ids: seq<Id>)
    requires Distinct(ids)
    ensures ReadyTable(ReadyMap(hasShared, ids), hasShared, ids)
  {
    if ids != [] {
      var before := ids[..|ids| - 1];
      ReadyMapIsTable(hasShared, before);
      assert ids == before + [ids[|ids| - 1]];
      assert forall i :: 0 <= i < |before| ==> before[i] == ids[i];
      ReadyTableStep(ReadyMap(hasShared, before), hasShared, before, ids[|ids| - 1]);
    }
  }

  /** An engine with the given blocks, ring and residents. */
  function Built(order: seq<Id>, bytes: map<Id, nat>, hasShared: bool, ids: seq<Id>, slotCount: nat): Config
    requires forall id :: id in order ==> id in bytes
  {
    Config(order, bytes, ReadyMap(hasShared, ids), |SyncedLog(hasShared, ids)|, slotCount,
      MaxBytes(order, bytes, |order|))
  }

  lemma BuiltIsConfig(order: seq<Id>, bytes: map<Id, nat>, hasShared: bool, ids: seq<Id>, slotCount: nat)
    requires Distinct(order) && UNASSIGNED !in order && slotCount > 0
    requires forall id :: id in order ==> id in bytes
    requires Distinct(ids) && forall id :: id in ids ==> id in order
    ensures EngineConfig(Built(order, bytes, hasShared, ids, slotCount), hasShared, ids)
  {
    ReadyMapIsTable(hasShared, ids);
  }

  // ------------------------------------------------------- the failing family

  /** Keeping positions `1` up to `2 * ahead - slotCount` resident makes the ring
      exactly one slot short. */
  function Squeezed(order: seq<Id>, ahead: nat, slotCount: nat): seq<Id>
    requires ahead < slotCount < 2 * ahead < |order|
  {
    order[1..2 * ahead - slotCount]
  }

  lemma SqueezedStreams(cfg: Config, ahead: nat, hasShared: bool, q: nat)
    requires ahead < cfg.slotCount < 2 * ahead < |cfg.order| && Distinct(cfg.order) && q < |cfg.order|
    requires ReadyTable(cfg.resident, hasShared, Squeezed(cfg.order, ahead, cfg.slotCount))
    ensures Streams(cfg, q) <==> q == 0 || 2 * ahead - cfg.slotCount <= q
  {
    var ids := Squeezed(cfg.order, ahead, cfg.slotCount);
    if 1 <= q < 2 * ahead - cfg.slotCount {
      assert ids[q - 1] == cfg.order[q];
    }
    if cfg.order[q] in ids {
      var k :| 0 <= k < |ids| && ids[k] == cfg.order[q];
      assert cfg.order[k + 1] == cfg.order[q];
    }
  }

  lemma {:induction false} SqueezedBelow(cfg: Config, ahead: nat, hasShared: bool, x: nat)
    requires ahead < cfg.slotCount < 2 * ahead < |cfg.order| && Distinct(cfg.order)
    requires ReadyTable(cfg.resident, hasShared, Squeezed(cfg.order, ahead, cfg.slotCount))
    requires 1 <= x <= |cfg.order|
    ensures Below(cfg, x) == if x <= 2 * ahead - cfg.slotCount then 1 else x - (2 * ahead - cfg.slotCount - 1)
  {
    SqueezedStreams(cfg, ahead, hasShared, x - 1);
    if x == 1 {
      assert Below(cfg, 0) == 0;
    } else {
      SqueezedBelow(cfg, ahead, hasShared, x - 1);
    }
  }

  /** The first `ahead` positions run as planned even in a shallow ring. */
  lemma OpeningOk(cfg: Config, ahead: nat)
    requires Distinct(cfg.order) && 1 <= ahead < |cfg.order| && cfg.slotCount > 1
    ensures PositionsOk(cfg, ahead, [], First(ahead), 1, ahead)
  {
    forall q: nat | 1 <= q < ahead ensures PositionOk(cfg, ahead, [], First(ahead), q) {
      NeverPlanned(cfg, ahead, First(ahead), q, q);
      FirstPrefetch(cfg, ahead, ahead, q);
      EarlySpared(cfg, ahead, [], First(ahead), q);
      assert [] + Planned(cfg, ahead, First(ahead), q) == Planned(cfg, ahead, First(ahead), q);
      assert [] + PlannedGot(cfg, ahead, First(ahead), q) == PlannedGot(cfg, ahead, First(ahead), q);
    }
  }

  ghost predicate SqueezedConfig(cfg: Config, ahead: nat, hasShared: bool) {
    && ahead < cfg.slotCount < 2 * ahead < |cfg.order|
    && EngineConfig(cfg, hasShared, Squeezed(cfg.order, ahead, cfg.slotCount))
  }

  lemma SqueezedKeyBlocks(cfg: Config, ahead: nat, hasShared: bool)
    requires SqueezedConfig(cfg, ahead, hasShared)
    ensures Streams(cfg, 0) && Streams(cfg, ahead) && Streams(cfg, 2 * ahead)
  {
    SqueezedStreams(cfg, ahead, hasShared, 0);
    SqueezedStreams(cfg, ahead, hasShared, ahead);
    SqueezedStreams(cfg, ahead, hasShared, 2 * ahead);
  }

  lemma OpeningLength(cfg: Config, ahead: nat, twice: nat)
    requires twice == ahead + ahead
    ensures |Planned(cfg, ahead, First(ahead), ahead)| == Below(cfg, twice)
  {
    FirstLengths(cfg, ahead, ahead, ahead);
    assert Min(ahead, ahead) == ahead;
  }

  lemma SqueezedTotal(cfg: Config, ahead: nat, hasShared: bool, twice: nat)
    requires SqueezedConfig(cfg, ahead, hasShared) && twice == 2 * ahead
    ensures Below(cfg, twice) == cfg.slotCount + 1
  {
    SqueezedBelow(cfg, ahead, hasShared, twice);
  }

  lemma SqueezedSecond(cfg: Config, ahead: nat)
    requires 1 <= ahead && Streams(cfg, 0) && Streams(cfg, ahead)
    requires |Planned(cfg, ahead, First(ahead), ahead)| > 1
    ensures Planned(cfg, ahead, First(ahead), ahead)[1] == cfg.order[ahead]
  {
    assert PlannedGot(cfg, ahead, First(ahead), 0) == [cfg.order[0]];
    PrefetchEntry(cfg, ahead, First(ahead), 0, ahead);
  }

  /** When block `ahead` is about to run, it is the second of `slotCount + 1` transfers. */
  lemma SqueezedTrace(cfg: Config, ahead: nat, hasShared: bool)
    requires SqueezedConfig(cfg, ahead, hasShared)
    ensures var trace := Planned(cfg, ahead, First(ahead), ahead);
      |trace| == cfg.slotCount + 1 && trace[1] == cfg.order[ahead]
    ensures Streams(cfg, ahead) && Streams(cfg, 2 * ahead)
  {
    SqueezedKeyBlocks(cfg, ahead, hasShared);
    SqueezedTotal(cfg, ahead, hasShared, 2 * ahead);
    OpeningLength(cfg, ahead, 2 * ahead);
    SqueezedSecond(cfg, ahead);
  }

  lemma SqueezedRuns(cfg: Config, ahead: nat, hasShared: bool)
    requires SqueezedConfig(cfg, ahead, hasShared)
    ensures Reaches(cfg, Opened(hasShared, Squeezed(cfg.order, ahead, cfg.slotCount), cfg.slotCount),
      AttachCalls(cfg, ahead, 0) + PassCalls(cfg, ahead, ahead), Planned(cfg, ahead, First(ahead), ahead))
  {
    OpeningOk(cfg, ahead);
    FirstPass(cfg, ahead, hasShared, Squeezed(cfg.order, ahead, cfg.slotCount), ahead, ahead);
  }

  /** A running block that was transferred `slotCount` transfers ago sits in the next slot. */
  lemma OldestIsNext(cfg: Config, s: Session, trace: seq<Id>, q: nat)
    requires Running(cfg, s, trace, q) && Streams(cfg, q)
    requires |trace| == cfg.slotCount + 1 && trace[1] == cfg.order[q]
    ensures s.lent[cfg.order[q]] == Ring(s.host.next)
  {
    Victim(s.host);
    assert s.host.slots[s.host.next].occupant == Some(cfg.order[q]);
  }

  lemma OldestHits(cfg: Config, s: Session, trace: seq<Id>, cut: nat, q: nat)
    requires Idle(cfg, s, trace) && Streams(cfg, q) && q >= cut
    requires |trace| == cfg.slotCount + 1 && trace[1] == cfg.order[q]
    ensures Running(cfg, Run(cfg, s, [GetCall(cfg.order[q])]), trace, q)
  {
    IsRecent(trace, cfg.slotCount, cfg.order[q], 1);
    GetRuns(cfg, s, trace, First(cut), q);
    assert trace + GetPart(cfg, First(cut), q) == trace;
  }

  /** Getting that block hits, and leaves the ring's next slot its own. */
  lemma SqueezedGets(cfg: Config, ahead: nat, hasShared: bool, s: Session)
    requires SqueezedConfig(cfg, ahead, hasShared)
    requires Idle(cfg, s, Planned(cfg, ahead, First(ahead), ahead))
    ensures var s' := Run(cfg, s, [GetCall(cfg.order[ahead])]);
      && Running(cfg, s', Planned(cfg, ahead, First(ahead), ahead), ahead)
      && s'.lent[cfg.order[ahead]] == Ring(s'.host.next)
  {
    SqueezedTrace(cfg, ahead, hasShared);
    OldestHits(cfg, s, Planned(cfg, ahead, First(ahead), ahead), ahead, ahead);
    OldestIsNext(cfg, Run(cfg, s, [GetCall(cfg.order[ahead])]), Planned(cfg, ahead, First(ahead), ahead), ahead);
  }

  lemma LogsGrow(cfg: Config, s: Session, calls: seq<Call>)
    requires WellFormed(s.host)
    ensures s.host.log <= Run(cfg, s, calls).host.log
  {
    RunWritesRingOnly(cfg, s, calls, |s.host.log|);
  }

  lemma UnsafePrefix(log: Log, more: Log, start: nat)
    requires !AlwaysSafe(log, start) && start <= |log|
    requires forall w: nat :: w < start ==> !Binds(log, w)
    ensures !AlwaysSafe(log + more, start)
  {
    var run: seq<Cursors>, k :| Execution(log, start, run) && 0 <= k < |run| &&
      !(InRange(log, run[k]) && Safe(log, run[k]));
    ExecutionInvariant(log, start, run, k);
    EnabledPrefix(log, more, start, run);
    var loc, id :| KernelInFlight(log, run[k].compute, loc, id) &&
      !(!WriteInFlight(log, run[k].transfer, loc) && ContentAt(log, run[k].transfer, loc) == Holds(id));
    FlightPrefix(log, more, run[k].compute, loc, id);
    FlightPrefix(log, more, run[k].transfer, loc, id);
    ContentPrefix(log, more, run[k].transfer, loc);
    assert !Safe(log + more, run[k]);
  }

  lemma {:induction false} FlightPrefix(log: Log, more: Log, t: nat, loc: Loc, id: Id)
    requires t <= |log|
    ensures WriteInFlight(log + more, t, loc) == WriteInFlight(log, t, loc)
    ensures KernelInFlight(log + more, t, loc, id) == KernelInFlight(log, t, loc, id)
  {
    if t > 0 {
      FlightPrefix(log, more, t - 1, loc, id);
    }
  }

  lemma SqueezedMisses(cfg: Config, ahead: nat, s: Session, twice: nat)
    requires Distinct(cfg.order) && 1 <= ahead && cfg.slotCount > 1 && twice == ahead + ahead && Streams(cfg, twice)
    requires Running(cfg, s, Planned(cfg, ahead, First(ahead), ahead), ahead)
    ensures Transfers(cfg, s, PrefetchCall(cfg.order[twice]))
  {
    FirstPrefetch(cfg, ahead, ahead, ahead);
    assert PlannedGot(cfg, ahead, First(ahead), ahead) == Planned(cfg, ahead, First(ahead), ahead);
    SlotsAreRecent(s.host, cfg.order[twice]);
  }

  lemma SqueezedBreaks(cfg: Config, ahead: nat, hasShared: bool, s: Session, twice: nat)
    requires SqueezedConfig(cfg, ahead, hasShared) && twice == 2 * ahead
    requires Running(cfg, s, Planned(cfg, ahead, First(ahead), ahead), ahead)
    requires s.lent[cfg.order[ahead]] == Ring(s.host.next)
    ensures !AlwaysSafe(Run(cfg, s, [PrefetchCall(cfg.order[twice]), LaunchCall(cfg.order[ahead])]).host.log, cfg.start)
  {
    SqueezedKeyBlocks(cfg, ahead, hasShared);
    SqueezedMisses(cfg, ahead, s, twice);
    UndisciplinedIsUnsafe(cfg, s, PrefetchCall(cfg.order[twice]), cfg.order[ahead]);
  }

  lemma PositionSplit(cfg: Config, ahead: nat)
    requires 2 * ahead < |cfg.order|
    ensures PassCalls(cfg, ahead, ahead + 1) ==
      PassCalls(cfg, ahead, ahead) + [GetCall(cfg.order[ahead])] +
      [PrefetchCall(cfg.order[2 * ahead]), LaunchCall(cfg.order[ahead])] + [DoneCall(cfg.order[ahead])]
  {
    assert ahead + ahead == 2 * ahead;
  }

  lemma {:induction false} PassPrefix(cfg: Config, ahead: nat, q: nat, hi: nat) returns (rest: seq<Call>)
    requires q <= hi <= |cfg.order|
    ensures PassCalls(cfg, ahead, hi) == PassCalls(cfg, ahead, q) + rest
    decreases hi
  {
    if q == hi {
      rest := [];
    } else {
      var before := PassPrefix(cfg, ahead, q, hi - 1);
      rest := before + PositionCalls(cfg, ahead, hi - 1);
    }
  }

  lemma UnsafeExtension(log: Log, log': Log, start: nat)
    requires !AlwaysSafe(log, start) && start <= |log| && log <= log'
    requires forall w: nat :: w < start ==> !Binds(log, w)
    ensures !AlwaysSafe(log', start)
  {
    assert log' == log + log'[|log|..];
    UnsafePrefix(log, log'[|log|..], start);
  }

  lemma UnsafeThenMore(cfg: Config, s: Session, calls: seq<Call>, more: seq<Call>)
    requires Inv(cfg, s) && !AlwaysSafe(Run(cfg, s, calls).host.log, cfg.start)
    ensures !AlwaysSafe(Run(cfg, s, calls + more).host.log, cfg.start)
  {
    var mid := Run(cfg, s, calls);
    RunConcat(cfg, s, calls, more);
    RunConsistent(cfg, s, calls);
    LogsGrow(cfg, mid, more);
    UnsafeExtension(mid.host.log, Run(cfg, mid, more).host.log, cfg.start);
  }

  lemma SqueezedBegins(cfg: Config, ahead: nat, hasShared: bool)
    requires SqueezedConfig(cfg, ahead, hasShared)
    ensures var s := Opened(hasShared, Squeezed(cfg.order, ahead, cfg.slotCount), cfg.slotCount);
      !AlwaysSafe(Run(cfg, s, AttachCalls(cfg, ahead, 0) + PassCalls(cfg, ahead, ahead) +
        [GetCall(cfg.order[ahead])] +
        [PrefetchCall(cfg.order[2 * ahead]), LaunchCall(cfg.order[ahead])]).host.log, cfg.start)
  {
    var s := Opened(hasShared, Squeezed(cfg.order, ahead, cfg.slotCount), cfg.slotCount);
    var opening := AttachCalls(cfg, ahead, 0) + PassCalls(cfg, ahead, ahead);
    var get := [GetCall(cfg.order[ahead])];
    var clash := [PrefetchCall(cfg.order[2 * ahead]), LaunchCall(cfg.order[ahead])];
    OpenedInv(cfg, hasShared, Squeezed(cfg.order, ahead, cfg.slotCount));
    SqueezedRuns(cfg, ahead, hasShared);
    SqueezedGets(cfg, ahead, hasShared, Run(cfg, s, opening));
    RunConcat(cfg, s, opening, get);
    SqueezedBreaks(cfg, ahead, hasShared, Run(cfg, s, opening + get), 2 * ahead);
    RunConcat(cfg, s, opening + get, clash);
  }

  /** The first pass is those calls followed by others. */
  lemma ClashIsInThePass(cfg: Config, ahead: nat) returns (more: seq<Call>)
    requires 2 * ahead < |cfg.order|
    ensures AttachCalls(cfg, ahead, 1) ==
      (AttachCalls(cfg, ahead, 0) + PassCalls(cfg, ahead, ahead) + [GetCall(cfg.order[ahead])] +
       [PrefetchCall(cfg.order[2 * ahead]), LaunchCall(cfg.order[ahead])]) + more
  {
    var opening, got := PassCalls(cfg, ahead, ahead), [GetCall(cfg.order[ahead])];
    var clash := [PrefetchCall(cfg.order[2 * ahead]), LaunchCall(cfg.order[ahead])];
    var rest := PassPrefix(cfg, ahead, ahead + 1, |cfg.order|);
    PositionSplit(cfg, ahead);
    more := [DoneCall(cfg.order[ahead])] + rest;
    assert PassCalls(cfg, ahead, |cfg.order|) == opening + got + clash + more;
    AttachOne(cfg, ahead);
  }

  lemma AttachOne(cfg: Config, ahead: nat)
    requires cfg.order != []
    ensures AttachCalls(cfg, ahead, 1) == AttachCalls(cfg, ahead, 0) + PassCalls(cfg, ahead, |cfg.order|)
  {
  }

  lemma {:induction false} AttachExtends(cfg: Config, ahead: nat, steps: nat) returns (rest: seq<Call>)
    requires cfg.order != [] && steps >= 1
    ensures AttachCalls(cfg, ahead, steps) == AttachCalls(cfg, ahead, 1) + rest
  {
    if steps == 1 {
      rest := [];
    } else {
      var before := AttachExtends(cfg, ahead, steps - 1);
      rest := before + PassCalls(cfg, ahead, |cfg.order|);
    }
  }

  lemma FirstPassRaces(cfg: Config, ahead: nat, hasShared: bool)
    requires SqueezedConfig(cfg, ahead, hasShared)
    ensures !AlwaysSafe(Run(cfg, Opened(hasShared, Squeezed(cfg.order, ahead, cfg.slotCount), cfg.slotCount),
      AttachCalls(cfg, ahead, 1)).host.log, cfg.start)
  {
    var ids := Squeezed(cfg.order, ahead, cfg.slotCount);
    SqueezedBegins(cfg, ahead, hasShared);
    OpenedInv(cfg, hasShared, ids);
    var more := ClashIsInThePass(cfg, ahead);
    UnsafeThenMore(cfg, Opened(hasShared, ids, cfg.slotCount),
      AttachCalls(cfg, ahead, 0) + PassCalls(cfg, ahead, ahead) + [GetCall(cfg.order[ahead])] +
      [PrefetchCall(cfg.order[2 * ahead]), LaunchCall(cfg.order[ahead])], more);
  }

  /** One pass or more of the installed schedule, in a configuration the guard
      admits, has an interleaving in which a buffer is overwritten while it is read. */
  lemma ShallowRingIsUnsafe(cfg: Config, ahead: nat, hasShared: bool, steps: nat)
    requires SqueezedConfig(cfg, ahead, hasShared) && steps >= 1
    ensures !AlwaysSafe(Run(cfg, Opened(hasShared, Squeezed(cfg.order, ahead, cfg.slotCount), cfg.slotCount),
      AttachCalls(cfg, ahead, steps)).host.log, cfg.start)
  {
    var ids := Squeezed(cfg.order, ahead, cfg.slotCount);
    FirstPassRaces(cfg, ahead, hasShared);
    OpenedInv(cfg, hasShared, ids);
    var rest := AttachExtends(cfg, ahead, steps);
    UnsafeThenMore(cfg, Opened(hasShared, ids, cfg.slotCount), AttachCalls(cfg, ahead, 1), rest);
  }

  // ------------------------------------------------------ nothing is resident

  /** With no resident pool, the default, one pass or more is safe if and only if
      the ring is not exactly one slot short of twice the prefetch distance, or the
      model has at most that many blocks. */
  lemma ResidentFreeGuard(cfg: Config, ahead: nat, hasShared: bool, steps: nat)
    requires EngineConfig(cfg, hasShared, []) && Guarded(cfg, ahead) && steps >= 1
    ensures AlwaysSafe(Run(cfg, Opened(hasShared, [], cfg.slotCount), AttachCalls(cfg, ahead, steps)).host.log,
      cfg.start)
      <==> cfg.slotCount != 2 * ahead - 1 || |cfg.order| <= 2 * ahead
  {
    if cfg.slotCount == 2 * ahead - 1 && |cfg.order| > 2 * ahead {
      assert Squeezed(cfg.order, ahead, cfg.slotCount) == [];
      ShallowRingIsUnsafe(cfg, ahead, hasShared, steps);
    } else {
      assert AllStream(cfg);
      AttachIsSafe(cfg, ahead, hasShared, [], steps);
    }
  }

  /** ... as when the engine is built without a resident budget. */
  lemma DefaultGuard(cfg: Config, ahead: nat, hasShared: bool, steps: nat)
    requires SelectedConfig(cfg, hasShared, 0) && Guarded(cfg, ahead) && steps >= 1
    requires forall id :: id in cfg.order ==> cfg.bytes[id] > 0
    ensures var s := Opened(hasShared, GreedyIds(cfg.order, cfg.bytes, 0), cfg.slotCount);
      AlwaysSafe(Run(cfg, s, AttachCalls(cfg, ahead, steps)).host.log, cfg.start)
      <==> cfg.slotCount != 2 * ahead - 1 || |cfg.order| <= 2 * ahead
  {
    NoBudgetNoResidents(cfg.order, cfg.bytes);
    ResidentFreeGuard(cfg, ahead, hasShared, steps);
  }

  // ------------------------------------------------ whatever greedy may select

  /** The installed schedule is safe for every engine over these blocks with this
      ring: whatever the block sizes, the resident budget and so the selection, and
      however many passes run. */
  ghost predicate SafeForAnySizes(order: seq<Id>, slotCount: nat, ahead: nat)
    requires order != []
  {
    forall cfg, hasShared, budget: nat, steps: nat ::
      SelectedConfig(cfg, hasShared, budget) && cfg.order == order && cfg.slotCount == slotCount ==>
        AlwaysSafe(Run(cfg, Opened(hasShared, GreedyIds(cfg.order, cfg.bytes, budget), slotCount),
          AttachCalls(cfg, ahead, steps)).host.log, cfg.start)
  }

  /** An engine whose residents are the greedy choice for its sizes and a budget. */
  ghost predicate SelectedConfig(cfg: Config, hasShared: bool, budget: nat) {
    && (forall id :: id in cfg.order ==> id in cfg.bytes)
    && EngineConfig(cfg, hasShared, GreedyIds(cfg.order, cfg.bytes, budget))
  }

  /** Sizes for which greedy selects exactly the given consecutive blocks. */
  function SqueezingSizes(order: seq<Id>, ids: seq<Id>): map<Id, nat> {
    map id | id in order :: if id in ids then 2 else 1
  }

  lemma SqueezedIsSelected(order: seq<Id>, ahead: nat, slotCount: nat)
    requires Distinct(order) && ahead < slotCount < 2 * ahead < |order|
    ensures var ids := Squeezed(order, ahead, slotCount);
      GreedyIds(order, SqueezingSizes(order, ids), 2 * |ids|) == ids
  {
    var ids := Squeezed(order, ahead, slotCount);
    var bytes := SqueezingSizes(order, ids);
    var t := 2 * ahead - slotCount;
    forall k | 0 <= k < |order| ensures bytes[order[k]] == if 1 <= k < t then 2 else 1 {
      if 1 <= k < t {
        assert ids[k - 1] == order[k];
      }
    }
    TwoAreSelected(order, bytes, 1, t);
  }

  /** What the guard `slotCount > ahead` lacks: given it, the schedule is safe for
      all block sizes and resident budgets if and only if the ring has at least
      `2 * ahead` slots or the model at most `2 * ahead` blocks.  At `ahead == 1`
      that is the guard. */
  lemma ExactGuard(order: seq<Id>, slotCount: nat, ahead: nat)
    requires Distinct(order) && UNASSIGNED !in order && order != []
    requires 1 <= ahead < slotCount
    ensures SafeForAnySizes(order, slotCount, ahead) <==> slotCount >= 2 * ahead || |order| <= 2 * ahead
  {
    if slotCount >= 2 * ahead || |order| <= 2 * ahead {
      forall cfg, hasShared, budget: nat, steps: nat
        | SelectedConfig(cfg, hasShared, budget) && cfg.order == order && cfg.slotCount == slotCount
        ensures AlwaysSafe(Run(cfg, Opened(hasShared, GreedyIds(cfg.order, cfg.bytes, budget), slotCount),
          AttachCalls(cfg, ahead, steps)).host.log, cfg.start)
      {
        AttachIsSafe(cfg, ahead, hasShared, GreedyIds(cfg.order, cfg.bytes, budget), steps);
      }
    } else {
      var ids := Squeezed(order, ahead, slotCount);
      var bytes := SqueezingSizes(order, ids);
      var cfg := Built(order, bytes, false, ids, slotCount);
      SqueezedIsSelected(order, ahead, slotCount);
      BuiltIsConfig(order, bytes, false, ids, slotCount);
      assert SelectedConfig(cfg, false, 2 * |ids|);
      ShallowRingIsUnsafe(cfg, ahead, false, 1);
    }
  }
}
