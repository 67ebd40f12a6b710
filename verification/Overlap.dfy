/** What the prefetch is for: while a block's kernels run, the block fetched ahead is
    being copied.  Only a get makes the compute stream wait, and only a transfer makes
    the transfer stream wait, for the slot it reuses. */
module Overlap {
  import opened Common
  import opened Device
  import opened Engine
  import opened Protocol
  import opened Safety
  import opened Fifo
  import opened Plan
  import opened Schedule
  import opened Windows
  import opened Attach
  import opened Exact

  // --------------------------------------------------------- which calls wait

  /** A prefetch issues commands to the transfer stream alone and lends nothing. */
  lemma PrefetchLeavesCompute(cfg: Config, s: Session, id: Id)
    requires WellFormed(s.host)
    ensures var s' := Apply(cfg, s, PrefetchCall(id));
      && s'.lent == s.lent && s.host.log <= s'.host.log
      && forall k :: |s.host.log| <= k < |s'.host.log| ==> StreamOf(s'.host.log[k]) == Transfer
  {
  }

  /** No call waits for more than it needs: the compute stream waits only in a get,
      for the event recorded behind the copy of the block it returns, and the transfer
      stream only in a transfer, for the free event of the slot it reuses. */
  lemma WaitsAreNeeded(cfg: Config, s: Session, call: Call, w: nat)
    requires WellFormed(s.host)
    requires var log := Apply(cfg, s, call).host.log; |s.host.log| <= w < |log| && log[w].Wait?
    ensures var log := Apply(cfg, s, call).host.log;
      if log[w].on == Compute then
        && call.GetCall? && w == |log| - 1
        && Issue(cfg, s.host, call.id).1.Ok? && log[w].event == Issue(cfg, s.host, call.id).1.value.ready
      else Transfers(cfg, s, call) && w == |s.host.log| && s.host.slots[s.host.next].free == Some(log[w].event)
  {
  }

  // ------------------------------------------------------------- the overlap

  /** Some interleaving has, at one moment, a kernel reading `id` from `loc` and the
      copy of `other` into a slot under way. */
  ghost predicate Overlaps(log: Log, start: nat, loc: Loc, id: Id, slot: nat, other: Id) {
    exists run: seq<Cursors> ::
      Execution(log, start, run) && CopiesWhileRunning(log, run[|run| - 1], loc, id, slot, other)
  }

  ghost predicate CopiesWhileRunning(log: Log, at: Cursors, loc: Loc, id: Id, slot: nat, other: Id) {
    && InRange(log, at) && KernelInFlight(log, at.compute, loc, id)
    && at.transfer > 0 && log[at.transfer - 1] == CopyBegin(Ring(slot), other)
    && WriteInFlight(log, at.transfer, Ring(slot))
  }

  lemma CopyBesideKernel(log: Log, start: nat, p: nat, slot: nat, other: Id, loc: Loc, id: Id)
    requires start <= p && p + 6 <= |log|
    requires log[p..p + 5] == CopyCommands(slot, other) && log[p + 5] == KernelBegin(loc, id)
    ensures Overlaps(log, start, loc, id, slot, other)
  {
    CopyAt(log, p, slot, other);
    var run := IssueOrderReachable(log, start, p);
    run := RunOn(log, start, run, Transfer, 2);
    forall q: nat | p <= q < p + 6 ensures StreamOf(log[q]) == Compute ==> !log[q].Wait? {
      assert q == p || q == p + 1 || q == p + 2 || q == p + 3 || q == p + 4 || q == p + 5;
    }
    run := RunOn(log, start, run, Compute, 6);
    assert run[|run| - 1] == Cursors(p + 2, p + 6);
    assert CopiesWhileRunning(log, run[|run| - 1], loc, id, slot, other);
  }

  /** A prefetch that misses, followed by the kernels of an outstanding block. */
  lemma PrefetchOverlaps(cfg: Config, s: Session, other: Id, id: Id)
    requires Consistent(cfg, s.host) && Transfers(cfg, s, PrefetchCall(other)) && id in s.lent
    ensures Overlaps(Run(cfg, s, [PrefetchCall(other), LaunchCall(id)]).host.log, cfg.start,
      s.lent[id], id, s.host.next, other)
  {
    var h := s.host;
    var log := Run(cfg, s, [PrefetchCall(other), LaunchCall(id)]).host.log;
    RunTwo(cfg, s, PrefetchCall(other), LaunchCall(id));
    FetchSplits(cfg, h, other);
    var p := |AwaitFree(h).log|;
    var copy, launch := CopyCommands(h.next, other), LaunchCommands(s.lent[id], id);
    assert log == AwaitFree(h).log + copy + launch;
    assert log[p..p + 5] == copy && log[p + 5] == launch[0];
    CopyBesideKernel(log, cfg.start, p, h.next, other, s.lent[id], id);
  }

  lemma OverlapStays(log: Log, log': Log, start: nat, loc: Loc, id: Id, slot: nat, other: Id)
    requires Overlaps(log, start, loc, id, slot, other) && log <= log'
    ensures Overlaps(log', start, loc, id, slot, other)
  {
    var run: seq<Cursors> :| Execution(log, start, run) &&
      CopiesWhileRunning(log, run[|run| - 1], loc, id, slot, other);
    var more := log'[|log|..];
    assert log' == log + more;
    EnabledPrefix(log, more, start, run);
    FlightPrefix(log, more, run[|run| - 1].compute, loc, id);
    FlightPrefix(log, more, run[|run| - 1].transfer, Ring(slot), id);
    assert CopiesWhileRunning(log', run[|run| - 1], loc, id, slot, other);
  }

  // ------------------------------------------------- in the installed schedule

  /** The calls up to the get of block `q` in pass `j`. */
  function UpToGet(cfg: Config, ahead: nat, j: nat, q: nat): seq<Call>
    requires q < |cfg.order|
  {
    AttachCalls(cfg, ahead, j) + PassCalls(cfg, ahead, q) + [GetCall(cfg.order[q])]
  }

  lemma {:induction false} AttachGoesOn(cfg: Config, ahead: nat, j: nat, steps: nat) returns (rest: seq<Call>)
    requires cfg.order != [] && j <= steps
    ensures AttachCalls(cfg, ahead, steps) == AttachCalls(cfg, ahead, j) + rest
    decreases steps
  {
    if j == steps {
      rest := [];
    } else {
      var before := AttachGoesOn(cfg, ahead, j, steps - 1);
      rest := before + PassCalls(cfg, ahead, |cfg.order|);
    }
  }

  lemma Regrouped(a: seq<Call>, p: seq<Call>, g: seq<Call>, c: seq<Call>, d: seq<Call>, r: seq<Call>, l: seq<Call>)
    ensures a + (p + (g + c + d) + r) + l == (a + p + g) + c + (d + r + l)
  {
  }

  lemma PositionParted(cfg: Config, ahead: nat, q: nat, next: nat)
    requires next == q + ahead && next < |cfg.order|
    ensures PositionCalls(cfg, ahead, q) == [GetCall(cfg.order[q])] +
      [PrefetchCall(cfg.order[next]), LaunchCall(cfg.order[q])] + [DoneCall(cfg.order[q])]
    ensures PassCalls(cfg, ahead, q + 1) == PassCalls(cfg, ahead, q) + PositionCalls(cfg, ahead, q)
  {
  }

  lemma GetThenPrefetch(cfg: Config, ahead: nat, j: nat, q: nat, steps: nat, next: nat) returns (rest: seq<Call>)
    requires j < steps && next == q + ahead && next < |cfg.order|
    ensures AttachCalls(cfg, ahead, steps) ==
      UpToGet(cfg, ahead, j, q) + [PrefetchCall(cfg.order[next]), LaunchCall(cfg.order[q])] + rest
  {
    var get, done := [GetCall(cfg.order[q])], [DoneCall(cfg.order[q])];
    var calls := [PrefetchCall(cfg.order[next]), LaunchCall(cfg.order[q])];
    var later := AttachGoesOn(cfg, ahead, j + 1, steps);
    var inPass := PassPrefix(cfg, ahead, q + 1, |cfg.order|);
    PositionParted(cfg, ahead, q, next);
    rest := done + inPass + later;
    Regrouped(AttachCalls(cfg, ahead, j), PassCalls(cfg, ahead, q), get, calls, done, inPass, later);
  }

  lemma GotIsLent(cfg: Config, ahead: nat, s: Session, j: nat, q: nat)
    requires WellFormed(s.host) && q < |cfg.order| && cfg.order[q] in cfg.bytes
    ensures cfg.order[q] in Run(cfg, s, UpToGet(cfg, ahead, j, q)).lent
  {
    var before := AttachCalls(cfg, ahead, j) + PassCalls(cfg, ahead, q);
    GetLends(cfg, Run(cfg, s, before), cfg.order[q], []);
    assert [GetCall(cfg.order[q])] + [] == [GetCall(cfg.order[q])];
    RunConcat(cfg, s, before, [GetCall(cfg.order[q])]);
  }

  /** Wherever a prefetch of the installed schedule misses, in whatever pass of
      however many, some interleaving copies the block fetched ahead while the
      kernel of the block got before runs. */
  lemma AttachOverlaps(cfg: Config, hasShared: bool, ids: seq<Id>, ahead: nat, steps: nat, j: nat, q: nat, next: nat)
    requires EngineConfig(cfg, hasShared, ids) && j < steps && next == q + ahead && next < |cfg.order|
    requires Transfers(cfg, Run(cfg, Opened(hasShared, ids, cfg.slotCount), UpToGet(cfg, ahead, j, q)),
      PrefetchCall(cfg.order[next]))
    ensures var s := Run(cfg, Opened(hasShared, ids, cfg.slotCount), UpToGet(cfg, ahead, j, q));
      && cfg.order[q] in s.lent
      && Overlaps(Run(cfg, Opened(hasShared, ids, cfg.slotCount), AttachCalls(cfg, ahead, steps)).host.log, cfg.start,
           s.lent[cfg.order[q]], cfg.order[q], s.host.next, cfg.order[next])
  {
    var s0 := Opened(hasShared, ids, cfg.slotCount);
    var before, calls := UpToGet(cfg, ahead, j, q), [PrefetchCall(cfg.order[next]), LaunchCall(cfg.order[q])];
    var s := Run(cfg, s0, before);
    OpenedInv(cfg, hasShared, ids);
    RunConsistent(cfg, s0, before);
    GotIsLent(cfg, ahead, s0, j, q);
    PrefetchOverlaps(cfg, s, cfg.order[next], cfg.order[q]);
    var rest := GetThenPrefetch(cfg, ahead, j, q, steps, next);
    RunConcat(cfg, s0, before, calls);
    RunConcat(cfg, s0, before + calls, rest);
    LogsGrow(cfg, Run(cfg, s0, before + calls), rest);
    OverlapStays(Run(cfg, s, calls).host.log, Run(cfg, s0, AttachCalls(cfg, ahead, steps)).host.log, cfg.start,
      s.lent[cfg.order[q]], cfg.order[q], s.host.next, cfg.order[next]);
  }

  // ------------------------------------------------ in a deep ring, everywhere

  lemma PlannedMiss(cfg: Config, ahead: nat, s: Session, got: seq<Id>, pattern: Pattern, q: nat, next: nat)
    requires Running(cfg, s, got, q) && next == q + ahead && Streams(cfg, next)
    requires PrefetchAsPlanned(cfg, ahead, got, pattern, q) && PrefetchTransfers(cfg, ahead, pattern, q)
    ensures Transfers(cfg, s, PrefetchCall(cfg.order[next]))
  {
    SlotsAreRecent(s.host, cfg.order[next]);
  }

  /** A position reached as planned misses its prefetch as planned. */
  lemma PositionMisses(cfg: Config, ahead: nat, s: Session, calls: seq<Call>, base: seq<Id>, pattern: Pattern, q: nat,
                       next: nat)
    requires WellFormed(s.host) && q < |cfg.order| && PassReaches(cfg, ahead, s, calls, base, pattern, q)
    requires PositionOk(cfg, ahead, base, pattern, q) && PrefetchTransfers(cfg, ahead, pattern, q)
    requires next == q + ahead && Streams(cfg, next)
    ensures Transfers(cfg, Run(cfg, s, calls + PassCalls(cfg, ahead, q) + [GetCall(cfg.order[q])]),
      PrefetchCall(cfg.order[next]))
  {
    var before, get := calls + PassCalls(cfg, ahead, q), [GetCall(cfg.order[q])];
    GetRuns(cfg, Run(cfg, s, before), base + Planned(cfg, ahead, pattern, q), pattern, q);
    PositionParts(cfg, ahead, base, pattern, q);
    RunConcat(cfg, s, before, get);
    PlannedMiss(cfg, ahead, Run(cfg, s, before + get), base + PlannedGot(cfg, ahead, pattern, q), pattern, q, next);
  }

  lemma FirstPositionMisses(cfg: Config, ahead: nat, hasShared: bool, ids: seq<Id>, cut: nat, next: nat)
    requires EngineConfig(cfg, hasShared, ids) && Setting(cfg, ahead, cut) && cut > 0 && cfg.order != []
    requires next == ahead && Streams(cfg, next)
    ensures Transfers(cfg, Run(cfg, Opened(hasShared, ids, cfg.slotCount), UpToGet(cfg, ahead, 0, 0)),
      PrefetchCall(cfg.order[next]))
  {
    var s := Opened(hasShared, ids, cfg.slotCount);
    AttachPrefetches(cfg, hasShared, ids, cut);
    FirstGetHits(cfg, s, [PrefetchCall(cfg.order[0])], cut);
    FirstPrefetch(cfg, ahead, cut, 0);
    assert PlannedGot(cfg, ahead, First(cut), 0) == GetPart(cfg, First(cut), 0);
    assert UpToGet(cfg, ahead, 0, 0) == [PrefetchCall(cfg.order[0])] + [GetCall(cfg.order[0])];
    PlannedMiss(cfg, ahead, Run(cfg, s, UpToGet(cfg, ahead, 0, 0)), GetPart(cfg, First(cut), 0), First(cut), 0, next);
  }

  lemma FromReached(cfg: Config, ahead: nat, s: Session, cut: nat, q: nat)
    requires WellFormed(s.host) && q < |cfg.order|
    requires Reaches(cfg, s, AttachCalls(cfg, ahead, 0) + PassCalls(cfg, ahead, q), Planned(cfg, ahead, First(cut), q))
    requires PositionsOk(cfg, ahead, [], First(cut), 0, |cfg.order|)
    ensures PassReaches(cfg, ahead, s, AttachCalls(cfg, ahead, 0), [], First(cut), q)
    ensures PositionOk(cfg, ahead, [], First(cut), q)
  {
    assert [] + Planned(cfg, ahead, First(cut), q) == Planned(cfg, ahead, First(cut), q);
  }

  lemma FirstPassMisses(cfg: Config, ahead: nat, hasShared: bool, ids: seq<Id>, cut: nat, q: nat, next: nat)
    requires EngineConfig(cfg, hasShared, ids) && Setting(cfg, ahead, cut) && 1 <= q && cut > 0
    requires PositionsOk(cfg, ahead, [], First(cut), 0, |cfg.order|)
    requires next == q + ahead && Streams(cfg, next)
    ensures Transfers(cfg, Run(cfg, Opened(hasShared, ids, cfg.slotCount), UpToGet(cfg, ahead, 0, q)),
      PrefetchCall(cfg.order[next]))
  {
    var s := Opened(hasShared, ids, cfg.slotCount);
    FirstPass(cfg, ahead, hasShared, ids, cut, q);
    FromReached(cfg, ahead, s, cut, q);
    PositionMisses(cfg, ahead, s, AttachCalls(cfg, ahead, 0), [], First(cut), q, next);
  }

  lemma LaterReached(cfg: Config, ahead: nat, s: Session, calls: seq<Call>, base: seq<Id>, pattern: Pattern, q: nat)
    requires WellFormed(s.host) && Reaches(cfg, s, calls, base) && q < |cfg.order|
    requires PositionsOk(cfg, ahead, base, pattern, 0, |cfg.order|)
    ensures PassReaches(cfg, ahead, s, calls, base, pattern, q) && PositionOk(cfg, ahead, base, pattern, q)
  {
    assert calls + PassCalls(cfg, ahead, 0) == calls && base + Planned(cfg, ahead, pattern, 0) == base;
    assert PositionsOk(cfg, ahead, base, pattern, 0, q);
    PassRuns(cfg, ahead, s, calls, base, pattern, 0, q);
  }

  lemma LaterPassMisses(cfg: Config, ahead: nat, s: Session, j: nat, trace: seq<Id>, pattern: Pattern, q: nat,
                        next: nat)
    requires WellFormed(s.host) && cfg.order != [] && Reaches(cfg, s, AttachCalls(cfg, ahead, j), trace)
    requires next == q + ahead && Streams(cfg, next) && PrefetchTransfers(cfg, ahead, pattern, q)
    requires PositionsOk(cfg, ahead, trace, pattern, 0, |cfg.order|)
    ensures Transfers(cfg, Run(cfg, s, UpToGet(cfg, ahead, j, q)), PrefetchCall(cfg.order[next]))
  {
    LaterReached(cfg, ahead, s, AttachCalls(cfg, ahead, j), trace, pattern, q);
    PositionMisses(cfg, ahead, s, AttachCalls(cfg, ahead, j), trace, pattern, q, next);
  }

  /** A prefetch that every pass's pattern plans to transfer misses in every pass. */
  lemma PlannedMisses(cfg: Config, hasShared: bool, ids: seq<Id>, ahead: nat, j: nat, q: nat, next: nat)
    requires EngineConfig(cfg, hasShared, ids) && Guarded(cfg, ahead) && Covered(cfg, ahead)
    requires next == q + ahead && Streams(cfg, next) && PrefetchTransfers(cfg, ahead, LaterPattern(cfg, ahead), q)
    ensures Transfers(cfg, Run(cfg, Opened(hasShared, ids, cfg.slotCount), UpToGet(cfg, ahead, j, q)),
      PrefetchCall(cfg.order[next]))
  {
    if j > 0 {
      StepsRun(cfg, ahead, hasShared, ids, j);
      AfterLaterPass(cfg, ahead, TraceOf(cfg, ahead, j));
      LaterPassMisses(cfg, ahead, Opened(hasShared, ids, cfg.slotCount), j, TraceOf(cfg, ahead, j),
        LaterPattern(cfg, ahead), q, next);
    } else {
      FirstPassOk(cfg, ahead);
      if q == 0 {
        FirstPositionMisses(cfg, ahead, hasShared, ids, CutOf(cfg, ahead), next);
      } else {
        FirstPassMisses(cfg, ahead, hasShared, ids, CutOf(cfg, ahead), q, next);
      }
    }
  }

  /** In a deep ring that does not hold all that streams, the schedule overlaps every
      copy of a block fetched ahead with the kernels of the block that runs then, in
      every pass, and is safe doing so. */
  lemma DeepRingOverlaps(cfg: Config, hasShared: bool, ids: seq<Id>, ahead: nat, steps: nat, j: nat, q: nat, next: nat)
    requires EngineConfig(cfg, hasShared, ids) && Guarded(cfg, ahead)
    requires cfg.slotCount >= 2 * ahead && StreamCount(cfg) > cfg.slotCount
    requires j < steps && next == q + ahead && Streams(cfg, next)
    ensures var s := Run(cfg, Opened(hasShared, ids, cfg.slotCount), UpToGet(cfg, ahead, j, q));
      var log := Run(cfg, Opened(hasShared, ids, cfg.slotCount), AttachCalls(cfg, ahead, steps)).host.log;
      && AlwaysSafe(log, cfg.start) && cfg.order[q] in s.lent
      && Overlaps(log, cfg.start, s.lent[cfg.order[q]], cfg.order[q], s.host.next, cfg.order[next])
  {
    PlannedMisses(cfg, hasShared, ids, ahead, j, q, next);
    AttachOverlaps(cfg, hasShared, ids, ahead, steps, j, q, next);
    AttachIsSafe(cfg, ahead, hasShared, ids, steps);
  }
}
