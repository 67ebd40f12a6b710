/** Whole runs of the installed schedule: what they transfer, and that they keep the
    discipline. */
module Attach {
  import opened Common
  import opened Device
  import opened Engine
  import opened Protocol
  import opened Safety
  import opened Fifo
  import opened Plan
  import opened Schedule
  import opened Windows
  import opened Regimes
  import opened Thrash

  // ----------------------------------------------------------- pass by pass

  lemma FirstPass(cfg: Config, ahead: nat, hasShared: bool, ids: seq<Id>, cut: nat, hi: nat)
    requires EngineConfig(cfg, hasShared, ids) && Setting(cfg, ahead, cut) && 1 <= hi <= |cfg.order|
    requires PositionsOk(cfg, ahead, [], First(cut), 1, hi)
    ensures Reaches(cfg, Opened(hasShared, ids, cfg.slotCount),
      AttachCalls(cfg, ahead, 0) + PassCalls(cfg, ahead, hi), Planned(cfg, ahead, First(cut), hi))
  {
    var s := Opened(hasShared, ids, cfg.slotCount);
    FirstPrefetch(cfg, ahead, cut, 0);
    assert PlannedGot(cfg, ahead, First(cut), 0) == GetPart(cfg, First(cut), 0);
    FirstPositionRuns(cfg, ahead, hasShared, ids, cut);
    assert [] + Planned(cfg, ahead, First(cut), 1) == Planned(cfg, ahead, First(cut), 1);
    PassRuns(cfg, ahead, s, AttachCalls(cfg, ahead, 0), [], First(cut), 1, hi);
    assert [] + Planned(cfg, ahead, First(cut), hi) == Planned(cfg, ahead, First(cut), hi);
  }

  lemma NextPass(cfg: Config, ahead: nat, s: Session, steps: nat, trace: seq<Id>, pattern: Pattern)
    requires WellFormed(s.host) && cfg.order != []
    requires Reaches(cfg, s, AttachCalls(cfg, ahead, steps), trace)
    requires PositionsOk(cfg, ahead, trace, pattern, 0, |cfg.order|)
    ensures Reaches(cfg, s, AttachCalls(cfg, ahead, steps + 1), trace + Planned(cfg, ahead, pattern, |cfg.order|))
  {
    var calls := AttachCalls(cfg, ahead, steps);
    assert calls + PassCalls(cfg, ahead, 0) == calls;
    assert trace + Planned(cfg, ahead, pattern, 0) == trace;
    PassRuns(cfg, ahead, s, calls, trace, pattern, 0, |cfg.order|);
  }

  /** The cut of the steady pattern: `ahead` unless the ring is shallow. */
  function CutOf(cfg: Config, ahead: nat): nat {
    if cfg.slotCount >= 2 * ahead || StreamCount(cfg) <= cfg.slotCount then ahead
    else if |cfg.order| <= 2 * ahead then Cut(cfg, ahead)
    else LateCut(cfg, ahead)
  }

  /** Every pass goes like the first: the ring thrashes and carries nothing over. */
  predicate Repeats(cfg: Config, ahead: nat) {
    cfg.slotCount < 2 * ahead < |cfg.order| && StreamCount(cfg) > cfg.slotCount && !Carries(cfg, ahead)
  }

  function LaterPattern(cfg: Config, ahead: nat): Pattern {
    if StreamCount(cfg) <= cfg.slotCount then Settled
    else if Repeats(cfg, ahead) then First(CutOf(cfg, ahead))
    else Later(CutOf(cfg, ahead))
  }

  /** Everything the schedule transfers in `steps >= 1` passes. */
  function TraceOf(cfg: Config, ahead: nat, steps: nat): seq<Id> {
    if steps <= 1 then Planned(cfg, ahead, First(CutOf(cfg, ahead)), |cfg.order|)
    else TraceOf(cfg, ahead, steps - 1) + Planned(cfg, ahead, LaterPattern(cfg, ahead), |cfg.order|)
  }

  /** What a caller can check before attaching: the guard `attach_engine` applies,
      and conditions that make it sufficient: a ring twice as deep as the prefetch
      distance, a short model, a ring that holds all that streams, or, when
      everything streams, a ring at least two slots short of twice the distance. */
  predicate Guarded(cfg: Config, ahead: nat) {
    cfg.order != [] && 1 <= ahead < cfg.slotCount
  }

  predicate DeepOrShort(cfg: Config, ahead: nat) {
    cfg.slotCount >= 2 * ahead || |cfg.order| <= 2 * ahead
  }

  ghost predicate Covered(cfg: Config, ahead: nat) {
    DeepOrShort(cfg, ahead) || StreamCount(cfg) <= cfg.slotCount || Thrashing(cfg, ahead)
  }

  lemma FirstPassOk(cfg: Config, ahead: nat)
    requires Distinct(cfg.order) && Guarded(cfg, ahead) && Covered(cfg, ahead)
    ensures Setting(cfg, ahead, CutOf(cfg, ahead))
    ensures PositionsOk(cfg, ahead, [], First(CutOf(cfg, ahead)), 0, |cfg.order|)
  {
    var cut := CutOf(cfg, ahead);
    if StreamCount(cfg) <= cfg.slotCount {
      AllFit(cfg, ahead);
    } else if cfg.slotCount >= 2 * ahead {
      DeepRing(cfg, ahead, First(cut));
    } else if |cfg.order| <= 2 * ahead {
      CutIsInside(cfg, ahead);
      ShortPrefetches(cfg, ahead, First(cut));
      ShortFlushes(cfg, ahead);
    } else {
      LateCutBounds(cfg, ahead);
      LatePrefetches(cfg, ahead, First(cut));
      EarlyFlushes(cfg, ahead);
    }
    FirstPassAsPlanned(cfg, ahead, cut);
  }

  /** The ring's state at the end of a pass is ready for the next one. */
  ghost predicate PassReady(cfg: Config, ahead: nat, trace: seq<Id>) {
    if StreamCount(cfg) <= cfg.slotCount
    then forall q: nat :: Streams(cfg, q) ==> cfg.order[q] in Recent(trace, cfg.slotCount)
    else if Repeats(cfg, ahead) then FarFirst(cfg, ahead, CutOf(cfg, ahead), trace)
    else
      var cut := CutOf(cfg, ahead);
      ahead <= cut && Far(cfg, ahead, cut, trace) && Near(cfg, ahead, cut, trace)
  }

  /** What a pass of a steady pattern needs of the ring, whichever the regime. */
  lemma SteadyGaps(cfg: Config, ahead: nat, pattern: Pattern)
    requires Distinct(cfg.order) && Guarded(cfg, ahead) && Covered(cfg, ahead)
    requires StreamCount(cfg) > cfg.slotCount && !Repeats(cfg, ahead)
    requires pattern == First(CutOf(cfg, ahead)) || pattern == Later(CutOf(cfg, ahead))
    ensures Setting(cfg, ahead, pattern.cut)
    ensures PrefetchesLast(cfg, ahead, pattern, pattern.cut) && PrefetchesSpare(cfg, ahead, pattern, pattern.cut)
    ensures EarlyKept(cfg, ahead, pattern.cut, pattern)
  {
    if cfg.slotCount >= 2 * ahead {
      DeepRing(cfg, ahead, pattern);
    } else if |cfg.order| <= 2 * ahead {
      CutIsInside(cfg, ahead);
      ShortPrefetches(cfg, ahead, pattern);
      ShortKeeps(cfg, ahead, pattern);
    } else {
      LateCutBounds(cfg, ahead);
      LatePrefetches(cfg, ahead, pattern);
      CarriedOver(cfg, ahead, pattern);
    }
  }

  lemma AfterPass(cfg: Config, ahead: nat, pattern: Pattern, base: seq<Id>)
    requires Distinct(cfg.order) && Guarded(cfg, ahead) && Covered(cfg, ahead)
    requires StreamCount(cfg) > cfg.slotCount && !Repeats(cfg, ahead)
    requires pattern == First(CutOf(cfg, ahead)) || pattern == Later(CutOf(cfg, ahead))
    ensures PassReady(cfg, ahead, base + Planned(cfg, ahead, pattern, |cfg.order|))
  {
    var cut := CutOf(cfg, ahead);
    SteadyGaps(cfg, ahead, pattern);
    if pattern.First? {
      FirstLeavesEnough(cfg, ahead, cut);
    } else {
      LaterLeavesEnough(cfg, ahead, cut);
    }
    PassLeavesFar(cfg, ahead, cut, pattern, base);
    PassLeavesNear(cfg, ahead, cut, pattern, base);
  }

  lemma AfterFirstPass(cfg: Config, ahead: nat)
    requires Distinct(cfg.order) && Guarded(cfg, ahead) && Covered(cfg, ahead)
    ensures PassReady(cfg, ahead, Planned(cfg, ahead, First(CutOf(cfg, ahead)), |cfg.order|))
  {
    var trace := Planned(cfg, ahead, First(CutOf(cfg, ahead)), |cfg.order|);
    if StreamCount(cfg) <= cfg.slotCount {
      AllFit(cfg, ahead);
      forall q: nat | Streams(cfg, q) ensures cfg.order[q] in Recent(trace, cfg.slotCount) {
        FirstPassReachesAll(cfg, ahead, ahead, q);
        assert Recent(trace, cfg.slotCount) == trace;
      }
    } else {
      assert [] + trace == trace;
      if Repeats(cfg, ahead) {
        ThrashLeavesFar(cfg, ahead, []);
      } else {
        AfterPass(cfg, ahead, First(CutOf(cfg, ahead)), []);
      }
    }
  }

  lemma AfterRepeatedPass(cfg: Config, ahead: nat, trace: seq<Id>)
    requires Distinct(cfg.order) && Guarded(cfg, ahead) && Covered(cfg, ahead) && Repeats(cfg, ahead)
    requires PassReady(cfg, ahead, trace)
    ensures PositionsOk(cfg, ahead, trace, LaterPattern(cfg, ahead), 0, |cfg.order|)
    ensures PassReady(cfg, ahead, trace + Planned(cfg, ahead, LaterPattern(cfg, ahead), |cfg.order|))
  {
    LateCutBounds(cfg, ahead);
    LatePrefetches(cfg, ahead, First(CutOf(cfg, ahead)));
    EarlyFlushes(cfg, ahead);
    ThrashTotal(cfg, ahead);
    AgainAsPlanned(cfg, ahead, CutOf(cfg, ahead), trace);
    ThrashLeavesFar(cfg, ahead, trace);
  }

  lemma AfterLaterPass(cfg: Config, ahead: nat, trace: seq<Id>)
    requires Distinct(cfg.order) && Guarded(cfg, ahead) && Covered(cfg, ahead) && PassReady(cfg, ahead, trace)
    ensures PositionsOk(cfg, ahead, trace, LaterPattern(cfg, ahead), 0, |cfg.order|)
    ensures PassReady(cfg, ahead, trace + Planned(cfg, ahead, LaterPattern(cfg, ahead), |cfg.order|))
  {
    if StreamCount(cfg) <= cfg.slotCount {
      SettledPassAsPlanned(cfg, ahead, trace);
      SettledPlan(cfg, ahead, |cfg.order|);
      assert trace + [] == trace;
    } else if Repeats(cfg, ahead) {
      AfterRepeatedPass(cfg, ahead, trace);
    } else {
      var cut := CutOf(cfg, ahead);
      AfterPass(cfg, ahead, Later(cut), trace);
      SteadyGaps(cfg, ahead, Later(cut));
      LaterTotal(cfg, ahead, cut);
      LaterPassAsPlanned(cfg, ahead, cut, trace);
    }
  }

  lemma OneStep(cfg: Config, ahead: nat, hasShared: bool, ids: seq<Id>)
    requires EngineConfig(cfg, hasShared, ids) && Guarded(cfg, ahead) && Covered(cfg, ahead)
    ensures Reaches(cfg, Opened(hasShared, ids, cfg.slotCount),
      AttachCalls(cfg, ahead, 0) + PassCalls(cfg, ahead, |cfg.order|),
      Planned(cfg, ahead, First(CutOf(cfg, ahead)), |cfg.order|))
  {
    FirstPassOk(cfg, ahead);
    FirstPass(cfg, ahead, hasShared, ids, CutOf(cfg, ahead), |cfg.order|);
  }

  lemma AnotherStep(cfg: Config, ahead: nat, s: Session, steps: nat, trace: seq<Id>)
    requires WellFormed(s.host) && Distinct(cfg.order) && Guarded(cfg, ahead) && Covered(cfg, ahead)
    requires Reaches(cfg, s, AttachCalls(cfg, ahead, steps), trace) && PassReady(cfg, ahead, trace)
    ensures var trace' := trace + Planned(cfg, ahead, LaterPattern(cfg, ahead), |cfg.order|);
      Reaches(cfg, s, AttachCalls(cfg, ahead, steps + 1), trace') && PassReady(cfg, ahead, trace')
  {
    AfterLaterPass(cfg, ahead, trace);
    NextPass(cfg, ahead, s, steps, trace, LaterPattern(cfg, ahead));
  }

  /** The calls keep the discipline, transfer `trace` and leave the ring ready for the next pass. */
  ghost predicate Steady(cfg: Config, ahead: nat, s: Session, calls: seq<Call>, trace: seq<Id>)
    requires WellFormed(s.host)
  {
    Reaches(cfg, s, calls, trace) && PassReady(cfg, ahead, trace)
  }

  lemma SteadyStarts(cfg: Config, ahead: nat, hasShared: bool, ids: seq<Id>)
    requires EngineConfig(cfg, hasShared, ids) && Guarded(cfg, ahead) && Covered(cfg, ahead)
    ensures Steady(cfg, ahead, Opened(hasShared, ids, cfg.slotCount), AttachCalls(cfg, ahead, 1),
      TraceOf(cfg, ahead, 1))
  {
    OneStep(cfg, ahead, hasShared, ids);
    AfterFirstPass(cfg, ahead);
    assert AttachCalls(cfg, ahead, 1) == AttachCalls(cfg, ahead, 0) + PassCalls(cfg, ahead, |cfg.order|);
  }

  ghost predicate SteadyAt(cfg: Config, ahead: nat, s: Session, steps: nat)
    requires WellFormed(s.host) && cfg.order != []
  {
    Steady(cfg, ahead, s, AttachCalls(cfg, ahead, steps), TraceOf(cfg, ahead, steps))
  }

  lemma SteadyGoesOn(cfg: Config, ahead: nat, s: Session, steps: nat)
    requires WellFormed(s.host) && Distinct(cfg.order) && Guarded(cfg, ahead) && Covered(cfg, ahead)
    requires steps >= 1 && SteadyAt(cfg, ahead, s, steps)
    ensures SteadyAt(cfg, ahead, s, steps + 1)
  {
    AnotherStep(cfg, ahead, s, steps, TraceOf(cfg, ahead, steps));
  }

  lemma {:induction false} SteadyStays(cfg: Config, ahead: nat, s: Session, steps: nat)
    requires WellFormed(s.host) && Distinct(cfg.order) && Guarded(cfg, ahead) && Covered(cfg, ahead) && steps >= 1
    requires SteadyAt(cfg, ahead, s, 1)
    ensures SteadyAt(cfg, ahead, s, steps)
  {
    if steps > 1 {
      SteadyStays(cfg, ahead, s, steps - 1);
      SteadyGoesOn(cfg, ahead, s, steps - 1);
    }
  }

  lemma StepsRun(cfg: Config, ahead: nat, hasShared: bool, ids: seq<Id>, steps: nat)
    requires EngineConfig(cfg, hasShared, ids) && Guarded(cfg, ahead) && Covered(cfg, ahead) && steps >= 1
    ensures Steady(cfg, ahead, Opened(hasShared, ids, cfg.slotCount),
      AttachCalls(cfg, ahead, steps), TraceOf(cfg, ahead, steps))
  {
    SteadyStarts(cfg, ahead, hasShared, ids);
    SteadyStays(cfg, ahead, Opened(hasShared, ids, cfg.slotCount), steps);
  }

  // -------------------------------------------------------------- main results

  /** No transfer of the installed schedule lands on an outstanding block's slot,
      for any block count, any resident subset and any number of passes. */
  lemma AttachIsDisciplined(cfg: Config, ahead: nat, hasShared: bool, ids: seq<Id>, steps: nat)
    requires EngineConfig(cfg, hasShared, ids) && Guarded(cfg, ahead) && Covered(cfg, ahead)
    ensures Disciplined(cfg, Opened(hasShared, ids, cfg.slotCount), AttachCalls(cfg, ahead, steps))
  {
    if steps == 0 {
      RunOne(cfg, Opened(hasShared, ids, cfg.slotCount), PrefetchCall(cfg.order[0]));
    } else {
      StepsRun(cfg, ahead, hasShared, ids, steps);
    }
  }

  /** Race freedom: under every interleaving of the two streams no copy overlaps a
      kernel reading the same buffer and every kernel finds its own block. */
  lemma AttachIsSafe(cfg: Config, ahead: nat, hasShared: bool, ids: seq<Id>, steps: nat)
    requires EngineConfig(cfg, hasShared, ids) && Guarded(cfg, ahead) && Covered(cfg, ahead)
    ensures AlwaysSafe(
      Run(cfg, Opened(hasShared, ids, cfg.slotCount), AttachCalls(cfg, ahead, steps)).host.log, cfg.start)
  {
    AttachIsDisciplined(cfg, ahead, hasShared, ids, steps);
    DisciplineIsSafe(cfg, hasShared, ids, AttachCalls(cfg, ahead, steps));
  }
}
