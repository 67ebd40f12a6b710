/** A shallow ring on a long model whose blocks all stream: every prefetched block
    is flushed before it is got, until the prefetches run out near the end of the
    pass.  The ring thrashes, but no transfer ever meets a running block. */
module Thrash {
  import opened Common
  import opened Engine
  import opened Fifo
  import opened Plan
  import opened Schedule
  import opened Windows
  import opened Regimes

  ghost predicate AllStream(cfg: Config) {
    forall q: nat :: q < |cfg.order| ==> Streams(cfg, q)
  }

  ghost predicate Thrashing(cfg: Config, ahead: nat) {
    && AllStream(cfg) && Distinct(cfg.order)
    && 1 <= ahead < cfg.slotCount && cfg.slotCount + 2 <= 2 * ahead < |cfg.order|
  }

  /** From this position on, a prefetched block is still in the ring when it is got. */
  function LateCut(cfg: Config, ahead: nat): nat {
    if cfg.slotCount < |cfg.order| + ahead then |cfg.order| + ahead - 1 - cfg.slotCount else 0
  }

  /** The blocks got last in one pass are still there for the next one's first prefetches. */
  predicate Carries(cfg: Config, ahead: nat) {
    |cfg.order| <= cfg.slotCount + ahead
  }

  lemma {:induction false} BelowAll(cfg: Config, x: nat)
    requires AllStream(cfg)
    ensures Below(cfg, x) == Min(x, |cfg.order|)
  {
    if x > 0 {
      BelowAll(cfg, x - 1);
      assert x - 1 < |cfg.order| <==> Streams(cfg, x - 1);
    }
  }

  lemma LateCutBounds(cfg: Config, ahead: nat)
    requires Thrashing(cfg, ahead)
    ensures var cut := LateCut(cfg, ahead);
      && cut == |cfg.order| + ahead - 1 - cfg.slotCount
      && ahead < cut < |cfg.order| <= cut + ahead
      && Setting(cfg, ahead, cut) && StreamCount(cfg) == |cfg.order| > cfg.slotCount
  {
    BelowAll(cfg, |cfg.order|);
  }

  // ------------------------------------------------------------ one pass

  lemma LateGap(cfg: Config, ahead: nat, pattern: Pattern, q: nat, u: nat)
    requires Thrashing(cfg, ahead) && !pattern.Settled? && pattern.cut == LateCut(cfg, ahead)
    requires pattern.cut <= q < |cfg.order| && q == u + ahead
    ensures |Planned(cfg, ahead, pattern, q)| - |PlannedGot(cfg, ahead, pattern, u)| <= cfg.slotCount
  {
    LateCutBounds(cfg, ahead);
    Gap(cfg, ahead, pattern, q, u);
    BelowAll(cfg, pattern.cut);
    BelowAll(cfg, Min(u + 1, pattern.cut));
    BelowAll(cfg, q + ahead);
    BelowAll(cfg, q);
  }

  lemma LatePrefetches(cfg: Config, ahead: nat, pattern: Pattern)
    requires Thrashing(cfg, ahead)
    requires pattern == First(LateCut(cfg, ahead)) || pattern == Later(LateCut(cfg, ahead))
    ensures PrefetchesLast(cfg, ahead, pattern, pattern.cut) && PrefetchesSpare(cfg, ahead, pattern, pattern.cut)
  {
    LateCutBounds(cfg, ahead);
    forall q: nat | pattern.cut <= q < |cfg.order|
      ensures |Planned(cfg, ahead, pattern, q)| - |PlannedGot(cfg, ahead, pattern, q - ahead)| <= cfg.slotCount
    {
      LateGap(cfg, ahead, pattern, q, q - ahead);
    }
  }

  lemma EarlyFlush(cfg: Config, ahead: nat, q: nat, u: nat)
    requires Thrashing(cfg, ahead) && q < LateCut(cfg, ahead) && q == u + ahead
    ensures |Planned(cfg, ahead, First(LateCut(cfg, ahead)), q)| -
      |Planned(cfg, ahead, First(LateCut(cfg, ahead)), u + 1)| >= cfg.slotCount
  {
    LateCutBounds(cfg, ahead);
    FirstSpan(cfg, ahead, LateCut(cfg, ahead), u, q);
    BelowAll(cfg, q);
    BelowAll(cfg, u + 1);
    BelowAll(cfg, q + ahead);
    BelowAll(cfg, u + 1 + ahead);
  }

  lemma EarlyFlushes(cfg: Config, ahead: nat)
    requires Thrashing(cfg, ahead)
    ensures EarlyFlushed(cfg, ahead, LateCut(cfg, ahead))
  {
    var cut := LateCut(cfg, ahead);
    forall q: nat | ahead <= q < cut
      ensures |Planned(cfg, ahead, First(cut), q)| - |Planned(cfg, ahead, First(cut), q - ahead + 1)| >= cfg.slotCount
    {
      EarlyFlush(cfg, ahead, q, q - ahead);
    }
  }

  // ------------------------------------- the same pass again, from a full ring

  /** How many transfers of a pass come before block `q`'s first one. */
  ghost function FirstTurn(cfg: Config, ahead: nat, cut: nat, q: nat): nat {
    if q < ahead then |Planned(cfg, ahead, First(cut), q)| else |PlannedGot(cfg, ahead, First(cut), q - ahead)|
  }

  /** Every block will have left the ring by its first turn. */
  ghost predicate FarFirst(cfg: Config, ahead: nat, cut: nat, trace: seq<string>) {
    forall q: nat :: Streams(cfg, q) ==> Aged(trace, cfg.order[q], cfg.slotCount - FirstTurn(cfg, ahead, cut, q))
  }

  lemma AgainFirstGet(cfg: Config, ahead: nat, cut: nat, base: seq<string>, q: nat)
    requires Setting(cfg, ahead, cut) && FarFirst(cfg, ahead, cut, base) && Streams(cfg, q) && q < ahead
    ensures cfg.order[q] !in Recent(base + Planned(cfg, ahead, First(cut), q), cfg.slotCount)
  {
    NeverPlanned(cfg, ahead, First(cut), q, q);
    assert FirstTurn(cfg, ahead, cut, q) == |Planned(cfg, ahead, First(cut), q)|;
    NotRecent(base, Planned(cfg, ahead, First(cut), q), cfg.slotCount, cfg.order[q]);
  }

  lemma AgainFlushed(cfg: Config, ahead: nat, cut: nat, base: seq<string>, q: nat, u: nat)
    requires Setting(cfg, ahead, cut) && Streams(cfg, q) && q < cut && q == u + ahead
    requires |Planned(cfg, ahead, First(cut), q)| - |Planned(cfg, ahead, First(cut), u + 1)| >= cfg.slotCount
    ensures cfg.order[q] !in Recent(base + Planned(cfg, ahead, First(cut), q), cfg.slotCount)
  {
    var more, start := Planned(cfg, ahead, First(cut), q), |Planned(cfg, ahead, First(cut), u + 1)|;
    NotPlannedFrom(cfg, ahead, First(cut), u + 1, q, q, start);
    AbsentIsAged(base, more, cfg.order[q], start, cfg.slotCount);
    AgedIsNotRecent(base + more, cfg.slotCount, cfg.order[q]);
  }

  lemma AgainGet(cfg: Config, ahead: nat, cut: nat, base: seq<string>, q: nat)
    requires Setting(cfg, ahead, cut) && PrefetchesLast(cfg, ahead, First(cut), cut) && EarlyFlushed(cfg, ahead, cut)
    requires FarFirst(cfg, ahead, cut, base) && q < |cfg.order|
    ensures GetAsPlanned(cfg, base + Planned(cfg, ahead, First(cut), q), First(cut), q)
  {
    if Streams(cfg, q) {
      if q < ahead {
        AgainFirstGet(cfg, ahead, cut, base, q);
      } else if q < cut {
        AgainFlushed(cfg, ahead, cut, base, q, q - ahead);
      } else {
        LateGetHits(cfg, ahead, base, First(cut), q);
      }
    }
  }

  lemma FarFirstAt(cfg: Config, ahead: nat, cut: nat, base: seq<string>, q: nat, x: nat)
    requires FarFirst(cfg, ahead, cut, base) && Streams(cfg, x) && x == q + ahead
    ensures Aged(base, cfg.order[x], cfg.slotCount - |PlannedGot(cfg, ahead, First(cut), q)|)
  {
    assert x - ahead == q;
    assert FirstTurn(cfg, ahead, cut, x) == |PlannedGot(cfg, ahead, First(cut), q)|;
  }

  lemma NotYetPlanned(cfg: Config, ahead: nat, cut: nat, q: nat, x: nat)
    requires Setting(cfg, ahead, cut) && Streams(cfg, x) && x == q + ahead && q < |cfg.order|
    ensures cfg.order[x] !in PlannedGot(cfg, ahead, First(cut), q)
  {
    NeverPlanned(cfg, ahead, First(cut), q, x);
    assert cfg.order[x] !in GetPart(cfg, First(cut), q);
  }

  lemma AgainMisses(cfg: Config, ahead: nat, cut: nat, base: seq<string>, q: nat, x: nat)
    requires Setting(cfg, ahead, cut) && FarFirst(cfg, ahead, cut, base) && q < |cfg.order|
    requires Streams(cfg, x) && x == q + ahead
    ensures cfg.order[x] !in Recent(base + PlannedGot(cfg, ahead, First(cut), q), cfg.slotCount)
  {
    NotYetPlanned(cfg, ahead, cut, q, x);
    FarFirstAt(cfg, ahead, cut, base, q, x);
    NotRecent(base, PlannedGot(cfg, ahead, First(cut), q), cfg.slotCount, cfg.order[x]);
  }

  lemma MissAsPlanned(cfg: Config, ahead: nat, cut: nat, trace: seq<string>, q: nat)
    requires Streams(cfg, q + ahead) ==> cfg.order[q + ahead] !in Recent(trace, cfg.slotCount)
    ensures PrefetchAsPlanned(cfg, ahead, trace, First(cut), q)
  {
  }

  lemma AgainPrefetch(cfg: Config, ahead: nat, cut: nat, base: seq<string>, q: nat)
    requires Setting(cfg, ahead, cut) && FarFirst(cfg, ahead, cut, base) && q < |cfg.order|
    ensures PrefetchAsPlanned(cfg, ahead, base + PlannedGot(cfg, ahead, First(cut), q), First(cut), q)
  {
    if Streams(cfg, q + ahead) {
      AgainMisses(cfg, ahead, cut, base, q, q + ahead);
    }
    MissAsPlanned(cfg, ahead, cut, base + PlannedGot(cfg, ahead, First(cut), q), q);
  }

  lemma AgainAsPlanned(cfg: Config, ahead: nat, cut: nat, base: seq<string>)
    requires Setting(cfg, ahead, cut)
    requires PrefetchesLast(cfg, ahead, First(cut), cut) && PrefetchesSpare(cfg, ahead, First(cut), cut)
    requires EarlyFlushed(cfg, ahead, cut) && FarFirst(cfg, ahead, cut, base)
    requires |Planned(cfg, ahead, First(cut), |cfg.order|)| > cfg.slotCount
    ensures PositionsOk(cfg, ahead, base, First(cut), 0, |cfg.order|)
  {
    forall q: nat | q < |cfg.order| ensures PositionOk(cfg, ahead, base, First(cut), q) {
      AgainGet(cfg, ahead, cut, base, q);
      AgainPrefetch(cfg, ahead, cut, base, q);
      AlwaysSpared(cfg, ahead, base, First(cut), q);
    }
  }

  lemma ThrashTotal(cfg: Config, ahead: nat)
    requires Thrashing(cfg, ahead)
    ensures |Planned(cfg, ahead, First(LateCut(cfg, ahead)), |cfg.order|)| ==
      2 * |cfg.order| - 1 - cfg.slotCount > cfg.slotCount
  {
    LateCutBounds(cfg, ahead);
    FirstTotal(cfg, ahead, LateCut(cfg, ahead));
    BelowAll(cfg, LateCut(cfg, ahead));
    BelowAll(cfg, ahead);
  }

  /** How far block `q`'s last transfer of one pass is from its first of the next. */
  lemma FirstTurnIsFar(cfg: Config, ahead: nat, q: nat)
    requires Thrashing(cfg, ahead) && !Carries(cfg, ahead) && q < |cfg.order|
    ensures var cut := LateCut(cfg, ahead);
      cfg.slotCount - FirstTurn(cfg, ahead, cut, q) <=
      |Planned(cfg, ahead, First(cut), |cfg.order|)| - LastTurn(cfg, ahead, cut, First(cut), q) - 1
  {
    var cut := LateCut(cfg, ahead);
    LateCutBounds(cfg, ahead);
    ThrashTotal(cfg, ahead);
    if ahead <= q < cut {
      GetTurn(cfg, ahead, q);
      PrefetchTurn(cfg, ahead, q, q - ahead);
    }
  }

  lemma GetTurn(cfg: Config, ahead: nat, q: nat)
    requires Thrashing(cfg, ahead) && q < LateCut(cfg, ahead)
    ensures |Planned(cfg, ahead, First(LateCut(cfg, ahead)), q)| == q + Min(q + ahead, |cfg.order|) - ahead
  {
    LateCutBounds(cfg, ahead);
    FirstLengths(cfg, ahead, LateCut(cfg, ahead), q);
    BelowAll(cfg, Min(q, LateCut(cfg, ahead)));
    BelowAll(cfg, q + ahead);
    BelowAll(cfg, ahead);
  }

  lemma PrefetchTurn(cfg: Config, ahead: nat, q: nat, u: nat)
    requires Thrashing(cfg, ahead) && q == u + ahead < LateCut(cfg, ahead)
    ensures |PlannedGot(cfg, ahead, First(LateCut(cfg, ahead)), u)| == 2 * u + 1
  {
    LateCutBounds(cfg, ahead);
    FirstLengths(cfg, ahead, LateCut(cfg, ahead), u);
    BelowAll(cfg, Min(u + 1, LateCut(cfg, ahead)));
    BelowAll(cfg, u + ahead);
    BelowAll(cfg, ahead);
  }

  lemma ThrashLeavesFar(cfg: Config, ahead: nat, base: seq<string>)
    requires Thrashing(cfg, ahead) && !Carries(cfg, ahead)
    ensures FarFirst(cfg, ahead, LateCut(cfg, ahead),
      base + Planned(cfg, ahead, First(LateCut(cfg, ahead)), |cfg.order|))
  {
    var cut := LateCut(cfg, ahead);
    LateCutBounds(cfg, ahead);
    forall q: nat | Streams(cfg, q)
      ensures Aged(base + Planned(cfg, ahead, First(cut), |cfg.order|), cfg.order[q],
        cfg.slotCount - FirstTurn(cfg, ahead, cut, q))
    {
      LastTransfer(cfg, ahead, cut, First(cut), q);
      FirstTurnIsFar(cfg, ahead, q);
      AbsentIsAged(base, Planned(cfg, ahead, First(cut), |cfg.order|), cfg.order[q],
        LastTurn(cfg, ahead, cut, First(cut), q) + 1, cfg.slotCount - FirstTurn(cfg, ahead, cut, q));
    }
  }

  // --------------------------------------------- carried from pass to pass

  lemma AfterFirstEarlyGet(cfg: Config, ahead: nat, q: nat)
    requires Thrashing(cfg, ahead) && ahead <= q < LateCut(cfg, ahead)
    ensures var cut := LateCut(cfg, ahead);
      |Planned(cfg, ahead, First(cut), |cfg.order|)| - |Planned(cfg, ahead, First(cut), q)|
      == cut - q + |cfg.order| - Min(q + ahead, |cfg.order|)
  {
    LateCutBounds(cfg, ahead);
    ThrashTotal(cfg, ahead);
    GetTurn(cfg, ahead, q);
  }

  lemma AfterLaterEarlyGet(cfg: Config, ahead: nat, q: nat)
    requires Thrashing(cfg, ahead) && Carries(cfg, ahead) && ahead <= q < LateCut(cfg, ahead)
    ensures var cut := LateCut(cfg, ahead);
      |Planned(cfg, ahead, Later(cut), |cfg.order|)| - |Planned(cfg, ahead, Later(cut), q)|
      == cut - q + |cfg.order| - Min(q + ahead, |cfg.order|)
  {
    var cut := LateCut(cfg, ahead);
    LateCutBounds(cfg, ahead);
    LaterTotal(cfg, ahead, cut);
    LaterLengths(cfg, ahead, cut, q);
    BelowAll(cfg, Min(q, cut));
    BelowAll(cfg, q + ahead);
    BelowAll(cfg, cut);
  }

  lemma AfterEarlyGet(cfg: Config, ahead: nat, pattern: Pattern, q: nat)
    requires Thrashing(cfg, ahead) && Carries(cfg, ahead)
    requires pattern == First(LateCut(cfg, ahead)) || pattern == Later(LateCut(cfg, ahead))
    requires ahead <= q < pattern.cut
    ensures |Planned(cfg, ahead, pattern, |cfg.order|)| - |Planned(cfg, ahead, pattern, q)|
      == pattern.cut - q + |cfg.order| - Min(q + ahead, |cfg.order|)
  {
    if pattern.First? {
      AfterFirstEarlyGet(cfg, ahead, q);
    } else {
      AfterLaterEarlyGet(cfg, ahead, q);
    }
  }

  lemma Carried(cfg: Config, ahead: nat, pattern: Pattern, q: nat, u: nat)
    requires Thrashing(cfg, ahead) && Carries(cfg, ahead)
    requires pattern == First(LateCut(cfg, ahead)) || pattern == Later(LateCut(cfg, ahead))
    requires ahead <= q < pattern.cut && q == u + ahead
    ensures |Planned(cfg, ahead, pattern, |cfg.order|)| - |Planned(cfg, ahead, pattern, q)| +
      |PlannedGot(cfg, ahead, Later(pattern.cut), u)| <= cfg.slotCount
  {
    LateCutBounds(cfg, ahead);
    AfterEarlyGet(cfg, ahead, pattern, q);
    LaterLengths(cfg, ahead, pattern.cut, u);
    BelowAll(cfg, Min(u + 1, pattern.cut));
    BelowAll(cfg, pattern.cut);
    BelowAll(cfg, u + ahead);
  }

  lemma CarriedOver(cfg: Config, ahead: nat, pattern: Pattern)
    requires Thrashing(cfg, ahead) && Carries(cfg, ahead)
    requires pattern == First(LateCut(cfg, ahead)) || pattern == Later(LateCut(cfg, ahead))
    ensures EarlyKept(cfg, ahead, pattern.cut, pattern)
  {
    forall q: nat | ahead <= q < pattern.cut
      ensures |Planned(cfg, ahead, pattern, |cfg.order|)| - |Planned(cfg, ahead, pattern, q)| +
        |PlannedGot(cfg, ahead, Later(pattern.cut), q - ahead)| <= cfg.slotCount
    {
      Carried(cfg, ahead, pattern, q, q - ahead);
    }
  }
}
