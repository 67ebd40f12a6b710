/** Three of the four closed conditions under which the installed schedule keeps its
    discipline (`Thrash` has the fourth), as inequalities on how many streaming
    blocks lie between two positions: the ring holds every streaming block; it is at
    least twice as deep as the prefetch distance; or no block is further than
    `2 * ahead` from the first. */
module Regimes {
  import opened Engine
  import opened Plan
  import opened Windows

  /** Streaming blocks below position `x`. */
  function Below(cfg: Config, x: nat): nat {
    Streaming(cfg, ONE, x)
  }

  // --------------------------------------------------------- lengths of plans

  lemma FirstLengths(cfg: Config, ahead: nat, cut: nat, q: nat)
    ensures |Planned(cfg, ahead, First(cut), q)| == Below(cfg, Min(q, cut)) + Below(cfg, q + ahead) - Below(cfg, ahead)
    ensures |PlannedGot(cfg, ahead, First(cut), q)|
      == Below(cfg, Min(q + 1, cut)) + Below(cfg, q + ahead) - Below(cfg, ahead)
  {
    PlannedCount(cfg, ahead, First(cut), q);
  }

  lemma LaterLengths(cfg: Config, ahead: nat, cut: nat, q: nat)
    requires ahead <= cut
    ensures |Planned(cfg, ahead, Later(cut), q)| == Below(cfg, Min(q, cut)) + Between(cfg, ONE, cut, q + ahead)
    ensures |PlannedGot(cfg, ahead, Later(cut), q)| == Below(cfg, Min(q + 1, cut)) + Between(cfg, ONE, cut, q + ahead)
  {
    PlannedCount(cfg, ahead, Later(cut), q);
  }

  /** Transfers between the prefetch and the get of a block at or past the cut. */
  lemma FirstGap(cfg: Config, ahead: nat, cut: nat, q: nat, u: nat)
    requires ahead <= cut <= q && q == u + ahead
    ensures |Planned(cfg, ahead, First(cut), q)| - |PlannedGot(cfg, ahead, First(cut), u)| ==
      Below(cfg, cut) - Below(cfg, Min(u + 1, cut)) + Below(cfg, q + ahead) - Below(cfg, q)
  {
    FirstLengths(cfg, ahead, cut, q);
    FirstLengths(cfg, ahead, cut, u);
  }

  lemma LaterGap(cfg: Config, ahead: nat, cut: nat, q: nat, u: nat)
    requires ahead <= cut <= q && q == u + ahead
    ensures |Planned(cfg, ahead, Later(cut), q)| - |PlannedGot(cfg, ahead, Later(cut), u)| ==
      Below(cfg, cut) - Below(cfg, Min(u + 1, cut)) + Below(cfg, q + ahead) - Below(cfg, q)
  {
    LaterLengths(cfg, ahead, cut, q);
    LaterLengths(cfg, ahead, cut, u);
  }

  lemma Gap(cfg: Config, ahead: nat, pattern: Pattern, q: nat, u: nat)
    requires !pattern.Settled? && ahead <= pattern.cut <= q && q == u + ahead
    ensures |Planned(cfg, ahead, pattern, q)| - |PlannedGot(cfg, ahead, pattern, u)| ==
      Below(cfg, pattern.cut) - Below(cfg, Min(u + 1, pattern.cut)) + Below(cfg, q + ahead) - Below(cfg, q)
  {
    if pattern.First? {
      FirstGap(cfg, ahead, pattern.cut, q, u);
    } else {
      LaterGap(cfg, ahead, pattern.cut, q, u);
    }
  }

  lemma LaterTotal(cfg: Config, ahead: nat, cut: nat)
    requires ahead <= cut && (cut > ahead ==> cut <= |cfg.order|)
    ensures |Planned(cfg, ahead, Later(cut), |cfg.order|)| == StreamCount(cfg)
  {
    var n := |cfg.order|;
    LaterLengths(cfg, ahead, cut, n);
    StreamingSaturates(cfg, ONE, n + ahead);
    if cut > n {
      StreamingSaturates(cfg, ONE, cut);
    }
  }

  lemma FirstTotal(cfg: Config, ahead: nat, cut: nat)
    requires ahead <= cut && (cut > ahead ==> cut <= |cfg.order|)
    ensures |Planned(cfg, ahead, First(cut), |cfg.order|)| == StreamCount(cfg) + Below(cfg, cut) - Below(cfg, ahead)
  {
    var n := |cfg.order|;
    FirstLengths(cfg, ahead, cut, n);
    StreamingSaturates(cfg, ONE, n + ahead);
    if cut > n {
      StreamingSaturates(cfg, ONE, cut);
    }
  }

  lemma LaterLeavesEnough(cfg: Config, ahead: nat, cut: nat)
    requires ahead <= cut && (cut > ahead ==> cut <= |cfg.order|)
    ensures EnoughAfter(cfg, ahead, cut, Later(cut))
  {
    LaterTotal(cfg, ahead, cut);
  }

  lemma BetweenIsLess(cfg: Config, lo: nat, mid: nat, hi: nat)
    requires lo <= mid
    ensures Below(cfg, hi) - Below(cfg, lo) <= Between(cfg, ONE, mid, hi) + Below(cfg, mid) - Below(cfg, lo)
  {
    if hi <= mid {
      StreamingBounds(cfg, hi, mid);
    }
  }

  /** After the get at `q < cut` the first pass transfers at least what a later pass does. */
  lemma FirstAfterGet(cfg: Config, ahead: nat, cut: nat, q: nat)
    requires 1 <= ahead <= cut && q < cut
    ensures |Planned(cfg, ahead, First(cut), q)| <=
      |Planned(cfg, ahead, Later(cut), q)| + Below(cfg, cut) - Below(cfg, ahead)
  {
    FirstLengths(cfg, ahead, cut, q);
    LaterLengths(cfg, ahead, cut, q);
    BetweenIsLess(cfg, ahead, cut, q + ahead);
  }

  lemma FirstAfterPrefetch(cfg: Config, ahead: nat, cut: nat, q: nat, u: nat)
    requires 1 <= ahead <= cut <= q && q == u + ahead
    ensures |PlannedGot(cfg, ahead, First(cut), u)| ==
      |PlannedGot(cfg, ahead, Later(cut), u)| + Below(cfg, cut) - Below(cfg, ahead)
  {
    FirstLengths(cfg, ahead, cut, u);
    LaterLengths(cfg, ahead, cut, u);
  }

  lemma FirstLeavesEnoughAt(cfg: Config, ahead: nat, cut: nat, q: nat)
    requires 1 <= ahead <= cut && (cut > ahead ==> cut <= |cfg.order|) && Streams(cfg, q)
    ensures |Planned(cfg, ahead, First(cut), |cfg.order|)| - LastTurn(cfg, ahead, cut, First(cut), q) >=
      StreamCount(cfg) - Turn(cfg, ahead, cut, q)
  {
    FirstTotal(cfg, ahead, cut);
    if q < cut {
      FirstAfterGet(cfg, ahead, cut, q);
    } else {
      FirstAfterPrefetch(cfg, ahead, cut, q, q - ahead);
    }
  }

  lemma FirstLeavesEnough(cfg: Config, ahead: nat, cut: nat)
    requires 1 <= ahead <= cut && (cut > ahead ==> cut <= |cfg.order|)
    ensures EnoughAfter(cfg, ahead, cut, First(cut))
  {
    forall q: nat | Streams(cfg, q)
      ensures |Planned(cfg, ahead, First(cut), |cfg.order|)| - LastTurn(cfg, ahead, cut, First(cut), q) >=
        StreamCount(cfg) - Turn(cfg, ahead, cut, q)
    {
      FirstLeavesEnoughAt(cfg, ahead, cut, q);
    }
  }

  // --------------------------------------------------------------- deep rings

  /** `slotCount >= 2 * ahead`: at most `2 * ahead - 1` transfers separate a
      prefetch from the get of the same block. */
  lemma DeepGap(cfg: Config, ahead: nat, pattern: Pattern, q: nat)
    requires !pattern.Settled? && pattern.cut == ahead && 1 <= ahead <= q
    ensures |Planned(cfg, ahead, pattern, q)| - |PlannedGot(cfg, ahead, pattern, q - ahead)| < 2 * ahead
  {
    Gap(cfg, ahead, pattern, q, q - ahead);
    StreamingBounds(cfg, Min(q - ahead + 1, ahead), ahead);
    StreamingBounds(cfg, q, q + ahead);
  }

  lemma DeepRing(cfg: Config, ahead: nat, pattern: Pattern)
    requires pattern == First(ahead) || pattern == Later(ahead)
    requires 1 <= ahead && cfg.slotCount >= 2 * ahead
    ensures PrefetchesLast(cfg, ahead, pattern, ahead) && PrefetchesSpare(cfg, ahead, pattern, ahead)
  {
    forall q: nat | ahead <= q
      ensures |Planned(cfg, ahead, pattern, q)| - |PlannedGot(cfg, ahead, pattern, q - ahead)| < cfg.slotCount
    {
      DeepGap(cfg, ahead, pattern, q);
    }
  }

  // ---------------------------------------------------------- everything fits

  lemma AllFit(cfg: Config, ahead: nat)
    requires 1 <= ahead && StreamCount(cfg) <= cfg.slotCount
    ensures PrefetchesLast(cfg, ahead, First(ahead), ahead) && PrefetchesSpare(cfg, ahead, First(ahead), ahead)
    ensures |Planned(cfg, ahead, First(ahead), |cfg.order|)| == StreamCount(cfg)
  {
    FirstTotal(cfg, ahead, ahead);
    forall q: nat | ahead <= q < |cfg.order|
      ensures |Planned(cfg, ahead, First(ahead), q)| <= cfg.slotCount
    {
      PlannedGrows(cfg, ahead, First(ahead), q, |cfg.order|);
    }
  }

  // ------------------------------------------------------------- short models

  /** In the first pass, a block is flushed between its prefetch and its get when
      few blocks stream at or before its prefetching position. */
  predicate FlushedEarly(cfg: Config, i: nat) {
    Below(cfg, i + 1) + cfg.slotCount < StreamCount(cfg)
  }

  /** The first position, counted from `ahead`, whose prefetch outlasts the pass. */
  function FlushedUpTo(cfg: Config, ahead: nat, i: nat): (c: nat)
    ensures i <= c && (c == i || ahead + c <= |cfg.order|)
    ensures forall x: nat :: i <= x < c ==> FlushedEarly(cfg, x)
    ensures ahead + c < |cfg.order| ==> !FlushedEarly(cfg, c)
    decreases |cfg.order| - (ahead + i)
  {
    if ahead + i < |cfg.order| && FlushedEarly(cfg, i) then FlushedUpTo(cfg, ahead, i + 1) else i
  }

  function Cut(cfg: Config, ahead: nat): nat {
    ahead + FlushedUpTo(cfg, ahead, 0)
  }

  ghost predicate Short(cfg: Config, ahead: nat) {
    && 1 <= ahead < cfg.slotCount < StreamCount(cfg) && |cfg.order| <= 2 * ahead
  }

  lemma CutIsInside(cfg: Config, ahead: nat)
    requires Short(cfg, ahead)
    ensures Cut(cfg, ahead) == ahead || Cut(cfg, ahead) <= |cfg.order|
  {
  }

  lemma ShortGap(cfg: Config, ahead: nat, pattern: Pattern, q: nat)
    requires Short(cfg, ahead) && !pattern.Settled? && pattern.cut == Cut(cfg, ahead)
    requires pattern.cut <= q < |cfg.order|
    ensures |Planned(cfg, ahead, pattern, q)| - |PlannedGot(cfg, ahead, pattern, q - ahead)| <= cfg.slotCount
  {
    Gap(cfg, ahead, pattern, q, q - ahead);
    ShortCount(cfg, ahead, pattern.cut, q);
  }

  lemma ShortCount(cfg: Config, ahead: nat, cut: nat, q: nat)
    requires Short(cfg, ahead) && cut == Cut(cfg, ahead) <= q < |cfg.order|
    ensures Below(cfg, cut) - Below(cfg, Min(q - ahead + 1, cut)) + Below(cfg, q + ahead) - Below(cfg, q)
      <= cfg.slotCount
  {
    var c := cut - ahead;
    assert !FlushedEarly(cfg, c);
    StreamingBounds(cfg, c + 1, q - ahead + 1);
    StreamingBounds(cfg, cut, q);
    StreamingSaturates(cfg, ONE, q + ahead);
    assert Min(q - ahead + 1, cut) == q - ahead + 1;
  }

  lemma ShortPrefetches(cfg: Config, ahead: nat, pattern: Pattern)
    requires Short(cfg, ahead)
    requires pattern == First(Cut(cfg, ahead)) || pattern == Later(Cut(cfg, ahead))
    ensures PrefetchesLast(cfg, ahead, pattern, pattern.cut) && PrefetchesSpare(cfg, ahead, pattern, pattern.cut)
  {
    forall q: nat | pattern.cut <= q < |cfg.order|
      ensures |Planned(cfg, ahead, pattern, q)| - |PlannedGot(cfg, ahead, pattern, q - ahead)| <= cfg.slotCount
    {
      ShortGap(cfg, ahead, pattern, q);
    }
  }

  lemma FirstSpan(cfg: Config, ahead: nat, cut: nat, u: nat, q: nat)
    requires u < cut && q <= cut
    ensures |Planned(cfg, ahead, First(cut), q)| - |Planned(cfg, ahead, First(cut), u + 1)| ==
      Below(cfg, q) - Below(cfg, u + 1) + Below(cfg, q + ahead) - Below(cfg, u + 1 + ahead)
  {
    FirstLengths(cfg, ahead, cut, q);
    FirstLengths(cfg, ahead, cut, u + 1);
    assert Min(q, cut) == q && Min(u + 1, cut) == u + 1;
  }

  lemma ShortFlush(cfg: Config, ahead: nat, cut: nat, q: nat, u: nat)
    requires |cfg.order| <= 2 * ahead <= q + ahead && q < cut && q == u + ahead && FlushedEarly(cfg, u)
    ensures |Planned(cfg, ahead, First(cut), q)| - |Planned(cfg, ahead, First(cut), u + 1)| >= cfg.slotCount
  {
    FirstSpan(cfg, ahead, cut, u, q);
    StreamingSaturates(cfg, ONE, q + ahead);
    StreamingBounds(cfg, q, u + 1 + ahead);
  }

  lemma ShortFlushes(cfg: Config, ahead: nat)
    requires Short(cfg, ahead)
    ensures EarlyFlushed(cfg, ahead, Cut(cfg, ahead))
  {
    var cut := Cut(cfg, ahead);
    forall q: nat | ahead <= q < cut
      ensures |Planned(cfg, ahead, First(cut), q)| - |Planned(cfg, ahead, First(cut), q - ahead + 1)| >= cfg.slotCount
    {
      assert FlushedEarly(cfg, q - ahead);
      ShortFlush(cfg, ahead, cut, q, q - ahead);
    }
  }

  /** Below the cut, what a pass transfers after the get of block `q`. */
  lemma FirstAfterEarlyGet(cfg: Config, ahead: nat, cut: nat, q: nat)
    requires |cfg.order| <= 2 * ahead && ahead <= q < cut <= |cfg.order|
    ensures |Planned(cfg, ahead, First(cut), |cfg.order|)| - |Planned(cfg, ahead, First(cut), q)|
      == Below(cfg, cut) - Below(cfg, q)
  {
    FirstTotal(cfg, ahead, cut);
    FirstLengths(cfg, ahead, cut, q);
    StreamingSaturates(cfg, ONE, q + ahead);
  }

  lemma LaterAfterEarlyGet(cfg: Config, ahead: nat, cut: nat, q: nat)
    requires |cfg.order| <= 2 * ahead && ahead <= q < cut <= |cfg.order|
    ensures |Planned(cfg, ahead, Later(cut), |cfg.order|)| - |Planned(cfg, ahead, Later(cut), q)|
      == Below(cfg, cut) - Below(cfg, q)
  {
    LaterTotal(cfg, ahead, cut);
    LaterLengths(cfg, ahead, cut, q);
    StreamingSaturates(cfg, ONE, q + ahead);
  }

  lemma ShortKeep(cfg: Config, ahead: nat, pattern: Pattern, q: nat, u: nat)
    requires Short(cfg, ahead) && !pattern.Settled? && pattern.cut == Cut(cfg, ahead)
    requires ahead <= q < pattern.cut && u == q - ahead
    ensures |Planned(cfg, ahead, pattern, |cfg.order|)| - |Planned(cfg, ahead, pattern, q)| +
      |PlannedGot(cfg, ahead, Later(pattern.cut), u)| <= cfg.slotCount
  {
    CutIsInside(cfg, ahead);
    if pattern.First? {
      FirstAfterEarlyGet(cfg, ahead, pattern.cut, q);
    } else {
      LaterAfterEarlyGet(cfg, ahead, pattern.cut, q);
    }
    LaterLengths(cfg, ahead, pattern.cut, u);
    StreamingBounds(cfg, q, pattern.cut);
    StreamingBounds(cfg, 0, u + 1);
  }

  lemma ShortKeeps(cfg: Config, ahead: nat, pattern: Pattern)
    requires Short(cfg, ahead)
    requires pattern == First(Cut(cfg, ahead)) || pattern == Later(Cut(cfg, ahead))
    ensures EarlyKept(cfg, ahead, pattern.cut, pattern)
  {
    forall q: nat | ahead <= q < pattern.cut
      ensures |Planned(cfg, ahead, pattern, |cfg.order|)| - |Planned(cfg, ahead, pattern, q)| +
        |PlannedGot(cfg, ahead, Later(pattern.cut), q - ahead)| <= cfg.slotCount
    {
      ShortKeep(cfg, ahead, pattern, q, q - ahead);
    }
  }
}
