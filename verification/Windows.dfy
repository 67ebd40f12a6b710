/** From lengths to behaviour: if the planned transfers are spaced suitably, the
    first-in first-out ring hits and misses exactly where the plan says. */
module Windows {
  import opened Common
  import opened Device
  import opened Engine
  import opened Fifo
  import opened Plan
  import opened Schedule

  ghost predicate Setting(cfg: Config, ahead: nat, cut: nat) {
    && Distinct(cfg.order) && cfg.order != []
    && 1 <= ahead <= cut && cfg.slotCount > 1
    && (cut > ahead ==> cut <= |cfg.order|)
  }

  /** A prefetched block is still in the ring when it is got. */
  ghost predicate PrefetchesLast(cfg: Config, ahead: nat, pattern: Pattern, cut: nat) {
    forall q: nat :: cut <= q < |cfg.order| && q >= ahead ==>
      |Planned(cfg, ahead, pattern, q)| - |PlannedGot(cfg, ahead, pattern, q - ahead)| <= cfg.slotCount
  }

  /** While a prefetched block runs, the next prefetch takes another slot. */
  ghost predicate PrefetchesSpare(cfg: Config, ahead: nat, pattern: Pattern, cut: nat) {
    forall q: nat :: cut <= q && q >= ahead && q + ahead < |cfg.order| ==>
      || |Planned(cfg, ahead, pattern, q)| - |PlannedGot(cfg, ahead, pattern, q - ahead)| < cfg.slotCount
      || |Planned(cfg, ahead, pattern, |cfg.order|)| <= cfg.slotCount
  }

  /** In the first pass, blocks below the cut are flushed between prefetch and get. */
  ghost predicate EarlyFlushed(cfg: Config, ahead: nat, cut: nat) {
    forall q: nat :: ahead <= q < cut ==>
      |Planned(cfg, ahead, First(cut), q)| - |Planned(cfg, ahead, First(cut), q - ahead + 1)| >= cfg.slotCount
  }

  /** In later passes, a block below the cut got in one pass is still in the ring
      when the next pass prefetches it. */
  ghost predicate EarlyKept(cfg: Config, ahead: nat, cut: nat, pattern: Pattern) {
    forall q: nat :: ahead <= q < cut ==>
      |Planned(cfg, ahead, pattern, |cfg.order|)| - |Planned(cfg, ahead, pattern, q)| +
      |PlannedGot(cfg, ahead, Later(cut), q - ahead)| <= cfg.slotCount
  }

  // ------------------------------------------------------------ recent or not

  lemma IsRecent(trace: seq<Id>, s: nat, id: Id, i: nat)
    requires i < |trace| && trace[i] == id && |trace| - i <= s
    ensures id in Recent(trace, s)
  {
    assert Recent(trace, s)[i - Oldest(|trace|, s)] == id;
  }

  /** `id` is not among the last `d` entries. */
  ghost predicate Aged(trace: seq<Id>, id: Id, d: int) {
    forall i :: 0 <= i < |trace| && i >= |trace| - d ==> trace[i] != id
  }

  lemma AgedLess(trace: seq<Id>, id: Id, d: int, less: int)
    requires Aged(trace, id, d) && less <= d
    ensures Aged(trace, id, less)
  {
  }

  lemma NotRecent(base: seq<Id>, more: seq<Id>, s: nat, id: Id)
    requires id !in more && Aged(base, id, s - |more|)
    ensures id !in Recent(base + more, s)
  {
    var trace := base + more;
    forall i | 0 <= i < |Recent(trace, s)| ensures Recent(trace, s)[i] != id {
      var k := i + Oldest(|trace|, s);
      assert Recent(trace, s)[i] == trace[k];
      if k >= |base| {
        assert more[k - |base|] in more;
      }
    }
  }

  lemma AgedIsNotRecent(trace: seq<Id>, s: nat, id: Id)
    requires Aged(trace, id, s)
    ensures id !in Recent(trace, s)
  {
    NotRecent(trace, [], s, id);
    assert trace + [] == trace;
  }

  // --------------------------------------------------- shared by both patterns

  lemma LateIsRecent(cfg: Config, ahead: nat, base: seq<Id>, pattern: Pattern, q: nat)
    requires 1 <= ahead <= q && PrefetchTransfers(cfg, ahead, pattern, q - ahead)
    requires |Planned(cfg, ahead, pattern, q)| - |PlannedGot(cfg, ahead, pattern, q - ahead)| <= cfg.slotCount
    ensures cfg.order[q] in Recent(base + Planned(cfg, ahead, pattern, q), cfg.slotCount)
  {
    PrefetchEntry(cfg, ahead, pattern, q - ahead, q);
    IsRecent(base + Planned(cfg, ahead, pattern, q), cfg.slotCount, cfg.order[q],
      |base| + |PlannedGot(cfg, ahead, pattern, q - ahead)|);
  }

  /** A block at or past the cut hits when it is got. */
  lemma LateGetHits(cfg: Config, ahead: nat, base: seq<Id>, pattern: Pattern, q: nat)
    requires !pattern.Settled? && 1 <= ahead <= pattern.cut <= q && Streams(cfg, q)
    requires |Planned(cfg, ahead, pattern, q)| - |PlannedGot(cfg, ahead, pattern, q - ahead)| <= cfg.slotCount
    ensures GetAsPlanned(cfg, base + Planned(cfg, ahead, pattern, q), pattern, q)
  {
    LateIsRecent(cfg, ahead, base, pattern, q);
  }

  lemma EarlySpared(cfg: Config, ahead: nat, base: seq<Id>, pattern: Pattern, q: nat)
    requires !pattern.Settled? && q < pattern.cut && cfg.slotCount > 1
    ensures Spared(cfg, ahead, base + PlannedGot(cfg, ahead, pattern, q), pattern, q)
  {
    var trace := base + PlannedGot(cfg, ahead, pattern, q);
    assert Streams(cfg, q) ==> trace[|trace| - 1] == cfg.order[q];
  }

  lemma LateSpared(cfg: Config, ahead: nat, base: seq<Id>, pattern: Pattern, q: nat)
    requires !pattern.Settled? && ahead <= pattern.cut <= q
    requires |Planned(cfg, ahead, pattern, q)| - |PlannedGot(cfg, ahead, pattern, q - ahead)| < cfg.slotCount
    requires 1 <= ahead
    ensures Spared(cfg, ahead, base + PlannedGot(cfg, ahead, pattern, q), pattern, q)
  {
    var trace := base + PlannedGot(cfg, ahead, pattern, q);
    if Streams(cfg, q) {
      PrefetchEntry(cfg, ahead, pattern, q - ahead, q);
      var i := |base| + |PlannedGot(cfg, ahead, pattern, q - ahead)|;
      assert trace == base + Planned(cfg, ahead, pattern, q);
      assert trace[i] == cfg.order[q];
    }
  }

  lemma FullSpared(cfg: Config, ahead: nat, pattern: Pattern, q: nat)
    requires |Planned(cfg, ahead, pattern, |cfg.order|)| <= cfg.slotCount && q < |cfg.order|
    ensures Spared(cfg, ahead, [] + PlannedGot(cfg, ahead, pattern, q), pattern, q)
  {
    if PrefetchTransfers(cfg, ahead, pattern, q) {
      PrefetchEntry(cfg, ahead, pattern, q, |cfg.order|);
    }
  }

  lemma AlwaysSpared(cfg: Config, ahead: nat, base: seq<Id>, pattern: Pattern, q: nat)
    requires !pattern.Settled? && Setting(cfg, ahead, pattern.cut)
    requires PrefetchesSpare(cfg, ahead, pattern, pattern.cut)
    requires base != [] ==> |Planned(cfg, ahead, pattern, |cfg.order|)| > cfg.slotCount
    requires q < |cfg.order|
    ensures Spared(cfg, ahead, base + PlannedGot(cfg, ahead, pattern, q), pattern, q)
  {
    if q < pattern.cut {
      EarlySpared(cfg, ahead, base, pattern, q);
    } else if q + ahead < |cfg.order| {
      if |Planned(cfg, ahead, pattern, q)| - |PlannedGot(cfg, ahead, pattern, q - ahead)| < cfg.slotCount {
        LateSpared(cfg, ahead, base, pattern, q);
      } else {
        FullSpared(cfg, ahead, pattern, q);
      }
    }
  }

  // ---------------------------------------------------------- the first pass

  lemma FirstGet(cfg: Config, ahead: nat, cut: nat, q: nat)
    requires Setting(cfg, ahead, cut) && PrefetchesLast(cfg, ahead, First(cut), cut) && EarlyFlushed(cfg, ahead, cut)
    requires q < |cfg.order|
    ensures GetAsPlanned(cfg, Planned(cfg, ahead, First(cut), q), First(cut), q)
  {
    var trace := Planned(cfg, ahead, First(cut), q);
    assert [] + trace == trace;
    if Streams(cfg, q) {
      if q < ahead {
        NeverPlanned(cfg, ahead, First(cut), q, q);
      } else if q < cut {
        NotPlannedFrom(cfg, ahead, First(cut), q - ahead + 1, q, q, |Planned(cfg, ahead, First(cut), q - ahead + 1)|);
        AgedIsNotRecent(trace, cfg.slotCount, cfg.order[q]);
      } else {
        LateGetHits(cfg, ahead, [], First(cut), q);
      }
    }
  }

  lemma FirstPrefetch(cfg: Config, ahead: nat, cut: nat, q: nat)
    requires Setting(cfg, ahead, cut) && q < |cfg.order|
    ensures PrefetchAsPlanned(cfg, ahead, PlannedGot(cfg, ahead, First(cut), q), First(cut), q)
  {
    if Streams(cfg, q + ahead) {
      NeverPlanned(cfg, ahead, First(cut), q, q + ahead);
      assert cfg.order[q + ahead] !in GetPart(cfg, First(cut), q);
    }
  }

  lemma FirstPassAsPlanned(cfg: Config, ahead: nat, cut: nat)
    requires Setting(cfg, ahead, cut)
    requires PrefetchesLast(cfg, ahead, First(cut), cut) && PrefetchesSpare(cfg, ahead, First(cut), cut)
    requires EarlyFlushed(cfg, ahead, cut)
    ensures PositionsOk(cfg, ahead, [], First(cut), 0, |cfg.order|)
  {
    forall q: nat | q < |cfg.order| ensures PositionOk(cfg, ahead, [], First(cut), q) {
      FirstGet(cfg, ahead, cut, q);
      FirstPrefetch(cfg, ahead, cut, q);
      AlwaysSpared(cfg, ahead, [], First(cut), q);
      assert [] + Planned(cfg, ahead, First(cut), q) == Planned(cfg, ahead, First(cut), q);
      assert [] + PlannedGot(cfg, ahead, First(cut), q) == PlannedGot(cfg, ahead, First(cut), q);
    }
  }

  // ----------------------------------------------------------- later passes

  /** How many transfers of a later pass come before block `q`'s. */
  ghost function Turn(cfg: Config, ahead: nat, cut: nat, q: nat): nat
    requires ahead <= cut
  {
    if q < cut then |Planned(cfg, ahead, Later(cut), q)| else |PlannedGot(cfg, ahead, Later(cut), q - ahead)|
  }

  /** When a pass starts: every block was last transferred long enough ago that
      it will have left the ring by its turn ... */
  ghost predicate Far(cfg: Config, ahead: nat, cut: nat, trace: seq<Id>)
    requires ahead <= cut
  {
    forall q: nat :: Streams(cfg, q) ==> Aged(trace, cfg.order[q], StreamCount(cfg) - 1 - Turn(cfg, ahead, cut, q))
  }

  /** `id` is in `trace` and stays among the last `s` entries after `k` more. */
  ghost predicate NearAt(trace: seq<Id>, id: Id, k: nat, s: nat) {
    exists i: nat :: i < |trace| && trace[i] == id && |trace| - i + k <= s
  }

  /** ... except that those got late in the last pass are still there for their prefetch. */
  ghost predicate Near(cfg: Config, ahead: nat, cut: nat, trace: seq<Id>) {
    forall q: nat :: Streams(cfg, q) && ahead <= q < cut ==>
      NearAt(trace, cfg.order[q], |PlannedGot(cfg, ahead, Later(cut), q - ahead)|, cfg.slotCount)
  }

  lemma LaterGet(cfg: Config, ahead: nat, cut: nat, base: seq<Id>, q: nat)
    requires Setting(cfg, ahead, cut) && PrefetchesLast(cfg, ahead, Later(cut), cut)
    requires StreamCount(cfg) > cfg.slotCount && Far(cfg, ahead, cut, base)
    requires q < |cfg.order|
    ensures GetAsPlanned(cfg, base + Planned(cfg, ahead, Later(cut), q), Later(cut), q)
  {
    if Streams(cfg, q) {
      if q < cut {
        NeverPlanned(cfg, ahead, Later(cut), q, q);
        FarAt(cfg, ahead, cut, base, q, |Planned(cfg, ahead, Later(cut), q)|);
        NotRecent(base, Planned(cfg, ahead, Later(cut), q), cfg.slotCount, cfg.order[q]);
      } else {
        LateGetHits(cfg, ahead, base, Later(cut), q);
      }
    }
  }

  /** Below the cut a later pass's prefetch hits. */
  lemma LaterPrefetchHits(cfg: Config, ahead: nat, cut: nat, base: seq<Id>, q: nat)
    requires Streams(cfg, q + ahead) && q + ahead < cut
    requires NearAt(base, cfg.order[q + ahead], |PlannedGot(cfg, ahead, Later(cut), q)|, cfg.slotCount)
    ensures PrefetchAsPlanned(cfg, ahead, base + PlannedGot(cfg, ahead, Later(cut), q), Later(cut), q)
  {
    var more, id := PlannedGot(cfg, ahead, Later(cut), q), cfg.order[q + ahead];
    var i: nat :| i < |base| && base[i] == id && |base| - i + |more| <= cfg.slotCount;
    IsRecent(base + more, cfg.slotCount, id, i);
  }

  /** At or past the cut it misses. */
  lemma LaterPrefetchMisses(cfg: Config, ahead: nat, cut: nat, base: seq<Id>, q: nat)
    requires Setting(cfg, ahead, cut) && Streams(cfg, q + ahead) && q + ahead >= cut
    requires Aged(base, cfg.order[q + ahead], cfg.slotCount - |PlannedGot(cfg, ahead, Later(cut), q)|)
    ensures PrefetchAsPlanned(cfg, ahead, base + PlannedGot(cfg, ahead, Later(cut), q), Later(cut), q)
  {
    NeverPlanned(cfg, ahead, Later(cut), q, q + ahead);
    assert cfg.order[q + ahead] !in GetPart(cfg, Later(cut), q);
    NotRecent(base, PlannedGot(cfg, ahead, Later(cut), q), cfg.slotCount, cfg.order[q + ahead]);
  }

  lemma FarAt(cfg: Config, ahead: nat, cut: nat, base: seq<Id>, q: nat, k: nat)
    requires ahead <= cut && StreamCount(cfg) > cfg.slotCount && Far(cfg, ahead, cut, base)
    requires Streams(cfg, q) && k == Turn(cfg, ahead, cut, q)
    ensures Aged(base, cfg.order[q], cfg.slotCount - k)
  {
    AgedLess(base, cfg.order[q], StreamCount(cfg) - 1 - k, cfg.slotCount - k);
  }

  lemma NearAtPrefetch(cfg: Config, ahead: nat, cut: nat, base: seq<Id>, x: nat, q: nat)
    requires Near(cfg, ahead, cut, base) && Streams(cfg, x) && x == q + ahead < cut
    ensures NearAt(base, cfg.order[x], |PlannedGot(cfg, ahead, Later(cut), q)|, cfg.slotCount)
  {
    assert x - ahead == q;
  }

  lemma TurnOfPrefetched(cfg: Config, ahead: nat, cut: nat, x: nat, q: nat)
    requires ahead <= cut && x == q + ahead >= cut
    ensures Turn(cfg, ahead, cut, x) == |PlannedGot(cfg, ahead, Later(cut), q)|
  {
    assert x - ahead == q;
  }

  lemma FarAtPrefetch(cfg: Config, ahead: nat, cut: nat, base: seq<Id>, x: nat, q: nat)
    requires ahead <= cut && StreamCount(cfg) > cfg.slotCount && Far(cfg, ahead, cut, base)
    requires Streams(cfg, x) && x == q + ahead >= cut
    ensures Aged(base, cfg.order[x], cfg.slotCount - |PlannedGot(cfg, ahead, Later(cut), q)|)
  {
    TurnOfPrefetched(cfg, ahead, cut, x, q);
    FarAt(cfg, ahead, cut, base, x, |PlannedGot(cfg, ahead, Later(cut), q)|);
  }

  lemma LaterPrefetchLow(cfg: Config, ahead: nat, cut: nat, base: seq<Id>, q: nat, x: nat)
    requires Near(cfg, ahead, cut, base) && Streams(cfg, x) && x == q + ahead < cut
    ensures PrefetchAsPlanned(cfg, ahead, base + PlannedGot(cfg, ahead, Later(cut), q), Later(cut), q)
  {
    NearAtPrefetch(cfg, ahead, cut, base, x, q);
    LaterPrefetchHits(cfg, ahead, cut, base, q);
  }

  lemma LaterPrefetchHigh(cfg: Config, ahead: nat, cut: nat, base: seq<Id>, q: nat, x: nat)
    requires Setting(cfg, ahead, cut) && StreamCount(cfg) > cfg.slotCount && Far(cfg, ahead, cut, base)
    requires Streams(cfg, x) && x == q + ahead >= cut
    ensures PrefetchAsPlanned(cfg, ahead, base + PlannedGot(cfg, ahead, Later(cut), q), Later(cut), q)
  {
    FarAtPrefetch(cfg, ahead, cut, base, x, q);
    LaterPrefetchMisses(cfg, ahead, cut, base, q);
  }

  lemma LaterPrefetch(cfg: Config, ahead: nat, cut: nat, base: seq<Id>, q: nat)
    requires Setting(cfg, ahead, cut)
    requires StreamCount(cfg) > cfg.slotCount && Far(cfg, ahead, cut, base) && Near(cfg, ahead, cut, base)
    requires q < |cfg.order|
    ensures PrefetchAsPlanned(cfg, ahead, base + PlannedGot(cfg, ahead, Later(cut), q), Later(cut), q)
  {
    if Streams(cfg, q + ahead) {
      if q + ahead < cut {
        LaterPrefetchLow(cfg, ahead, cut, base, q, q + ahead);
      } else {
        LaterPrefetchHigh(cfg, ahead, cut, base, q, q + ahead);
      }
    }
  }

  lemma LaterPassAsPlanned(cfg: Config, ahead: nat, cut: nat, base: seq<Id>)
    requires Setting(cfg, ahead, cut)
    requires PrefetchesLast(cfg, ahead, Later(cut), cut) && PrefetchesSpare(cfg, ahead, Later(cut), cut)
    requires |Planned(cfg, ahead, Later(cut), |cfg.order|)| == StreamCount(cfg) > cfg.slotCount
    requires Far(cfg, ahead, cut, base) && Near(cfg, ahead, cut, base)
    ensures PositionsOk(cfg, ahead, base, Later(cut), 0, |cfg.order|)
  {
    forall q: nat | q < |cfg.order| ensures PositionOk(cfg, ahead, base, Later(cut), q) {
      LaterGet(cfg, ahead, cut, base, q);
      LaterPrefetch(cfg, ahead, cut, base, q);
      AlwaysSpared(cfg, ahead, base, Later(cut), q);
    }
  }

  // -------------------------------------------------- what a pass leaves behind

  /** How many entries of a pass come before block `q`'s last one. */
  ghost function LastTurn(cfg: Config, ahead: nat, cut: nat, pattern: Pattern, q: nat): nat
    requires ahead <= cut
  {
    if q < cut then |Planned(cfg, ahead, pattern, q)| else |PlannedGot(cfg, ahead, pattern, q - ahead)|
  }

  /** At least as much is transferred after block `q`'s last transfer as in a later pass. */
  ghost predicate EnoughAfter(cfg: Config, ahead: nat, cut: nat, pattern: Pattern)
    requires ahead <= cut
  {
    forall q: nat :: Streams(cfg, q) ==>
      |Planned(cfg, ahead, pattern, |cfg.order|)| - LastTurn(cfg, ahead, cut, pattern, q) >=
      StreamCount(cfg) - Turn(cfg, ahead, cut, q)
  }

  lemma LastGet(cfg: Config, ahead: nat, cut: nat, pattern: Pattern, q: nat)
    requires Setting(cfg, ahead, cut) && (pattern == First(cut) || pattern == Later(cut)) && Streams(cfg, q) && q < cut
    ensures AbsentFrom(Planned(cfg, ahead, pattern, |cfg.order|), |Planned(cfg, ahead, pattern, q)| + 1, cfg.order[q])
  {
    GetEntry(cfg, ahead, pattern, q, |cfg.order|);
    NotPlannedSince(cfg, ahead, pattern, q, |cfg.order|, q, |PlannedGot(cfg, ahead, pattern, q)|);
  }

  lemma LastPrefetch(cfg: Config, ahead: nat, cut: nat, pattern: Pattern, q: nat, u: nat)
    requires Setting(cfg, ahead, cut) && (pattern == First(cut) || pattern == Later(cut)) && Streams(cfg, q)
    requires cut <= q && q == u + ahead
    ensures AbsentFrom(Planned(cfg, ahead, pattern, |cfg.order|), |PlannedGot(cfg, ahead, pattern, u)| + 1,
      cfg.order[q])
  {
    PrefetchEntry(cfg, ahead, pattern, u, |cfg.order|);
    NotPlannedFrom(cfg, ahead, pattern, u + 1, |cfg.order|, q, |Planned(cfg, ahead, pattern, u + 1)|);
  }

  lemma LastTransfer(cfg: Config, ahead: nat, cut: nat, pattern: Pattern, q: nat)
    requires Setting(cfg, ahead, cut) && (pattern == First(cut) || pattern == Later(cut)) && Streams(cfg, q)
    ensures AbsentFrom(Planned(cfg, ahead, pattern, |cfg.order|), LastTurn(cfg, ahead, cut, pattern, q) + 1,
      cfg.order[q])
  {
    if q < cut {
      LastGet(cfg, ahead, cut, pattern, q);
    } else {
      LastPrefetch(cfg, ahead, cut, pattern, q, q - ahead);
    }
  }

  lemma AbsentIsAged(base: seq<Id>, more: seq<Id>, id: Id, start: nat, d: int)
    requires AbsentFrom(more, start, id) && d <= |more| - start
    ensures Aged(base + more, id, d)
  {
  }

  lemma PassLeavesFar(cfg: Config, ahead: nat, cut: nat, pattern: Pattern, base: seq<Id>)
    requires Setting(cfg, ahead, cut) && (pattern == First(cut) || pattern == Later(cut))
    requires EnoughAfter(cfg, ahead, cut, pattern)
    ensures Far(cfg, ahead, cut, base + Planned(cfg, ahead, pattern, |cfg.order|))
  {
    forall q: nat | Streams(cfg, q)
      ensures Aged(base + Planned(cfg, ahead, pattern, |cfg.order|), cfg.order[q],
        StreamCount(cfg) - 1 - Turn(cfg, ahead, cut, q))
    {
      LastTransfer(cfg, ahead, cut, pattern, q);
      AbsentIsAged(base, Planned(cfg, ahead, pattern, |cfg.order|), cfg.order[q],
        LastTurn(cfg, ahead, cut, pattern, q) + 1, StreamCount(cfg) - 1 - Turn(cfg, ahead, cut, q));
    }
  }

  lemma PassLeavesNear(cfg: Config, ahead: nat, cut: nat, pattern: Pattern, base: seq<Id>)
    requires Setting(cfg, ahead, cut) && (pattern == First(cut) || pattern == Later(cut))
    requires EarlyKept(cfg, ahead, cut, pattern)
    ensures Near(cfg, ahead, cut, base + Planned(cfg, ahead, pattern, |cfg.order|))
  {
    var more := Planned(cfg, ahead, pattern, |cfg.order|);
    forall q: nat | Streams(cfg, q) && ahead <= q < cut
      ensures NearAt(base + more, cfg.order[q], |PlannedGot(cfg, ahead, Later(cut), q - ahead)|, cfg.slotCount)
    {
      GetEntry(cfg, ahead, pattern, q, |cfg.order|);
      assert (base + more)[|base| + |Planned(cfg, ahead, pattern, q)|] == cfg.order[q];
    }
  }

  // ------------------------------------------------------- everything fits

  /** Once every streaming block is among the last `S` transfers, nothing is transferred again. */
  lemma SettledPassAsPlanned(cfg: Config, ahead: nat, base: seq<Id>)
    requires forall q: nat :: Streams(cfg, q) ==> cfg.order[q] in Recent(base, cfg.slotCount)
    ensures PositionsOk(cfg, ahead, base, Settled, 0, |cfg.order|)
  {
    forall q: nat | q < |cfg.order| ensures PositionOk(cfg, ahead, base, Settled, q) {
      SettledPlan(cfg, ahead, q);
      assert PlannedGot(cfg, ahead, Settled, q) == [];
      assert base + [] == base;
    }
  }

  lemma {:induction false} SettledPlan(cfg: Config, ahead: nat, q: nat)
    ensures Planned(cfg, ahead, Settled, q) == []
  {
    if q > 0 {
      SettledPlan(cfg, ahead, q - 1);
    }
  }

  /** The first pass transfers every streaming block. */
  lemma FirstPassReachesAll(cfg: Config, ahead: nat, cut: nat, q: nat)
    requires 1 <= ahead <= cut && Streams(cfg, q)
    ensures cfg.order[q] in Planned(cfg, ahead, First(cut), |cfg.order|)
  {
    if q < cut {
      GetEntry(cfg, ahead, First(cut), q, |cfg.order|);
    } else {
      PrefetchEntry(cfg, ahead, First(cut), q - ahead, |cfg.order|);
    }
  }
}
