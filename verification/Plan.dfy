/** Which of a forward pass's fetches transfer a block.

    At position `q` of a pass the pre-hook gets block `q` and then prefetches
    block `q + ahead`, if there is one; the block runs and the post-hook marks it
    done.  A block at position `ahead` or later is therefore asked for twice per
    pass, the others once. */
module Plan {
  import opened Common
  import opened Device
  import opened Engine

  predicate Streams(cfg: Config, q: nat) {
    q < |cfg.order| && cfg.order[q] !in cfg.resident
  }

  /** Which fetches transfer a block.  Blocks below `cut` are transferred when
      they are got, the others when they are prefetched; in the first pass every
      prefetch transfers; once everything fits, nothing does. */
  datatype Pattern = First(cut: nat) | Later(cut: nat) | Settled

  predicate GetTransfers(cfg: Config, pattern: Pattern, q: nat) {
    Streams(cfg, q) && !pattern.Settled? && q < pattern.cut
  }

  predicate PrefetchTransfers(cfg: Config, ahead: nat, pattern: Pattern, q: nat) {
    Streams(cfg, q + ahead) && (pattern.First? || (pattern.Later? && q + ahead >= pattern.cut))
  }

  function GetPart(cfg: Config, pattern: Pattern, q: nat): seq<Id> {
    if GetTransfers(cfg, pattern, q) then [cfg.order[q]] else []
  }

  function PrefetchPart(cfg: Config, ahead: nat, pattern: Pattern, q: nat): seq<Id> {
    if PrefetchTransfers(cfg, ahead, pattern, q) then [cfg.order[q + ahead]] else []
  }

  /** The ids transferred at the positions before `q`, in order. */
  function Planned(cfg: Config, ahead: nat, pattern: Pattern, q: nat): seq<Id> {
    if q == 0 then []
    else Planned(cfg, ahead, pattern, q - 1) + GetPart(cfg, pattern, q - 1) + PrefetchPart(cfg, ahead, pattern, q - 1)
  }

  /** ... and at `q` itself up to its get. */
  function PlannedGot(cfg: Config, ahead: nat, pattern: Pattern, q: nat): seq<Id> {
    Planned(cfg, ahead, pattern, q) + GetPart(cfg, pattern, q)
  }

  // ------------------------------------------------------------ closed forms

  type Weight = nat -> nat

  const ONE: Weight := _ => 1

  /** Total weight of the streaming positions below `x`. */
  function Streaming(cfg: Config, w: Weight, x: nat): nat {
    if x == 0 then 0 else Streaming(cfg, w, x - 1) + (if Streams(cfg, x - 1) then w(x - 1) else 0)
  }

  /** The number of blocks that stream. */
  function StreamCount(cfg: Config): nat {
    Streaming(cfg, ONE, |cfg.order|)
  }

  /** Total weight of the positions transferred before position `q`. */
  function PlannedWeight(cfg: Config, ahead: nat, pattern: Pattern, w: Weight, q: nat): nat {
    if q == 0 then 0 else
      PlannedWeight(cfg, ahead, pattern, w, q - 1) +
      (if GetTransfers(cfg, pattern, q - 1) then w(q - 1) else 0) +
      (if PrefetchTransfers(cfg, ahead, pattern, q - 1) then w(q - 1 + ahead) else 0)
  }

  function Min(a: nat, b: nat): nat {
    if a < b then a else b
  }

  function Between(cfg: Config, w: Weight, lo: nat, hi: nat): int {
    if hi <= lo then 0 else Streaming(cfg, w, hi) - Streaming(cfg, w, lo)
  }

  /** The weight transferred by the first `g` gets and the first `p` prefetches. */
  function Form(cfg: Config, ahead: nat, pattern: Pattern, w: Weight, g: nat, p: nat): int {
    match pattern
    case First(cut) => Streaming(cfg, w, Min(g, cut)) + Between(cfg, w, ahead, p + ahead)
    case Later(cut) => Streaming(cfg, w, Min(g, cut)) + Between(cfg, w, cut, p + ahead)
    case Settled => 0
  }

  lemma FormGet(cfg: Config, ahead: nat, pattern: Pattern, w: Weight, g: nat, p: nat)
    ensures Form(cfg, ahead, pattern, w, g + 1, p) ==
      Form(cfg, ahead, pattern, w, g, p) + (if GetTransfers(cfg, pattern, g) then w(g) else 0)
  {
  }

  lemma FormPrefetch(cfg: Config, ahead: nat, pattern: Pattern, w: Weight, g: nat, p: nat)
    requires pattern.Later? ==> pattern.cut >= ahead
    ensures Form(cfg, ahead, pattern, w, g, p + 1) ==
      Form(cfg, ahead, pattern, w, g, p) + (if PrefetchTransfers(cfg, ahead, pattern, p) then w(p + ahead) else 0)
  {
  }

  lemma {:induction false} PlannedClosedForm(cfg: Config, ahead: nat, pattern: Pattern, w: Weight, q: nat)
    requires pattern.Later? ==> pattern.cut >= ahead
    ensures PlannedWeight(cfg, ahead, pattern, w, q) == Form(cfg, ahead, pattern, w, q, q)
  {
    if q > 0 {
      PlannedClosedForm(cfg, ahead, pattern, w, q - 1);
      FormGet(cfg, ahead, pattern, w, q - 1, q - 1);
      FormPrefetch(cfg, ahead, pattern, w, q, q - 1);
    }
  }

  lemma {:induction false} PlannedLength(cfg: Config, ahead: nat, pattern: Pattern, q: nat)
    ensures |Planned(cfg, ahead, pattern, q)| == PlannedWeight(cfg, ahead, pattern, ONE, q)
  {
    if q > 0 {
      PlannedLength(cfg, ahead, pattern, q - 1);
    }
  }

  /** The number of transfers planned before position `q`, and up to its get. */
  lemma PlannedCount(cfg: Config, ahead: nat, pattern: Pattern, q: nat)
    requires pattern.Later? ==> pattern.cut >= ahead
    ensures |Planned(cfg, ahead, pattern, q)| == Form(cfg, ahead, pattern, ONE, q, q)
    ensures |PlannedGot(cfg, ahead, pattern, q)| == Form(cfg, ahead, pattern, ONE, q + 1, q)
  {
    PlannedLength(cfg, ahead, pattern, q);
    PlannedClosedForm(cfg, ahead, pattern, ONE, q);
    FormGet(cfg, ahead, pattern, ONE, q, q);
  }

  lemma {:induction false} StreamingBounds(cfg: Config, lo: nat, hi: nat)
    requires lo <= hi
    ensures Streaming(cfg, ONE, lo) <= Streaming(cfg, ONE, hi) <= Streaming(cfg, ONE, lo) + (hi - lo)
    decreases hi
  {
    if lo < hi {
      StreamingBounds(cfg, lo, hi - 1);
    }
  }

  /** Positions past the last block do not stream. */
  lemma {:induction false} StreamingSaturates(cfg: Config, w: Weight, x: nat)
    requires x >= |cfg.order|
    ensures Streaming(cfg, w, x) == Streaming(cfg, w, |cfg.order|)
  {
    if x > |cfg.order| {
      StreamingSaturates(cfg, w, x - 1);
    }
  }

  // --------------------------------------------------- where an id is planned

  function Part(cfg: Config, ahead: nat, pattern: Pattern, q: nat): seq<Id> {
    GetPart(cfg, pattern, q) + PrefetchPart(cfg, ahead, pattern, q)
  }

  lemma PlannedNext(cfg: Config, ahead: nat, pattern: Pattern, q: nat)
    ensures Planned(cfg, ahead, pattern, q + 1) == Planned(cfg, ahead, pattern, q) + Part(cfg, ahead, pattern, q)
    ensures Planned(cfg, ahead, pattern, q + 1) ==
      PlannedGot(cfg, ahead, pattern, q) + PrefetchPart(cfg, ahead, pattern, q)
  {
  }

  lemma {:induction false} PlannedGrows(cfg: Config, ahead: nat, pattern: Pattern, u: nat, q: nat)
    requires u <= q
    ensures Planned(cfg, ahead, pattern, u) <= Planned(cfg, ahead, pattern, q)
    decreases q
  {
    if u < q {
      var p := q - 1;
      PlannedGrows(cfg, ahead, pattern, u, p);
      PlannedNext(cfg, ahead, pattern, p);
      PrefixOfMore(Planned(cfg, ahead, pattern, u), Planned(cfg, ahead, pattern, p), Part(cfg, ahead, pattern, p));
    }
  }

  lemma PrefixOfMore(a: seq<Id>, b: seq<Id>, more: seq<Id>)
    requires a <= b
    ensures a <= b + more
  {
  }

  lemma PlannedPrefix(cfg: Config, ahead: nat, pattern: Pattern, u: nat, q: nat)
    requires u <= q
    ensures Planned(cfg, ahead, pattern, u) <= Planned(cfg, ahead, pattern, q)
    ensures u < q ==> PlannedGot(cfg, ahead, pattern, u) <= Planned(cfg, ahead, pattern, q)
  {
    PlannedGrows(cfg, ahead, pattern, u, q);
    if u < q {
      PlannedGrows(cfg, ahead, pattern, u + 1, q);
    }
  }

  /** From the prefetch at `u` up to `q`, no fetch transfers position `x`. */
  ghost predicate NotFetched(cfg: Config, ahead: nat, pattern: Pattern, u: nat, q: nat, x: nat) {
    && (forall v: nat :: u <= v < q && PrefetchTransfers(cfg, ahead, pattern, v) ==> v + ahead != x)
    && (forall v: nat :: u < v < q && GetTransfers(cfg, pattern, v) ==> v != x)
  }

  ghost predicate AbsentFrom(trace: seq<Id>, start: nat, id: Id) {
    forall i :: start <= i < |trace| ==> trace[i] != id
  }

  lemma AbsentStep(trace: seq<Id>, start: nat, id: Id, more: seq<Id>)
    requires AbsentFrom(trace, start, id) && id !in more
    ensures AbsentFrom(trace + more, start, id)
  {
  }

  lemma NotInPart(cfg: Config, ahead: nat, pattern: Pattern, q: nat, x: nat)
    requires Distinct(cfg.order) && x < |cfg.order|
    requires PrefetchTransfers(cfg, ahead, pattern, q) ==> q + ahead != x
    ensures cfg.order[x] !in PrefetchPart(cfg, ahead, pattern, q)
    ensures (GetTransfers(cfg, pattern, q) ==> q != x) ==> cfg.order[x] !in Part(cfg, ahead, pattern, q)
  {
  }

  lemma AbsentFirst(cfg: Config, ahead: nat, pattern: Pattern, u: nat, q: nat, x: nat, start: nat)
    requires Distinct(cfg.order) && x < |cfg.order| && q == u + 1 && start == |PlannedGot(cfg, ahead, pattern, u)|
    requires PrefetchTransfers(cfg, ahead, pattern, u) ==> u + ahead != x
    ensures AbsentFrom(Planned(cfg, ahead, pattern, q), start, cfg.order[x])
  {
    PlannedNext(cfg, ahead, pattern, u);
    NotInPart(cfg, ahead, pattern, u, x);
    AbsentStep(PlannedGot(cfg, ahead, pattern, u), start, cfg.order[x], PrefetchPart(cfg, ahead, pattern, u));
  }

  lemma AbsentNext(cfg: Config, ahead: nat, pattern: Pattern, p: nat, x: nat, start: nat)
    requires Distinct(cfg.order) && x < |cfg.order|
    requires AbsentFrom(Planned(cfg, ahead, pattern, p), start, cfg.order[x])
    requires PrefetchTransfers(cfg, ahead, pattern, p) ==> p + ahead != x
    requires GetTransfers(cfg, pattern, p) ==> p != x
    ensures AbsentFrom(Planned(cfg, ahead, pattern, p + 1), start, cfg.order[x])
  {
    PlannedNext(cfg, ahead, pattern, p);
    NotInPart(cfg, ahead, pattern, p, x);
    AbsentStep(Planned(cfg, ahead, pattern, p), start, cfg.order[x], Part(cfg, ahead, pattern, p));
  }

  /** An id not fetched since the get at `u` does not occur after that point. */
  lemma {:induction false} NotPlannedSince(cfg: Config, ahead: nat, pattern: Pattern, u: nat, q: nat, x: nat,
                                           start: nat)
    requires Distinct(cfg.order) && x < |cfg.order| && u < q && start == |PlannedGot(cfg, ahead, pattern, u)|
    requires NotFetched(cfg, ahead, pattern, u, q, x)
    ensures AbsentFrom(Planned(cfg, ahead, pattern, q), start, cfg.order[x])
    decreases q
  {
    if u < q - 1 {
      NotPlannedSince(cfg, ahead, pattern, u, q - 1, x, start);
      AbsentNext(cfg, ahead, pattern, q - 1, x, start);
    } else {
      AbsentFirst(cfg, ahead, pattern, u, q, x, start);
    }
  }

  /** An id not fetched at any position before `q` does not occur at all. */
  lemma {:induction false} NeverPlanned(cfg: Config, ahead: nat, pattern: Pattern, q: nat, x: nat)
    requires Distinct(cfg.order) && x < |cfg.order|
    requires forall v: nat :: v < q && PrefetchTransfers(cfg, ahead, pattern, v) ==> v + ahead != x
    requires forall v: nat :: v < q && GetTransfers(cfg, pattern, v) ==> v != x
    ensures cfg.order[x] !in Planned(cfg, ahead, pattern, q)
  {
    if q > 0 {
      NeverPlanned(cfg, ahead, pattern, q - 1, x);
      assert PrefetchTransfers(cfg, ahead, pattern, q - 1) ==> q - 1 + ahead != x;
      assert GetTransfers(cfg, pattern, q - 1) ==> q - 1 != x;
    }
  }

  /** An id not fetched at positions `lo` to `q` does not occur after position `lo` began. */
  lemma {:induction false} NotPlannedFrom(cfg: Config, ahead: nat, pattern: Pattern, lo: nat, q: nat, x: nat,
                                          start: nat)
    requires Distinct(cfg.order) && x < |cfg.order| && lo <= q && start == |Planned(cfg, ahead, pattern, lo)|
    requires forall v: nat :: lo <= v < q && PrefetchTransfers(cfg, ahead, pattern, v) ==> v + ahead != x
    requires forall v: nat :: lo <= v < q && GetTransfers(cfg, pattern, v) ==> v != x
    ensures AbsentFrom(Planned(cfg, ahead, pattern, q), start, cfg.order[x])
    decreases q
  {
    if lo < q {
      NotPlannedFrom(cfg, ahead, pattern, lo, q - 1, x, start);
      AbsentNext(cfg, ahead, pattern, q - 1, x, start);
    }
  }

  /** The prefetch at `u` transfers entry number `|PlannedGot(u)|`. */
  lemma PrefetchEntry(cfg: Config, ahead: nat, pattern: Pattern, u: nat, q: nat)
    requires PrefetchTransfers(cfg, ahead, pattern, u) && u < q
    ensures |Planned(cfg, ahead, pattern, u + 1)| ==
      |PlannedGot(cfg, ahead, pattern, u)| + 1 <= |Planned(cfg, ahead, pattern, q)|
    ensures Planned(cfg, ahead, pattern, q)[|PlannedGot(cfg, ahead, pattern, u)|] == cfg.order[u + ahead]
  {
    PlannedPrefix(cfg, ahead, pattern, u + 1, q);
    assert Planned(cfg, ahead, pattern, u + 1)[|PlannedGot(cfg, ahead, pattern, u)|] == cfg.order[u + ahead];
  }

  /** The get at `u` transfers entry number `|Planned(u)|`. */
  lemma GetEntry(cfg: Config, ahead: nat, pattern: Pattern, u: nat, q: nat)
    requires GetTransfers(cfg, pattern, u) && u < q
    ensures |PlannedGot(cfg, ahead, pattern, u)| ==
      |Planned(cfg, ahead, pattern, u)| + 1 <= |Planned(cfg, ahead, pattern, q)|
    ensures Planned(cfg, ahead, pattern, q)[|Planned(cfg, ahead, pattern, u)|] == cfg.order[u]
  {
    PlannedPrefix(cfg, ahead, pattern, u, q);
    assert PlannedGot(cfg, ahead, pattern, u)[|Planned(cfg, ahead, pattern, u)|] == cfg.order[u];
  }
}
