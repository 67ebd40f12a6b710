/** How much the installed schedule transfers and how often it hits, in closed form. */
module Counts {
  import opened Device
  import opened Engine
  import opened Protocol
  import opened Fifo
  import opened Plan
  import opened Schedule
  import opened Windows
  import opened Regimes
  import opened Thrash
  import opened Attach

  // ------------------------------------------------------------------- bytes

  /** The size of the block at position `q`. */
  function SizeAt(cfg: Config, q: nat): nat {
    if q < |cfg.order| then SizeOf(cfg, cfg.order[q]) else 0
  }

  function Sizes(cfg: Config): Weight {
    (q: nat) => SizeAt(cfg, q)
  }

  function SizeOf(cfg: Config, id: Id): nat {
    if id in cfg.bytes then cfg.bytes[id] else 0
  }

  function TraceBytes(cfg: Config, trace: seq<Id>): nat {
    if trace == [] then 0 else TraceBytes(cfg, trace[..|trace| - 1]) + SizeOf(cfg, trace[|trace| - 1])
  }

  /** The size of the streaming part of the model. */
  function StreamBytes(cfg: Config): nat {
    Streaming(cfg, Sizes(cfg), |cfg.order|)
  }

  lemma {:induction false} TraceBytesConcat(cfg: Config, a: seq<Id>, b: seq<Id>)
    ensures TraceBytes(cfg, a + b) == TraceBytes(cfg, a) + TraceBytes(cfg, b)
    decreases |b|
  {
    if b == [] {
      assert a + b == a;
    } else {
      assert (a + b)[..|a + b| - 1] == a + b[..|b| - 1];
      TraceBytesConcat(cfg, a, b[..|b| - 1]);
    }
  }

  lemma GetPartBytes(cfg: Config, pattern: Pattern, q: nat)
    ensures TraceBytes(cfg, GetPart(cfg, pattern, q)) == if GetTransfers(cfg, pattern, q) then SizeAt(cfg, q) else 0
  {
    if GetTransfers(cfg, pattern, q) {
      assert [cfg.order[q]][..0] == [];
    }
  }

  lemma PrefetchPartBytes(cfg: Config, ahead: nat, pattern: Pattern, q: nat)
    ensures TraceBytes(cfg, PrefetchPart(cfg, ahead, pattern, q)) ==
      if PrefetchTransfers(cfg, ahead, pattern, q) then SizeAt(cfg, q + ahead) else 0
  {
    if PrefetchTransfers(cfg, ahead, pattern, q) {
      assert [cfg.order[q + ahead]][..0] == [];
    }
  }

  lemma PlannedBytesStep(cfg: Config, ahead: nat, pattern: Pattern, q: nat)
    ensures TraceBytes(cfg, Planned(cfg, ahead, pattern, q + 1)) ==
      TraceBytes(cfg, Planned(cfg, ahead, pattern, q)) +
      (if GetTransfers(cfg, pattern, q) then SizeAt(cfg, q) else 0) +
      (if PrefetchTransfers(cfg, ahead, pattern, q) then SizeAt(cfg, q + ahead) else 0)
  {
    var before, got := Planned(cfg, ahead, pattern, q), GetPart(cfg, pattern, q);
    GetPartBytes(cfg, pattern, q);
    PrefetchPartBytes(cfg, ahead, pattern, q);
    TraceBytesConcat(cfg, before + got, PrefetchPart(cfg, ahead, pattern, q));
    TraceBytesConcat(cfg, before, got);
  }

  lemma PlannedWeightStep(cfg: Config, ahead: nat, pattern: Pattern, q: nat)
    ensures PlannedWeight(cfg, ahead, pattern, Sizes(cfg), q + 1) ==
      PlannedWeight(cfg, ahead, pattern, Sizes(cfg), q) +
      (if GetTransfers(cfg, pattern, q) then SizeAt(cfg, q) else 0) +
      (if PrefetchTransfers(cfg, ahead, pattern, q) then SizeAt(cfg, q + ahead) else 0)
  {
  }

  lemma {:induction false} PlannedBytes(cfg: Config, ahead: nat, pattern: Pattern, q: nat)
    ensures TraceBytes(cfg, Planned(cfg, ahead, pattern, q)) == PlannedWeight(cfg, ahead, pattern, Sizes(cfg), q)
  {
    if q > 0 {
      var u := q - 1;
      PlannedBytes(cfg, ahead, pattern, u);
      PlannedBytesStep(cfg, ahead, pattern, u);
      PlannedWeightStep(cfg, ahead, pattern, u);
    }
  }

  lemma {:induction false} TimedIsTrace(cfg: Config, timings: seq<Timing>, trace: seq<Id>)
    requires |trace| == |timings|
    requires forall k :: 0 <= k < |timings| ==> trace[k] == timings[k].id && timings[k].bytes == SizeOf(cfg, trace[k])
    ensures TimedBytes(timings) == TraceBytes(cfg, trace)
  {
    if timings != [] {
      TimedIsTrace(cfg, timings[..|timings| - 1], trace[..|trace| - 1]);
    }
  }

  /** A first pass transfers every streaming block, and those below the cut twice. */
  lemma FirstWeight(cfg: Config, ahead: nat, cut: nat, w: Weight)
    requires ahead <= cut && (cut > ahead ==> cut <= |cfg.order|)
    ensures PlannedWeight(cfg, ahead, First(cut), w, |cfg.order|) ==
      Streaming(cfg, w, |cfg.order|) + Streaming(cfg, w, cut) - Streaming(cfg, w, ahead)
  {
    var n := |cfg.order|;
    PlannedClosedForm(cfg, ahead, First(cut), w, n);
    StreamingSaturates(cfg, w, n + ahead);
    if cut > n {
      StreamingSaturates(cfg, w, cut);
    }
  }

  /** A later pass transfers every streaming block once. */
  lemma LaterWeight(cfg: Config, ahead: nat, cut: nat, w: Weight)
    requires ahead <= cut && (cut > ahead ==> cut <= |cfg.order|)
    ensures PlannedWeight(cfg, ahead, Later(cut), w, |cfg.order|) == Streaming(cfg, w, |cfg.order|)
  {
    var n := |cfg.order|;
    PlannedClosedForm(cfg, ahead, Later(cut), w, n);
    StreamingSaturates(cfg, w, n + ahead);
    if cut > n {
      StreamingSaturates(cfg, w, cut);
    }
  }

  // --------------------------------------------------------- transfers, bytes

  /** How many passes transfer: all of them, or only the first once everything fits. */
  function BusyPasses(cfg: Config, steps: nat): nat {
    if StreamCount(cfg) <= cfg.slotCount then Min(steps, 1) else steps
  }

  /** How many passes transfer the blocks below the cut a second time. */
  function ThrashedPasses(cfg: Config, ahead: nat, steps: nat): nat {
    if Repeats(cfg, ahead) then steps else Min(steps, 1)
  }

  lemma CutOfIsInside(cfg: Config, ahead: nat)
    requires Guarded(cfg, ahead) && Covered(cfg, ahead)
    ensures ahead <= CutOf(cfg, ahead) && (CutOf(cfg, ahead) > ahead ==> CutOf(cfg, ahead) <= |cfg.order|)
  {
    if cfg.slotCount < 2 * ahead && StreamCount(cfg) > cfg.slotCount {
      if |cfg.order| <= 2 * ahead {
        CutIsInside(cfg, ahead);
      } else {
        LateCutBounds(cfg, ahead);
      }
    }
  }

  /** The weight of the blocks that a first pass transfers twice. */
  function Twice(cfg: Config, ahead: nat, w: Weight): int {
    Streaming(cfg, w, CutOf(cfg, ahead)) - Streaming(cfg, w, ahead)
  }

  function All(cfg: Config, w: Weight): nat {
    Streaming(cfg, w, |cfg.order|)
  }

  /** The weight of one pass after the first. */
  function LaterForm(cfg: Config, ahead: nat, w: Weight): int {
    if StreamCount(cfg) <= cfg.slotCount then 0
    else if Repeats(cfg, ahead) then All(cfg, w) + Twice(cfg, ahead, w)
    else All(cfg, w)
  }

  lemma FirstFormWeight(cfg: Config, ahead: nat, w: Weight)
    requires Guarded(cfg, ahead) && Covered(cfg, ahead)
    ensures PlannedWeight(cfg, ahead, First(CutOf(cfg, ahead)), w, |cfg.order|) == All(cfg, w) + Twice(cfg, ahead, w)
  {
    CutOfIsInside(cfg, ahead);
    FirstWeight(cfg, ahead, CutOf(cfg, ahead), w);
  }

  lemma LaterFormWeight(cfg: Config, ahead: nat, w: Weight)
    requires Guarded(cfg, ahead) && Covered(cfg, ahead) && StreamCount(cfg) > cfg.slotCount
    ensures PlannedWeight(cfg, ahead, LaterPattern(cfg, ahead), w, |cfg.order|) == LaterForm(cfg, ahead, w)
  {
    if Repeats(cfg, ahead) {
      FirstFormWeight(cfg, ahead, w);
    } else {
      CutOfIsInside(cfg, ahead);
      LaterWeight(cfg, ahead, CutOf(cfg, ahead), w);
    }
  }

  lemma FirstTraceSize(cfg: Config, ahead: nat)
    requires Guarded(cfg, ahead) && Covered(cfg, ahead)
    ensures |TraceOf(cfg, ahead, 1)| == StreamCount(cfg) + Twice(cfg, ahead, ONE)
    ensures TraceBytes(cfg, TraceOf(cfg, ahead, 1)) == StreamBytes(cfg) + Twice(cfg, ahead, Sizes(cfg))
  {
    var cut := CutOf(cfg, ahead);
    PlannedLength(cfg, ahead, First(cut), |cfg.order|);
    FirstFormWeight(cfg, ahead, ONE);
    PlannedBytes(cfg, ahead, First(cut), |cfg.order|);
    FirstFormWeight(cfg, ahead, Sizes(cfg));
  }

  lemma LaterTraceSize(cfg: Config, ahead: nat)
    requires Guarded(cfg, ahead) && Covered(cfg, ahead)
    ensures var more := Planned(cfg, ahead, LaterPattern(cfg, ahead), |cfg.order|);
      |more| == LaterForm(cfg, ahead, ONE) && TraceBytes(cfg, more) == LaterForm(cfg, ahead, Sizes(cfg))
  {
    if StreamCount(cfg) <= cfg.slotCount {
      SettledPlan(cfg, ahead, |cfg.order|);
    } else {
      PlannedLength(cfg, ahead, LaterPattern(cfg, ahead), |cfg.order|);
      LaterFormWeight(cfg, ahead, ONE);
      PlannedBytes(cfg, ahead, LaterPattern(cfg, ahead), |cfg.order|);
      LaterFormWeight(cfg, ahead, Sizes(cfg));
    }
  }

  /** The number of transfers, or of bytes, after `steps >= 1` passes. */
  function WeightForm(cfg: Config, ahead: nat, w: Weight, steps: nat): int {
    BusyPasses(cfg, steps) * All(cfg, w) + ThrashedPasses(cfg, ahead, steps) * Twice(cfg, ahead, w)
  }

  lemma FormsStep(cfg: Config, ahead: nat, w: Weight, steps: nat)
    requires steps >= 1
    ensures WeightForm(cfg, ahead, w, steps + 1) - WeightForm(cfg, ahead, w, steps) == LaterForm(cfg, ahead, w)
  {
    Distribute(steps, All(cfg, w));
    Distribute(steps, Twice(cfg, ahead, w));
  }

  lemma Distribute(k: nat, x: int)
    ensures (k + 1) * x == k * x + x
  {
  }

  lemma FormsStart(cfg: Config, ahead: nat)
    requires Guarded(cfg, ahead) && Covered(cfg, ahead)
    ensures |TraceOf(cfg, ahead, 1)| == WeightForm(cfg, ahead, ONE, 1)
    ensures TraceBytes(cfg, TraceOf(cfg, ahead, 1)) == WeightForm(cfg, ahead, Sizes(cfg), 1)
  {
    FirstTraceSize(cfg, ahead);
  }

  lemma TraceStep(cfg: Config, ahead: nat, steps: nat)
    requires Guarded(cfg, ahead) && Covered(cfg, ahead) && steps >= 1
    ensures |TraceOf(cfg, ahead, steps + 1)| - |TraceOf(cfg, ahead, steps)| == LaterForm(cfg, ahead, ONE)
    ensures TraceBytes(cfg, TraceOf(cfg, ahead, steps + 1)) - TraceBytes(cfg, TraceOf(cfg, ahead, steps))
      == LaterForm(cfg, ahead, Sizes(cfg))
  {
    LaterTraceSize(cfg, ahead);
    TraceBytesConcat(cfg, TraceOf(cfg, ahead, steps), Planned(cfg, ahead, LaterPattern(cfg, ahead), |cfg.order|));
  }

  lemma {:induction false} TraceSize(cfg: Config, ahead: nat, steps: nat)
    requires Guarded(cfg, ahead) && Covered(cfg, ahead) && steps >= 1
    ensures |TraceOf(cfg, ahead, steps)| == WeightForm(cfg, ahead, ONE, steps)
    ensures TraceBytes(cfg, TraceOf(cfg, ahead, steps)) == WeightForm(cfg, ahead, Sizes(cfg), steps)
  {
    if steps == 1 {
      FormsStart(cfg, ahead);
    } else {
      var before := steps - 1;
      TraceSize(cfg, ahead, before);
      TraceStep(cfg, ahead, before);
      FormsStep(cfg, ahead, ONE, before);
      FormsStep(cfg, ahead, Sizes(cfg), before);
    }
  }

  lemma {:induction false} PassIsKnown(cfg: Config, ahead: nat, q: nat)
    requires q <= |cfg.order|
    ensures Known(cfg, PassCalls(cfg, ahead, q))
  {
    if q > 0 {
      PassIsKnown(cfg, ahead, q - 1);
    }
  }

  lemma {:induction false} AttachIsKnown(cfg: Config, ahead: nat, steps: nat)
    requires cfg.order != []
    ensures Known(cfg, AttachCalls(cfg, ahead, steps))
  {
    if steps > 0 {
      AttachIsKnown(cfg, ahead, steps - 1);
      PassIsKnown(cfg, ahead, |cfg.order|);
    }
  }

  lemma StatsAreTrace(cfg: Config, h: Host, trace: seq<Id>, issues: nat)
    requires Accounted(cfg, h, issues) && Transferred(h) == trace
    ensures h.stats.transferCount == |trace| && h.stats.bytesH2D == TraceBytes(cfg, trace)
  {
    TimedIsTrace(cfg, h.timings, trace);
  }

  lemma AttachAccounts(cfg: Config, ahead: nat, hasShared: bool, ids: seq<Id>, steps: nat)
    requires EngineConfig(cfg, hasShared, ids) && Guarded(cfg, ahead) && Covered(cfg, ahead) && steps >= 1
    ensures var calls := AttachCalls(cfg, ahead, steps);
      var h := Run(cfg, Opened(hasShared, ids, cfg.slotCount), calls).host;
      Accounted(cfg, h, Issues(calls)) && Transferred(h) == TraceOf(cfg, ahead, steps)
  {
    StepsRun(cfg, ahead, hasShared, ids, steps);
    AttachIsKnown(cfg, ahead, steps);
    RunAccounts(cfg, hasShared, ids, AttachCalls(cfg, ahead, steps));
  }

  /** What `steps >= 1` passes transfer.  Everything fits: one transfer per
      streaming block ever.  A deep ring, more streaming blocks than slots: one per
      streaming block per pass.  A shallow ring: besides, the blocks below the cut
      once more, in the first pass, or in every pass if it carries nothing over. */
  ghost predicate ClosedForms(cfg: Config, ahead: nat, steps: nat, transfers: int, bytes: int) {
    if StreamCount(cfg) <= cfg.slotCount then
      transfers == StreamCount(cfg) && bytes == StreamBytes(cfg)
    else if cfg.slotCount >= 2 * ahead then
      transfers == steps * StreamCount(cfg) && bytes == steps * StreamBytes(cfg)
    else
      && transfers == steps * StreamCount(cfg) + ThrashedPasses(cfg, ahead, steps) * Twice(cfg, ahead, ONE)
      && bytes == steps * StreamBytes(cfg) + ThrashedPasses(cfg, ahead, steps) * Twice(cfg, ahead, Sizes(cfg))
  }

  lemma OnePass(x: nat)
    ensures 1 * x == x
  {
  }

  lemma FormsByRegime(cfg: Config, ahead: nat, steps: nat)
    requires steps >= 1
    ensures ClosedForms(cfg, ahead, steps, WeightForm(cfg, ahead, ONE, steps),
      WeightForm(cfg, ahead, Sizes(cfg), steps))
  {
    OnePass(StreamCount(cfg));
    OnePass(StreamBytes(cfg));
    if cfg.slotCount >= 2 * ahead || StreamCount(cfg) <= cfg.slotCount {
      assert Twice(cfg, ahead, ONE) == 0 == Twice(cfg, ahead, Sizes(cfg));
    }
  }

  lemma AttachTransfers(cfg: Config, ahead: nat, hasShared: bool, ids: seq<Id>, steps: nat)
    requires EngineConfig(cfg, hasShared, ids) && Guarded(cfg, ahead) && Covered(cfg, ahead) && steps >= 1
    ensures var stats := Run(cfg, Opened(hasShared, ids, cfg.slotCount), AttachCalls(cfg, ahead, steps)).host.stats;
      && stats.transferCount == WeightForm(cfg, ahead, ONE, steps)
      && stats.bytesH2D == WeightForm(cfg, ahead, Sizes(cfg), steps)
  {
    AttachAccounts(cfg, ahead, hasShared, ids, steps);
    StatsAreTrace(cfg, Run(cfg, Opened(hasShared, ids, cfg.slotCount), AttachCalls(cfg, ahead, steps)).host,
      TraceOf(cfg, ahead, steps), Issues(AttachCalls(cfg, ahead, steps)));
    TraceSize(cfg, ahead, steps);
  }

  /** The statistics after `steps >= 1` passes. */
  lemma TransferCounts(cfg: Config, ahead: nat, hasShared: bool, ids: seq<Id>, steps: nat)
    requires EngineConfig(cfg, hasShared, ids) && Guarded(cfg, ahead) && Covered(cfg, ahead) && steps >= 1
    ensures var stats := Run(cfg, Opened(hasShared, ids, cfg.slotCount), AttachCalls(cfg, ahead, steps)).host.stats;
      ClosedForms(cfg, ahead, steps, stats.transferCount, stats.bytesH2D)
  {
    AttachTransfers(cfg, ahead, hasShared, ids, steps);
    FormsByRegime(cfg, ahead, steps);
  }

  lemma ThrashTwice(cfg: Config, ahead: nat)
    requires Thrashing(cfg, ahead)
    ensures Twice(cfg, ahead, ONE) == |cfg.order| - 1 - cfg.slotCount && Guarded(cfg, ahead) && Covered(cfg, ahead)
    ensures StreamCount(cfg) == |cfg.order| > cfg.slotCount && cfg.slotCount < 2 * ahead
    ensures Repeats(cfg, ahead) <==> |cfg.order| > cfg.slotCount + ahead
  {
    LateCutBounds(cfg, ahead);
    BelowAll(cfg, LateCut(cfg, ahead));
    BelowAll(cfg, ahead);
  }

  lemma ThrashForm(cfg: Config, ahead: nat, steps: nat, transfers: int, bytes: int)
    requires Thrashing(cfg, ahead) && steps >= 1 && ClosedForms(cfg, ahead, steps, transfers, bytes)
    ensures var n, again := |cfg.order|, |cfg.order| - 1 - cfg.slotCount;
      transfers == steps * n + (if n > cfg.slotCount + ahead then steps else 1) * again
  {
    ThrashTwice(cfg, ahead);
  }

  /** A thrashing ring transfers the `n` blocks and `n - 1 - S` of them again: in
      every pass, or only in the first if the ring carries over to the next. */
  lemma ThrashCounts(cfg: Config, ahead: nat, hasShared: bool, ids: seq<Id>, steps: nat)
    requires EngineConfig(cfg, hasShared, ids) && Thrashing(cfg, ahead) && steps >= 1
    ensures var transfers := Run(cfg, Opened(hasShared, ids, cfg.slotCount),
      AttachCalls(cfg, ahead, steps)).host.stats.transferCount;
      var n, again := |cfg.order|, |cfg.order| - 1 - cfg.slotCount;
      transfers == steps * n + (if n > cfg.slotCount + ahead then steps else 1) * again
  {
    ThrashTwice(cfg, ahead);
    TransferCounts(cfg, ahead, hasShared, ids, steps);
    var stats := Run(cfg, Opened(hasShared, ids, cfg.slotCount), AttachCalls(cfg, ahead, steps)).host.stats;
    ThrashForm(cfg, ahead, steps, stats.transferCount, stats.bytesH2D);
  }

  // -------------------------------------------------------------------- hits

  /** Issues of resident blocks among `calls`. */
  function ResidentIssues(cfg: Config, calls: seq<Call>): nat {
    if calls == [] then 0
    else
      var call := calls[|calls| - 1];
      ResidentIssues(cfg, calls[..|calls| - 1]) +
      (if (call.PrefetchCall? || call.GetCall?) && call.id in cfg.resident then 1 else 0)
  }

  lemma {:induction false} ResidentHitsAreIssues(cfg: Config, s: Session, calls: seq<Call>)
    requires WellFormed(s.host)
    ensures Run(cfg, s, calls).host.stats.residentHits == s.host.stats.residentHits + ResidentIssues(cfg, calls)
    decreases |calls|
  {
    if calls != [] {
      ResidentHitsAreIssues(cfg, s, calls[..|calls| - 1]);
    }
  }

  lemma {:induction false} IssuesConcat(cfg: Config, a: seq<Call>, b: seq<Call>)
    ensures Issues(a + b) == Issues(a) + Issues(b)
    ensures ResidentIssues(cfg, a + b) == ResidentIssues(cfg, a) + ResidentIssues(cfg, b)
    decreases |b|
  {
    if b == [] {
      assert a + b == a;
    } else {
      assert (a + b)[..|a + b| - 1] == a + b[..|b| - 1];
      IssuesConcat(cfg, a, b[..|b| - 1]);
    }
  }

  /** Resident blocks below position `x`. */
  function ResidentBelow(cfg: Config, x: nat): int {
    Min(x, |cfg.order|) - Below(cfg, x)
  }

  function One(b: bool): nat {
    if b then 1 else 0
  }

  lemma OneCall(cfg: Config, call: Call)
    ensures Issues([call]) == One(call.PrefetchCall? || call.GetCall?)
    ensures ResidentIssues(cfg, [call]) == One((call.PrefetchCall? || call.GetCall?) && call.id in cfg.resident)
    ensures Issues([]) == 0 == ResidentIssues(cfg, [])
  {
    assert [call][..0] == [];
  }

  lemma PositionIssues(cfg: Config, ahead: nat, q: nat)
    requires q < |cfg.order|
    ensures Issues(PositionCalls(cfg, ahead, q)) == 1 + One(q + ahead < |cfg.order|)
    ensures ResidentIssues(cfg, PositionCalls(cfg, ahead, q)) ==
      One(!Streams(cfg, q)) + One(q + ahead < |cfg.order| && !Streams(cfg, q + ahead))
  {
    var id := cfg.order[q];
    var get, next, launch, done := [GetCall(id)], PrefetchCalls(cfg, ahead, q), [LaunchCall(id)], [DoneCall(id)];
    assert PositionCalls(cfg, ahead, q) == get + next + launch + done;
    IssuesConcat(cfg, get + next + launch, done);
    IssuesConcat(cfg, get + next, launch);
    IssuesConcat(cfg, get, next);
    OneCall(cfg, GetCall(id));
    OneCall(cfg, LaunchCall(id));
    OneCall(cfg, DoneCall(id));
    if q + ahead < |cfg.order| {
      OneCall(cfg, PrefetchCall(cfg.order[q + ahead]));
    }
  }

  lemma ResidentBelowStep(cfg: Config, x: nat)
    ensures ResidentBelow(cfg, x + 1) == ResidentBelow(cfg, x) + One(x < |cfg.order| && !Streams(cfg, x))
  {
  }

  lemma PassStep(cfg: Config, ahead: nat, q: nat)
    requires q < |cfg.order|
    ensures Issues(PassCalls(cfg, ahead, q + 1)) == Issues(PassCalls(cfg, ahead, q)) + 1 + One(q + ahead < |cfg.order|)
    ensures ResidentIssues(cfg, PassCalls(cfg, ahead, q + 1)) == ResidentIssues(cfg, PassCalls(cfg, ahead, q)) +
      One(!Streams(cfg, q)) + One(q + ahead < |cfg.order| && !Streams(cfg, q + ahead))
  {
    PositionIssues(cfg, ahead, q);
    IssuesConcat(cfg, PassCalls(cfg, ahead, q), PositionCalls(cfg, ahead, q));
  }

  lemma {:induction false} PassIssues(cfg: Config, ahead: nat, q: nat)
    requires q <= |cfg.order|
    ensures Issues(PassCalls(cfg, ahead, q)) == q + Min(q + ahead, |cfg.order|) - Min(ahead, |cfg.order|)
  {
    if q > 0 {
      PassIssues(cfg, ahead, q - 1);
      PassStep(cfg, ahead, q - 1);
    }
  }

  function PassResident(cfg: Config, ahead: nat, q: nat): nat
    requires q <= |cfg.order|
  {
    ResidentIssues(cfg, PassCalls(cfg, ahead, q))
  }

  function ResidentSum(cfg: Config, ahead: nat, q: nat): int {
    ResidentBelow(cfg, q) + ResidentBelow(cfg, q + ahead) - ResidentBelow(cfg, ahead)
  }

  ghost predicate ResidentCounted(cfg: Config, ahead: nat, q: nat)
    requires q <= |cfg.order|
  {
    PassResident(cfg, ahead, q) == ResidentSum(cfg, ahead, q)
  }

  lemma ResidentSumStep(cfg: Config, ahead: nat, q: nat)
    requires q < |cfg.order| && ResidentCounted(cfg, ahead, q)
    ensures ResidentCounted(cfg, ahead, q + 1)
  {
    PassStep(cfg, ahead, q);
    ResidentBelowStep(cfg, q);
    ResidentBelowStep(cfg, q + ahead);
  }

  lemma PassResidentStart(cfg: Config, ahead: nat)
    ensures ResidentCounted(cfg, ahead, 0)
  {
  }

  lemma {:induction false} PassResidentIssues(cfg: Config, ahead: nat, hi: nat, q: nat)
    requires q <= hi <= |cfg.order| && ResidentCounted(cfg, ahead, q)
    ensures ResidentCounted(cfg, ahead, hi)
    decreases hi - q
  {
    if q < hi {
      ResidentSumStep(cfg, ahead, q);
      PassResidentIssues(cfg, ahead, hi, q + 1);
    }
  }

  /** Issues of one pass, and those of resident blocks. */
  function PassTouches(cfg: Config, ahead: nat): int {
    2 * |cfg.order| - Min(ahead, |cfg.order|)
  }

  function PassResidentTouches(cfg: Config, ahead: nat): int {
    2 * ResidentBelow(cfg, |cfg.order|) - ResidentBelow(cfg, ahead)
  }

  lemma {:induction false} AttachIssues(cfg: Config, ahead: nat, steps: nat)
    requires cfg.order != []
    ensures Issues(AttachCalls(cfg, ahead, steps)) == 1 + steps * PassTouches(cfg, ahead)
    ensures ResidentIssues(cfg, AttachCalls(cfg, ahead, steps)) ==
      One(!Streams(cfg, 0)) + steps * PassResidentTouches(cfg, ahead)
  {
    if steps == 0 {
      OneCall(cfg, PrefetchCall(cfg.order[0]));
    } else {
      var n := |cfg.order|;
      AttachIssues(cfg, ahead, steps - 1);
      PassIssues(cfg, ahead, n);
      PassResidentStart(cfg, ahead);
      PassResidentIssues(cfg, ahead, n, 0);
      IssuesConcat(cfg, AttachCalls(cfg, ahead, steps - 1), PassCalls(cfg, ahead, n));
      StreamingSaturates(cfg, ONE, n + ahead);
      assert steps * PassTouches(cfg, ahead) == (steps - 1) * PassTouches(cfg, ahead) + PassTouches(cfg, ahead);
      assert steps * PassResidentTouches(cfg, ahead)
        == (steps - 1) * PassResidentTouches(cfg, ahead) + PassResidentTouches(cfg, ahead);
    }
  }

  lemma ResidentHitCount(cfg: Config, ahead: nat, hasShared: bool, ids: seq<Id>, steps: nat)
    requires EngineConfig(cfg, hasShared, ids) && cfg.order != []
    ensures var calls := AttachCalls(cfg, ahead, steps);
      Run(cfg, Opened(hasShared, ids, cfg.slotCount), calls).host.stats.residentHits ==
      One(!Streams(cfg, 0)) + steps * PassResidentTouches(cfg, ahead)
  {
    AttachIssues(cfg, ahead, steps);
    ResidentHitsAreIssues(cfg, Opened(hasShared, ids, cfg.slotCount), AttachCalls(cfg, ahead, steps));
  }

  lemma AttachIssuesAccounted(cfg: Config, ahead: nat, hasShared: bool, ids: seq<Id>, steps: nat)
    requires EngineConfig(cfg, hasShared, ids) && cfg.order != []
    ensures var stats := Run(cfg, Opened(hasShared, ids, cfg.slotCount), AttachCalls(cfg, ahead, steps)).host.stats;
      stats.transferCount + stats.cacheHits + stats.residentHits == Issues(AttachCalls(cfg, ahead, steps))
  {
    AttachIsKnown(cfg, ahead, steps);
    RunAccounts(cfg, hasShared, ids, AttachCalls(cfg, ahead, steps));
  }

  /** Touches of one pass, by streaming and by resident blocks. */
  lemma TouchArithmetic(cfg: Config, ahead: nat, steps: nat)
    ensures 1 + steps * PassTouches(cfg, ahead) - (One(!Streams(cfg, 0)) + steps * PassResidentTouches(cfg, ahead))
      == One(Streams(cfg, 0)) + steps * (2 * StreamCount(cfg) - Below(cfg, ahead))
    ensures steps * PassResidentTouches(cfg, ahead)
      == steps * (ResidentBelow(cfg, ahead) + 2 * (ResidentBelow(cfg, |cfg.order|) - ResidentBelow(cfg, ahead)))
  {
    Factor(steps, PassTouches(cfg, ahead), PassResidentTouches(cfg, ahead));
    assert PassTouches(cfg, ahead) - PassResidentTouches(cfg, ahead) == 2 * StreamCount(cfg) - Below(cfg, ahead);
    assert PassResidentTouches(cfg, ahead)
        == ResidentBelow(cfg, ahead) + 2 * (ResidentBelow(cfg, |cfg.order|) - ResidentBelow(cfg, ahead));
  }

  lemma Factor(k: nat, a: int, b: int)
    ensures k * a - k * b == k * (a - b)
  {
  }

  /** In any ring, safe or not: resident blocks hit once per pass below position
      `ahead` and twice from there on, plus once for the initial prefetch if the
      first block is resident; every other issue is a transfer or a ring hit, as
      many as streaming blocks are touched. */
  lemma HitCounts(cfg: Config, ahead: nat, hasShared: bool, ids: seq<Id>, steps: nat)
    requires EngineConfig(cfg, hasShared, ids) && cfg.order != []
    ensures var stats := Run(cfg, Opened(hasShared, ids, cfg.slotCount), AttachCalls(cfg, ahead, steps)).host.stats;
      && stats.residentHits == One(!Streams(cfg, 0)) +
           steps * (ResidentBelow(cfg, ahead) + 2 * (ResidentBelow(cfg, |cfg.order|) - ResidentBelow(cfg, ahead)))
      && stats.transferCount + stats.cacheHits ==
        One(Streams(cfg, 0)) + steps * (2 * StreamCount(cfg) - Below(cfg, ahead))
  {
    AttachIssues(cfg, ahead, steps);
    ResidentHitCount(cfg, ahead, hasShared, ids, steps);
    AttachIssuesAccounted(cfg, ahead, hasShared, ids, steps);
    TouchArithmetic(cfg, ahead, steps);
  }

  /** Once everything fits, all touches of streaming blocks but one each hit.  In an
      oversubscribed ring every streaming block from position `ahead` on hits once
      per pass, less the blocks transferred a second time, plus once if the first
      block streams.  A deep ring transfers none twice. */
  function RingHits(cfg: Config, ahead: nat, steps: nat): int {
    One(Streams(cfg, 0)) +
    if StreamCount(cfg) > cfg.slotCount then
      steps * (StreamCount(cfg) - Below(cfg, ahead)) - ThrashedPasses(cfg, ahead, steps) * Twice(cfg, ahead, ONE)
    else steps * (2 * StreamCount(cfg) - Below(cfg, ahead)) - StreamCount(cfg)
  }

  lemma RemainingTouches(cfg: Config, ahead: nat, steps: nat, transfers: int, bytes: int, hits: int)
    requires ClosedForms(cfg, ahead, steps, transfers, bytes)
    requires transfers + hits == One(Streams(cfg, 0)) + steps * (2 * StreamCount(cfg) - Below(cfg, ahead))
    ensures hits == RingHits(cfg, ahead, steps)
  {
    Factor(steps, 2 * StreamCount(cfg) - Below(cfg, ahead), StreamCount(cfg));
    if cfg.slotCount >= 2 * ahead {
      assert Twice(cfg, ahead, ONE) == 0;
    }
  }

  /** The ring hits of every covered schedule, in closed form. */
  lemma RingHitCounts(cfg: Config, ahead: nat, hasShared: bool, ids: seq<Id>, steps: nat)
    requires EngineConfig(cfg, hasShared, ids) && Guarded(cfg, ahead) && Covered(cfg, ahead) && steps >= 1
    ensures Run(cfg, Opened(hasShared, ids, cfg.slotCount), AttachCalls(cfg, ahead, steps)).host.stats.cacheHits
      == RingHits(cfg, ahead, steps)
  {
    HitCounts(cfg, ahead, hasShared, ids, steps);
    TransferCounts(cfg, ahead, hasShared, ids, steps);
    var stats := Run(cfg, Opened(hasShared, ids, cfg.slotCount), AttachCalls(cfg, ahead, steps)).host.stats;
    RemainingTouches(cfg, ahead, steps, stats.transferCount, stats.bytesH2D, stats.cacheHits);
  }
}
