/** Any resident subset, any ring: the installed schedule is safe exactly when a
    rehearsal of its fetches on a window of the last `S` transferred ids, which needs
    neither device nor buffers, meets no clash. */
module Rehearsal {
  import opened Common
  import opened Device
  import opened Engine
  import opened Protocol
  import opened Safety
  import opened Fifo
  import opened Plan
  import opened Schedule
  import opened Attach
  import opened Exact

  /** The window after a touch: a hit leaves it, a miss drops the oldest id of a full one. */
  function Slide(w: seq<Id>, s: nat, id: Id): seq<Id> {
    if id in w then w
    else if |w| < s || w == [] then w + [id]
    else w[1..] + [id]
  }

  /** The window once block `q` is got. */
  function AfterGet(cfg: Config, w: seq<Id>, q: nat): seq<Id> {
    if Streams(cfg, q) then Slide(w, cfg.slotCount, cfg.order[q]) else w
  }

  /** ... and once the block `ahead` of it is prefetched. */
  function AfterPosition(cfg: Config, ahead: nat, w: seq<Id>, q: nat): seq<Id> {
    AfterGet(cfg, AfterGet(cfg, w, q), q + ahead)
  }

  /** The prefetch at `q` misses a full ring whose oldest block is the one running. */
  predicate Clashes(cfg: Config, ahead: nat, w: seq<Id>, q: nat) {
    RunningIsOldest(cfg, ahead, AfterGet(cfg, w, q), q)
  }

  predicate RunningIsOldest(cfg: Config, ahead: nat, got: seq<Id>, q: nat) {
    && Streams(cfg, q) && Streams(cfg, q + ahead)
    && |got| == cfg.slotCount > 0 && got[0] == cfg.order[q] && cfg.order[q + ahead] !in got
  }

  /** The window after the first `q` positions of a pass. */
  function AfterPositions(cfg: Config, ahead: nat, w: seq<Id>, q: nat): seq<Id> {
    if q == 0 then w else AfterPosition(cfg, ahead, AfterPositions(cfg, ahead, w, q - 1), q - 1)
  }

  predicate PassClashes(cfg: Config, ahead: nat, w: seq<Id>, q: nat) {
    q > 0 && (PassClashes(cfg, ahead, w, q - 1) || Clashes(cfg, ahead, AfterPositions(cfg, ahead, w, q - 1), q - 1))
  }

  /** The window after attaching and `steps` passes. */
  function WindowAt(cfg: Config, ahead: nat, steps: nat): seq<Id> {
    if steps == 0 then AfterGet(cfg, [], 0)
    else AfterPositions(cfg, ahead, WindowAt(cfg, ahead, steps - 1), |cfg.order|)
  }

  /** No clash in the first `steps` passes. */
  predicate Rehearsed(cfg: Config, ahead: nat, steps: nat) {
    steps > 0 ==>
      && Rehearsed(cfg, ahead, steps - 1)
      && !PassClashes(cfg, ahead, WindowAt(cfg, ahead, steps - 1), |cfg.order|)
  }

  // ------------------------------------------------------------ one position

  lemma SlideIsTouch(trace: seq<Id>, s: nat, id: Id)
    requires s > 0
    ensures Recent(Touch(trace, s, id), s) == Slide(Recent(trace, s), s, id)
  {
  }

  function GetPattern(cfg: Config, trace: seq<Id>, q: nat): Pattern
    requires q < |cfg.order|
  {
    if cfg.order[q] in Recent(trace, cfg.slotCount) then Settled else First(q + 1)
  }

  function PrefetchPattern(cfg: Config, ahead: nat, got: seq<Id>, q: nat): Pattern {
    if q + ahead < |cfg.order| && cfg.order[q + ahead] in Recent(got, cfg.slotCount) then Settled else First(0)
  }

  lemma GetSlides(cfg: Config, trace: seq<Id>, q: nat)
    requires q < |cfg.order| && cfg.slotCount > 0
    ensures GetAsPlanned(cfg, trace, GetPattern(cfg, trace, q), q)
    ensures var got := trace + GetPart(cfg, GetPattern(cfg, trace, q), q);
      && Recent(got, cfg.slotCount) == AfterGet(cfg, Recent(trace, cfg.slotCount), q)
      && (Streams(cfg, q) ==> cfg.order[q] in Recent(got, cfg.slotCount))
  {
    SlideIsTouch(trace, cfg.slotCount, cfg.order[q]);
    assert trace + [] == trace;
  }

  lemma PrefetchSlides(cfg: Config, ahead: nat, got: seq<Id>, q: nat)
    requires cfg.slotCount > 0
    ensures PrefetchAsPlanned(cfg, ahead, got, PrefetchPattern(cfg, ahead, got, q), q)
    ensures Recent(got + PrefetchPart(cfg, ahead, PrefetchPattern(cfg, ahead, got, q), q), cfg.slotCount)
      == AfterGet(cfg, Recent(got, cfg.slotCount), q + ahead)
  {
    if q + ahead < |cfg.order| {
      SlideIsTouch(got, cfg.slotCount, cfg.order[q + ahead]);
    }
    assert got + [] == got;
  }

  lemma NoClashSpares(cfg: Config, ahead: nat, got: seq<Id>, q: nat)
    requires cfg.slotCount > 0
    requires Streams(cfg, q) ==> cfg.order[q] in Recent(got, cfg.slotCount)
    requires !RunningIsOldest(cfg, ahead, Recent(got, cfg.slotCount), q)
    ensures Spared(cfg, ahead, got, PrefetchPattern(cfg, ahead, got, q), q)
  {
    var n := cfg.slotCount;
    if Streams(cfg, q) && Streams(cfg, q + ahead) && |got| >= n && cfg.order[q + ahead] !in Recent(got, n) {
      var k :| 0 <= k < n && Recent(got, n)[k] == cfg.order[q];
      assert got[|got| - n + k] == cfg.order[q];
    }
  }

  /** A position without a clash keeps the discipline and moves the window. */
  lemma ClearPosition(cfg: Config, ahead: nat, s: Session, trace: seq<Id>, q: nat) returns (trace': seq<Id>)
    requires Idle(cfg, s, trace) && q < |cfg.order| && cfg.slotCount > 0
    requires !Clashes(cfg, ahead, Recent(trace, cfg.slotCount), q)
    ensures Reaches(cfg, s, PositionCalls(cfg, ahead, q), trace')
    ensures Recent(trace', cfg.slotCount) == AfterPosition(cfg, ahead, Recent(trace, cfg.slotCount), q)
  {
    var get := GetPattern(cfg, trace, q);
    var got := trace + GetPart(cfg, get, q);
    var prefetch := PrefetchPattern(cfg, ahead, got, q);
    GetSlides(cfg, trace, q);
    GetRuns(cfg, s, trace, get, q);
    PrefetchSlides(cfg, ahead, got, q);
    NoClashSpares(cfg, ahead, got, q);
    trace' := got + PrefetchPart(cfg, ahead, prefetch, q);
    RestRuns(cfg, ahead, Run(cfg, s, [GetCall(cfg.order[q])]), got, prefetch, q);
    RunConcat(cfg, s, [GetCall(cfg.order[q])],
      PrefetchCalls(cfg, ahead, q) + [LaunchCall(cfg.order[q]), DoneCall(cfg.order[q])]);
  }

  /** With the running block the oldest of a full ring, its slot is the next one. */
  lemma OldestSlotIsNext(cfg: Config, s: Session, got: seq<Id>, q: nat)
    requires Running(cfg, s, got, q) && Streams(cfg, q)
    requires |got| >= cfg.slotCount && got[|got| - cfg.slotCount] == cfg.order[q]
    ensures s.lent[cfg.order[q]] == Ring(s.host.next)
  {
    Victim(s.host);
    assert s.host.slots[s.host.next].occupant == Some(cfg.order[q]);
  }

  lemma ClashAfterGet(cfg: Config, ahead: nat, s: Session, got: seq<Id>, q: nat, next: nat)
    requires Distinct(cfg.order) && Running(cfg, s, got, q) && Streams(cfg, q) && next == q + ahead && ahead > 0
    requires Streams(cfg, next) && cfg.order[next] !in Recent(got, cfg.slotCount)
    requires |got| >= cfg.slotCount && got[|got| - cfg.slotCount] == cfg.order[q]
    ensures !AlwaysSafe(Run(cfg, s, [PrefetchCall(cfg.order[next]), LaunchCall(cfg.order[q])]).host.log, cfg.start)
  {
    OldestSlotIsNext(cfg, s, got, q);
    SlotsAreRecent(s.host, cfg.order[next]);
    UndisciplinedIsUnsafe(cfg, s, PrefetchCall(cfg.order[next]), cfg.order[q]);
  }

  lemma OldestInTrace(cfg: Config, ahead: nat, got: seq<Id>, q: nat, next: nat)
    requires next == q + ahead && RunningIsOldest(cfg, ahead, Recent(got, cfg.slotCount), q)
    ensures Streams(cfg, q) && Streams(cfg, next) && cfg.order[next] !in Recent(got, cfg.slotCount)
    ensures |got| >= cfg.slotCount && got[|got| - cfg.slotCount] == cfg.order[q]
  {
    assert |Recent(got, cfg.slotCount)| == cfg.slotCount;
    assert Recent(got, cfg.slotCount)[0] == got[|got| - cfg.slotCount];
  }

  lemma ClashInTrace(cfg: Config, ahead: nat, trace: seq<Id>, q: nat, next: nat)
    requires next == q + ahead && q < |cfg.order| && cfg.slotCount > 0 &&
      Clashes(cfg, ahead, Recent(trace, cfg.slotCount), q)
    ensures var got := trace + GetPart(cfg, GetPattern(cfg, trace, q), q);
      && Streams(cfg, q) && Streams(cfg, next) && cfg.order[next] !in Recent(got, cfg.slotCount)
      && |got| >= cfg.slotCount && got[|got| - cfg.slotCount] == cfg.order[q]
  {
    GetSlides(cfg, trace, q);
    OldestInTrace(cfg, ahead, trace + GetPart(cfg, GetPattern(cfg, trace, q), q), q, next);
  }

  lemma GetPatternPlans(cfg: Config, trace: seq<Id>, q: nat)
    requires q < |cfg.order|
    ensures GetAsPlanned(cfg, trace, GetPattern(cfg, trace, q), q)
  {
  }

  /** A clash is a race: up to the launch there is an unsafe interleaving. */
  lemma ClashRaces(cfg: Config, ahead: nat, s: Session, trace: seq<Id>, q: nat, next: nat)
    requires Distinct(cfg.order) && Idle(cfg, s, trace) && q < |cfg.order| && ahead > 0 && next == q + ahead
    requires Clashes(cfg, ahead, Recent(trace, cfg.slotCount), q) && next < |cfg.order|
    ensures !AlwaysSafe(Run(cfg, Run(cfg, s, [GetCall(cfg.order[q])]),
      [PrefetchCall(cfg.order[next]), LaunchCall(cfg.order[q])]).host.log, cfg.start)
  {
    var get := GetPattern(cfg, trace, q);
    var got := trace + GetPart(cfg, get, q);
    GetPatternPlans(cfg, trace, q);
    GetRuns(cfg, s, trace, get, q);
    ClashInTrace(cfg, ahead, trace, q, next);
    ClashAfterGet(cfg, ahead, Run(cfg, s, [GetCall(cfg.order[q])]), got, q, next);
  }

  // ------------------------------------------------------------ whole passes

  /** The calls keep the discipline and leave the window `w`. */
  ghost predicate Tracks(cfg: Config, s: Session, calls: seq<Call>, w: seq<Id>)
    requires WellFormed(s.host)
  {
    exists trace :: Reaches(cfg, s, calls, trace) && Recent(trace, cfg.slotCount) == w
  }

  lemma TracksOn(cfg: Config, ahead: nat, s: Session, calls: seq<Call>, w: seq<Id>, q: nat)
    requires WellFormed(s.host) && q < |cfg.order| && cfg.slotCount > 0
    requires Tracks(cfg, s, calls, w) && !Clashes(cfg, ahead, w, q)
    ensures Tracks(cfg, s, calls + PositionCalls(cfg, ahead, q), AfterPosition(cfg, ahead, w, q))
  {
    var trace :| Reaches(cfg, s, calls, trace) && Recent(trace, cfg.slotCount) == w;
    var trace' := ClearPosition(cfg, ahead, Run(cfg, s, calls), trace, q);
    RunConcat(cfg, s, calls, PositionCalls(cfg, ahead, q));
    assert Reaches(cfg, s, calls + PositionCalls(cfg, ahead, q), trace');
  }

  lemma {:induction false} ClearPass(cfg: Config, ahead: nat, s: Session, calls: seq<Call>, w: seq<Id>, q: nat)
    requires WellFormed(s.host) && q <= |cfg.order| && cfg.slotCount > 0
    requires Tracks(cfg, s, calls, w) && !PassClashes(cfg, ahead, w, q)
    ensures Tracks(cfg, s, calls + PassCalls(cfg, ahead, q), AfterPositions(cfg, ahead, w, q))
  {
    if q == 0 {
      assert calls + PassCalls(cfg, ahead, 0) == calls;
    } else {
      ClearPass(cfg, ahead, s, calls, w, q - 1);
      TracksOn(cfg, ahead, s, calls + PassCalls(cfg, ahead, q - 1), AfterPositions(cfg, ahead, w, q - 1), q - 1);
      PassCallsStep(cfg, ahead, calls, q - 1);
    }
  }

  lemma AttachTracks(cfg: Config, hasShared: bool, ids: seq<Id>)
    requires EngineConfig(cfg, hasShared, ids) && cfg.order != []
    ensures Tracks(cfg, Opened(hasShared, ids, cfg.slotCount), [PrefetchCall(cfg.order[0])], AfterGet(cfg, [], 0))
  {
    AttachPrefetches(cfg, hasShared, ids, 1);
    assert Recent(GetPart(cfg, First(1), 0), cfg.slotCount) == AfterGet(cfg, [], 0);
  }

  /** Without a clash every pass is disciplined and the rehearsed window is the ring's. */
  lemma {:induction false} RehearsalTracks(cfg: Config, ahead: nat, hasShared: bool, ids: seq<Id>, steps: nat)
    requires EngineConfig(cfg, hasShared, ids) && cfg.order != [] && Rehearsed(cfg, ahead, steps)
    ensures Tracks(cfg, Opened(hasShared, ids, cfg.slotCount), AttachCalls(cfg, ahead, steps),
      WindowAt(cfg, ahead, steps))
  {
    if steps == 0 {
      AttachTracks(cfg, hasShared, ids);
    } else {
      RehearsalTracks(cfg, ahead, hasShared, ids, steps - 1);
      ClearPass(cfg, ahead, Opened(hasShared, ids, cfg.slotCount), AttachCalls(cfg, ahead, steps - 1),
        WindowAt(cfg, ahead, steps - 1), |cfg.order|);
    }
  }

  // ---------------------------------------------------------------- a clash

  lemma ClashIsInThePosition(cfg: Config, ahead: nat, calls: seq<Call>, q: nat, next: nat)
    requires next == q + ahead && next < |cfg.order|
    ensures calls + PositionCalls(cfg, ahead, q) ==
      calls + [GetCall(cfg.order[q])] + [PrefetchCall(cfg.order[next]), LaunchCall(cfg.order[q])] +
        [DoneCall(cfg.order[q])]
  {
  }

  lemma ClashBreaks(cfg: Config, ahead: nat, s: Session, calls: seq<Call>, w: seq<Id>, q: nat, next: nat)
    requires Inv(cfg, s) && Distinct(cfg.order) && q < |cfg.order| && ahead > 0 && next == q + ahead
    requires Tracks(cfg, s, calls, w) && Clashes(cfg, ahead, w, q)
    ensures !AlwaysSafe(Run(cfg, s, calls + PositionCalls(cfg, ahead, q)).host.log, cfg.start)
  {
    var trace :| Reaches(cfg, s, calls, trace) && Recent(trace, cfg.slotCount) == w;
    var get, clash := [GetCall(cfg.order[q])], [PrefetchCall(cfg.order[next]), LaunchCall(cfg.order[q])];
    ClashRaces(cfg, ahead, Run(cfg, s, calls), trace, q, next);
    ClashFollows(cfg, s, calls, get, clash);
    UnsafeThenMore(cfg, s, calls + get + clash, [DoneCall(cfg.order[q])]);
    ClashIsInThePosition(cfg, ahead, calls, q, next);
  }

  lemma ClashFollows(cfg: Config, s: Session, calls: seq<Call>, get: seq<Call>, clash: seq<Call>)
    requires WellFormed(s.host)
    ensures Run(cfg, s, calls + get + clash) == Run(cfg, Run(cfg, Run(cfg, s, calls), get), clash)
  {
    RunConcat(cfg, s, calls, get);
    RunConcat(cfg, s, calls + get, clash);
  }

  lemma PassStaysBroken(cfg: Config, ahead: nat, s: Session, calls: seq<Call>, q: nat)
    requires Inv(cfg, s) && q < |cfg.order|
    requires !AlwaysSafe(Run(cfg, s, calls + PassCalls(cfg, ahead, q)).host.log, cfg.start)
    ensures !AlwaysSafe(Run(cfg, s, calls + PassCalls(cfg, ahead, q + 1)).host.log, cfg.start)
  {
    PassCallsStep(cfg, ahead, calls, q);
    UnsafeThenMore(cfg, s, calls + PassCalls(cfg, ahead, q), PositionCalls(cfg, ahead, q));
  }

  lemma PassBreaksAt(cfg: Config, ahead: nat, s: Session, calls: seq<Call>, w: seq<Id>, q: nat)
    requires Inv(cfg, s) && Distinct(cfg.order) && q < |cfg.order| && ahead > 0
    requires Tracks(cfg, s, calls + PassCalls(cfg, ahead, q), w) && Clashes(cfg, ahead, w, q)
    ensures !AlwaysSafe(Run(cfg, s, calls + PassCalls(cfg, ahead, q + 1)).host.log, cfg.start)
  {
    PassCallsStep(cfg, ahead, calls, q);
    ClashBreaks(cfg, ahead, s, calls + PassCalls(cfg, ahead, q), w, q, q + ahead);
  }

  lemma {:induction false} PassBreaks(cfg: Config, ahead: nat, s: Session, calls: seq<Call>, w: seq<Id>, q: nat)
    requires Inv(cfg, s) && Distinct(cfg.order) && q <= |cfg.order| && ahead > 0 && cfg.slotCount > 0
    requires Tracks(cfg, s, calls, w) && PassClashes(cfg, ahead, w, q)
    ensures !AlwaysSafe(Run(cfg, s, calls + PassCalls(cfg, ahead, q)).host.log, cfg.start)
  {
    var p: nat := q - 1;
    if PassClashes(cfg, ahead, w, p) {
      PassBreaks(cfg, ahead, s, calls, w, p);
      PassStaysBroken(cfg, ahead, s, calls, p);
    } else {
      ClearPass(cfg, ahead, s, calls, w, p);
      PassBreaksAt(cfg, ahead, s, calls, AfterPositions(cfg, ahead, w, p), p);
    }
  }

  lemma {:induction false} UnrehearsedBreaks(cfg: Config, ahead: nat, hasShared: bool, ids: seq<Id>, steps: nat)
    requires EngineConfig(cfg, hasShared, ids) && cfg.order != [] && ahead > 0 && !Rehearsed(cfg, ahead, steps)
    ensures !AlwaysSafe(
      Run(cfg, Opened(hasShared, ids, cfg.slotCount), AttachCalls(cfg, ahead, steps)).host.log, cfg.start)
  {
    var s, before := Opened(hasShared, ids, cfg.slotCount), AttachCalls(cfg, ahead, steps - 1);
    OpenedInv(cfg, hasShared, ids);
    if Rehearsed(cfg, ahead, steps - 1) {
      RehearsalTracks(cfg, ahead, hasShared, ids, steps - 1);
      PassBreaks(cfg, ahead, s, before, WindowAt(cfg, ahead, steps - 1), |cfg.order|);
    } else {
      UnrehearsedBreaks(cfg, ahead, hasShared, ids, steps - 1);
      UnsafeThenMore(cfg, s, before, PassCalls(cfg, ahead, |cfg.order|));
    }
  }

  /** For every resident subset, ring, prefetch distance and number of passes: all
      interleavings of the installed schedule are safe if and only if the rehearsal
      meets no clash. */
  lemma RehearsalIsExact(cfg: Config, ahead: nat, hasShared: bool, ids: seq<Id>, steps: nat)
    requires EngineConfig(cfg, hasShared, ids) && cfg.order != [] && ahead > 0
    ensures AlwaysSafe(
      Run(cfg, Opened(hasShared, ids, cfg.slotCount), AttachCalls(cfg, ahead, steps)).host.log, cfg.start)
      <==> Rehearsed(cfg, ahead, steps)
  {
    if Rehearsed(cfg, ahead, steps) {
      RehearsalTracks(cfg, ahead, hasShared, ids, steps);
      DisciplineIsSafe(cfg, hasShared, ids, AttachCalls(cfg, ahead, steps));
    } else {
      UnrehearsedBreaks(cfg, ahead, hasShared, ids, steps);
    }
  }

  // ------------------------------------------------- every number of passes

  lemma {:induction false} RehearsedBefore(cfg: Config, ahead: nat, j: nat, k: nat)
    requires j <= k && Rehearsed(cfg, ahead, k)
    ensures Rehearsed(cfg, ahead, j)
    ensures j < k ==> !PassClashes(cfg, ahead, WindowAt(cfg, ahead, j), |cfg.order|)
    decreases k
  {
    if j < k {
      RehearsedBefore(cfg, ahead, j, k - 1);
    }
  }

  ghost predicate SameWindow(cfg: Config, ahead: nat, j: nat, k: nat) {
    WindowAt(cfg, ahead, j) == WindowAt(cfg, ahead, k)
  }

  lemma WindowNext(cfg: Config, ahead: nat, k: nat)
    requires k > 0
    ensures WindowAt(cfg, ahead, k) == AfterPositions(cfg, ahead, WindowAt(cfg, ahead, k - 1), |cfg.order|)
  {
  }

  /** Where a sequence of states repeats, what follows repeats. */
  lemma {:induction false} StatesCycle<T>(next: T -> T, states: seq<T>, j: nat, k: nat, j': nat, k': nat)
    requires forall i :: 0 <= i < |states| - 1 ==> states[i + 1] == next(states[i])
    requires j <= j' && j' - j == k' - k && j' < |states| && k' < |states| && states[j] == states[k]
    ensures states[j'] == states[k']
    decreases j'
  {
    if j < j' {
      StatesCycle(next, states, j, k, j' - 1, k' - 1);
      assert states[(j' - 1) + 1] == states[(k' - 1) + 1];
    }
  }

  /** From a repeated window on, the passes repeat. */
  lemma WindowsCycle(cfg: Config, ahead: nat, j: nat, k: nat, j': nat, k': nat)
    requires SameWindow(cfg, ahead, j, k) && j <= j' <= k' && j' - j == k' - k
    ensures SameWindow(cfg, ahead, j', k')
  {
    var pass := w => AfterPositions(cfg, ahead, w, |cfg.order|);
    var windows := seq(k' + 1, i requires 0 <= i <= k' => WindowAt(cfg, ahead, i));
    forall i | 0 <= i < |windows| - 1 ensures windows[i + 1] == pass(windows[i]) {
      WindowNext(cfg, ahead, i + 1);
    }
    StatesCycle(pass, windows, j, k, j', k');
  }

  lemma {:induction false} CycleStaysClear(cfg: Config, ahead: nat, j: nat, k: nat, steps: nat)
    requires j < k && SameWindow(cfg, ahead, j, k) && Rehearsed(cfg, ahead, k)
    ensures Rehearsed(cfg, ahead, steps)
  {
    if steps <= k {
      RehearsedBefore(cfg, ahead, steps, k);
    } else {
      var earlier := steps - 1 - (k - j);
      CycleStaysClear(cfg, ahead, j, k, steps - 1);
      WindowsCycle(cfg, ahead, j, k, earlier, steps - 1);
      RehearsedBefore(cfg, ahead, earlier, steps - 1);
    }
  }

  ghost predicate SafeAt(cfg: Config, ahead: nat, hasShared: bool, ids: seq<Id>, steps: nat)
    requires cfg.order != [] && cfg.slotCount > 0
  {
    AlwaysSafe(Run(cfg, Opened(hasShared, ids, cfg.slotCount), AttachCalls(cfg, ahead, steps)).host.log, cfg.start)
  }

  ghost predicate SafeForever(cfg: Config, ahead: nat, hasShared: bool, ids: seq<Id>)
    requires cfg.order != [] && cfg.slotCount > 0
  {
    forall steps: nat :: SafeAt(cfg, ahead, hasShared, ids, steps)
  }

  lemma SafeExactly(cfg: Config, ahead: nat, hasShared: bool, ids: seq<Id>, steps: nat)
    requires EngineConfig(cfg, hasShared, ids) && cfg.order != [] && ahead > 0
    ensures SafeAt(cfg, ahead, hasShared, ids, steps) <==> Rehearsed(cfg, ahead, steps)
  {
    RehearsalIsExact(cfg, ahead, hasShared, ids, steps);
  }

  lemma CycleStaysSafe(cfg: Config, ahead: nat, hasShared: bool, ids: seq<Id>, j: nat, k: nat)
    requires EngineConfig(cfg, hasShared, ids) && cfg.order != [] && ahead > 0
    requires j < k && SameWindow(cfg, ahead, j, k) && Rehearsed(cfg, ahead, k)
    ensures SafeForever(cfg, ahead, hasShared, ids)
  {
    forall steps: nat ensures SafeAt(cfg, ahead, hasShared, ids, steps) {
      CycleStaysClear(cfg, ahead, j, k, steps);
      SafeExactly(cfg, ahead, hasShared, ids, steps);
    }
  }

  /** Once the window after a pass repeats, the passes so far decide them all. */
  lemma RepeatDecides(cfg: Config, ahead: nat, hasShared: bool, ids: seq<Id>, j: nat, k: nat)
    requires EngineConfig(cfg, hasShared, ids) && cfg.order != [] && ahead > 0
    requires j < k && SameWindow(cfg, ahead, j, k)
    ensures SafeForever(cfg, ahead, hasShared, ids) <==> Rehearsed(cfg, ahead, k)
  {
    if Rehearsed(cfg, ahead, k) {
      CycleStaysSafe(cfg, ahead, hasShared, ids, j, k);
    } else {
      SafeExactly(cfg, ahead, hasShared, ids, k);
    }
  }

  /** All windows of at most `s` of the given ids. */
  function Windows(ids: set<Id>, s: nat): set<seq<Id>> {
    if s == 0 then {[]}
    else {[]} + set id, w | id in ids && w in Windows(ids, s - 1) :: [id] + w
  }

  lemma {:induction false} AmongWindows(ids: set<Id>, s: nat, w: seq<Id>)
    requires |w| <= s && forall id :: id in w ==> id in ids
    ensures w in Windows(ids, s)
  {
    if w != [] {
      AmongWindows(ids, s - 1, w[1..]);
      assert w == [w[0]] + w[1..] && w[0] in ids;
    }
  }

  function AllWindows(cfg: Config): set<seq<Id>> {
    var ids := set id | id in cfg.order;
    Windows(ids, cfg.slotCount)
  }

  ghost predicate IsWindow(cfg: Config, w: seq<Id>) {
    |w| <= cfg.slotCount && forall id :: id in w ==> id in cfg.order
  }

  lemma IsAmongAll(cfg: Config, w: seq<Id>)
    requires IsWindow(cfg, w)
    ensures w in AllWindows(cfg)
  {
    var ids := set id | id in cfg.order;
    AmongWindows(ids, cfg.slotCount, w);
  }

  lemma GetKeepsWindow(cfg: Config, w: seq<Id>, q: nat)
    requires IsWindow(cfg, w) && cfg.slotCount > 0
    ensures IsWindow(cfg, AfterGet(cfg, w, q))
  {
  }

  lemma {:induction false} PositionsKeepWindow(cfg: Config, ahead: nat, w: seq<Id>, q: nat)
    requires IsWindow(cfg, w) && cfg.slotCount > 0
    ensures IsWindow(cfg, AfterPositions(cfg, ahead, w, q))
  {
    if q > 0 {
      var before := AfterPositions(cfg, ahead, w, q - 1);
      PositionsKeepWindow(cfg, ahead, w, q - 1);
      GetKeepsWindow(cfg, before, q - 1);
      GetKeepsWindow(cfg, AfterGet(cfg, before, q - 1), q - 1 + ahead);
    }
  }

  lemma {:induction false} PassesKeepWindow(cfg: Config, ahead: nat, steps: nat)
    requires cfg.slotCount > 0
    ensures IsWindow(cfg, WindowAt(cfg, ahead, steps))
  {
    if steps == 0 {
      GetKeepsWindow(cfg, [], 0);
    } else {
      PassesKeepWindow(cfg, ahead, steps - 1);
      PositionsKeepWindow(cfg, ahead, WindowAt(cfg, ahead, steps - 1), |cfg.order|);
    }
  }

  lemma {:induction false} DistinctCount<T>(s: seq<T>, all: set<T>)
    requires Distinct(s) && forall x :: x in s ==> x in all
    ensures |s| <= |all|
  {
    if s != [] {
      var front, last := s[..|s| - 1], s[|s| - 1];
      DistinctCount(front, all - {last});
    }
  }

  /** How many passes are enough to rehearse. */
  function Enough(cfg: Config): nat {
    |AllWindows(cfg)|
  }

  /** A window repeats within that many passes. */
  lemma WindowsRepeat(cfg: Config, ahead: nat) returns (j: nat, k: nat)
    requires cfg.slotCount > 0
    ensures j < k <= Enough(cfg) && SameWindow(cfg, ahead, j, k)
  {
    var windows := seq(Enough(cfg) + 1, i requires 0 <= i <= Enough(cfg) => WindowAt(cfg, ahead, i));
    forall w | w in windows ensures w in AllWindows(cfg) {
      var i: nat :| i < |windows| && windows[i] == w;
      PassesKeepWindow(cfg, ahead, i);
      IsAmongAll(cfg, w);
    }
    if Distinct(windows) {
      DistinctCount(windows, AllWindows(cfg));
    }
    j, k :| j < k < |windows| && windows[j] == windows[k];
  }

  /** The exact condition for every resident subset and any number of passes, a
      finite one: a rehearsal of that many passes meets no clash. */
  lemma RehearsalDecides(cfg: Config, ahead: nat, hasShared: bool, ids: seq<Id>)
    requires EngineConfig(cfg, hasShared, ids) && cfg.order != [] && ahead > 0
    ensures SafeForever(cfg, ahead, hasShared, ids) <==> Rehearsed(cfg, ahead, Enough(cfg))
  {
    var j, k := WindowsRepeat(cfg, ahead);
    RepeatDecides(cfg, ahead, hasShared, ids, j, k);
    if Rehearsed(cfg, ahead, Enough(cfg)) {
      RehearsedBefore(cfg, ahead, k, Enough(cfg));
    } else if Rehearsed(cfg, ahead, k) {
      CycleStaysClear(cfg, ahead, j, k, Enough(cfg));
    }
  }

  // ----------------------------------------- what the sufficient condition misses

  /** The closed conditions all pass the rehearsal. */
  lemma CoveredIsRehearsed(cfg: Config, ahead: nat, hasShared: bool, ids: seq<Id>, steps: nat)
    requires EngineConfig(cfg, hasShared, ids) && Guarded(cfg, ahead) && Covered(cfg, ahead)
    ensures Rehearsed(cfg, ahead, steps)
  {
    AttachIsSafe(cfg, ahead, hasShared, ids, steps);
    RehearsalIsExact(cfg, ahead, hasShared, ids, steps);
  }

  /** Five blocks, all but the one at `r` streaming through three slots. */
  ghost predicate OneResidentOfFive(cfg: Config, r: nat) {
    && cfg.slotCount == 3 && |cfg.order| == 5 && Distinct(cfg.order)
    && forall q: nat :: q < 5 ==> (Streams(cfg, q) <==> q != r)
  }

  /** Position `q` takes the window `w` to `w'` without a clash. */
  ghost predicate Clear(cfg: Config, q: nat, w: seq<Id>, w': seq<Id>) {
    AfterPosition(cfg, 2, w, q) == w' && !Clashes(cfg, 2, w, q)
  }

  ghost predicate ClearPassOfFive(cfg: Config, w: seq<Id>, w1: seq<Id>, w2: seq<Id>, w3: seq<Id>) {
    Clear(cfg, 0, w, w1) && Clear(cfg, 1, w1, w2) && Clear(cfg, 2, w2, w3) && Clear(cfg, 3, w3, w3) &&
      Clear(cfg, 4, w3, w3)
  }

  lemma PassOfFive(cfg: Config, w: seq<Id>, w1: seq<Id>, w2: seq<Id>, w3: seq<Id>)
    requires ClearPassOfFive(cfg, w, w1, w2, w3)
    ensures AfterPositions(cfg, 2, w, 5) == w3 && !PassClashes(cfg, 2, w, 5)
  {
    assert AfterPositions(cfg, 2, w, 1) == w1;
    assert AfterPositions(cfg, 2, w, 2) == w2;
    assert AfterPositions(cfg, 2, w, 3) == w3;
    assert AfterPositions(cfg, 2, w, 4) == w3;
    assert !PassClashes(cfg, 2, w, 1);
    assert !PassClashes(cfg, 2, w, 3);
  }

  lemma TwoPassesOfFive(cfg: Config, w: seq<Id>, w1: seq<Id>, w2: seq<Id>, v1: seq<Id>, v2: seq<Id>, w3: seq<Id>)
    requires |cfg.order| == 5 && AfterGet(cfg, [], 0) == w
    requires ClearPassOfFive(cfg, w, w1, w2, w3) && ClearPassOfFive(cfg, w3, v1, v2, w3)
    ensures SameWindow(cfg, 2, 1, 2) && Rehearsed(cfg, 2, 2)
  {
    PassOfFive(cfg, w, w1, w2, w3);
    PassOfFive(cfg, w3, v1, v2, w3);
    assert WindowAt(cfg, 2, 0) == w;
    assert WindowAt(cfg, 2, 1) == w3;
    assert Rehearsed(cfg, 2, 1);
  }

  lemma Resident1(cfg: Config)
    requires OneResidentOfFive(cfg, 1)
    ensures SameWindow(cfg, 2, 1, 2) && Rehearsed(cfg, 2, 2)
  {
    var a, b, c, d, e := cfg.order[0], cfg.order[1], cfg.order[2], cfg.order[3], cfg.order[4];
    assert ClearPassOfFive(cfg, [a], [a, c], [a, c, d], [c, d, e]);
    assert ClearPassOfFive(cfg, [c, d, e], [e, a, c], [a, c, d], [c, d, e]);
    TwoPassesOfFive(cfg, [a], [a, c], [a, c, d], [e, a, c], [a, c, d], [c, d, e]);
  }

  lemma Resident2(cfg: Config)
    requires OneResidentOfFive(cfg, 2)
    ensures SameWindow(cfg, 2, 1, 2) && Rehearsed(cfg, 2, 2)
  {
    var a, b, c, d, e := cfg.order[0], cfg.order[1], cfg.order[2], cfg.order[3], cfg.order[4];
    assert ClearPassOfFive(cfg, [a], [a], [a, b, d], [b, d, e]);
    assert ClearPassOfFive(cfg, [b, d, e], [d, e, a], [a, b, d], [b, d, e]);
    TwoPassesOfFive(cfg, [a], [a], [a, b, d], [d, e, a], [a, b, d], [b, d, e]);
  }

  lemma Resident3(cfg: Config)
    requires OneResidentOfFive(cfg, 3)
    ensures SameWindow(cfg, 2, 1, 2) && Rehearsed(cfg, 2, 2)
  {
    var a, b, c, d, e := cfg.order[0], cfg.order[1], cfg.order[2], cfg.order[3], cfg.order[4];
    assert ClearPassOfFive(cfg, [a], [a, c], [a, c, b], [c, b, e]);
    assert ClearPassOfFive(cfg, [c, b, e], [e, a, c], [a, c, b], [c, b, e]);
    TwoPassesOfFive(cfg, [a], [a, c], [a, c, b], [e, a, c], [a, c, b], [c, b, e]);
  }

  lemma Resident4(cfg: Config)
    requires OneResidentOfFive(cfg, 4)
    ensures SameWindow(cfg, 2, 1, 2) && Rehearsed(cfg, 2, 2)
  {
    var a, b, c, d, e := cfg.order[0], cfg.order[1], cfg.order[2], cfg.order[3], cfg.order[4];
    assert ClearPassOfFive(cfg, [a], [a, c], [c, b, d], [c, b, d]);
    assert ClearPassOfFive(cfg, [c, b, d], [d, a, c], [c, b, d], [c, b, d]);
    TwoPassesOfFive(cfg, [a], [a, c], [c, b, d], [d, a, c], [c, b, d], [c, b, d]);
  }

  lemma Resident0(cfg: Config)
    requires OneResidentOfFive(cfg, 0)
    ensures !Rehearsed(cfg, 2, 1)
  {
    var b, c, d := cfg.order[1], cfg.order[2], cfg.order[3];
    assert Clear(cfg, 0, [], [c]);
    assert Clear(cfg, 1, [c], [c, b, d]);
    assert AfterPositions(cfg, 2, [], 1) == [c];
    assert AfterPositions(cfg, 2, [], 2) == [c, b, d];
    assert Clashes(cfg, 2, [c, b, d], 2);
    assert PassClashes(cfg, 2, [], 3);
    assert PassClashes(cfg, 2, [], 4);
    assert WindowAt(cfg, 2, 0) == [];
  }

  /** Outside the sufficient condition it depends on which block is resident: of
      five blocks through three slots, prefetching two ahead, keeping the first
      resident is the one unsafe choice. */
  lemma OneOfFive(cfg: Config, hasShared: bool, ids: seq<Id>, r: nat)
    requires EngineConfig(cfg, hasShared, ids) && OneResidentOfFive(cfg, r) && r < 5
    ensures SafeForever(cfg, 2, hasShared, ids) <==> r != 0
  {
    match r {
      case 0 =>
        Resident0(cfg);
        SafeExactly(cfg, 2, hasShared, ids, 1);
      case 1 => Resident1(cfg);
      case 2 => Resident2(cfg);
      case 3 => Resident3(cfg);
      case 4 => Resident4(cfg);
    }
    if r != 0 {
      RepeatDecides(cfg, 2, hasShared, ids, 1, 2);
    }
  }
}
