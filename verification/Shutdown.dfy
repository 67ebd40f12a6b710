/** Dropping the engine: the transfer stream is drained, then every device buffer
    is freed. */
module Shutdown {
  import opened Common
  import opened Device
  import opened Engine
  import opened Protocol
  import opened Safety
  import opened Schedule

  /** What is freed: the ring, the shared buffer, the resident pool. */
  function Buffers(slotCount: nat, hasShared: bool, ids: seq<Id>): seq<Loc> {
    seq(slotCount, j requires 0 <= j < slotCount => Ring(j)) + (if hasShared then [Shared] else []) +
    seq(|ids|, k requires 0 <= k < |ids| => Pool(ids[k]))
  }

  predicate IsBuffer(slotCount: nat, hasShared: bool, ids: seq<Id>, loc: Loc) {
    match loc
    case Ring(j) => j < slotCount
    case Shared => hasShared
    case Pool(id) => id in ids
  }

  lemma BuffersAre(slotCount: nat, hasShared: bool, ids: seq<Id>, loc: Loc)
    ensures loc in Buffers(slotCount, hasShared, ids) <==> IsBuffer(slotCount, hasShared, ids, loc)
  {
    var pool := seq(|ids|, k requires 0 <= k < |ids| => Pool(ids[k]));
    var ring := seq(slotCount, j requires 0 <= j < slotCount => Ring(j));
    if loc.Pool? && loc.id in ids {
      var k :| 0 <= k < |ids| && ids[k] == loc.id;
      assert pool[k] == loc;
    }
    if loc.Ring? && loc.slot < slotCount {
      assert ring[loc.slot] == loc;
    }
  }

  lemma BuffersDistinct(slotCount: nat, hasShared: bool, ids: seq<Id>)
    requires Distinct(ids)
    ensures Distinct(Buffers(slotCount, hasShared, ids))
  {
  }

  // ----------------------------------------------------- what gets written

  /** Every write goes to a buffer, and every begun write is ended by the next command. */
  ghost predicate Tidy(log: Log, slotCount: nat, hasShared: bool, ids: seq<Id>) {
    && (forall y, loc :: 0 <= y < |log| && Writes(log[y], loc) ==> IsBuffer(slotCount, hasShared, ids, loc))
    && (forall y :: 0 <= y < |log| && log[y].CopyBegin? ==>
      y + 1 < |log| && log[y + 1] == CopyEnd(log[y].loc, log[y].id))
    && (forall y :: 0 <= y < |log| && log[y].ZeroBegin? ==> y + 1 < |log| && log[y + 1] == ZeroEnd(log[y].loc))
  }

  lemma TidyConcat(a: Log, b: Log, slotCount: nat, hasShared: bool, ids: seq<Id>)
    requires Tidy(a, slotCount, hasShared, ids) && Tidy(b, slotCount, hasShared, ids)
    ensures Tidy(a + b, slotCount, hasShared, ids)
  {
    var all := a + b;
    forall y | |a| <= y < |all| ensures all[y] == b[y - |a|] {
    }
    forall y, loc | 0 <= y < |all| && Writes(all[y], loc) ensures IsBuffer(slotCount, hasShared, ids, loc) {
      if y >= |a| { assert Writes(b[y - |a|], loc); }
    }
  }

  lemma {:induction false} InFlightIsLast(log: Log, t: nat, slotCount: nat, hasShared: bool, ids: seq<Id>, loc: Loc)
    requires Tidy(log, slotCount, hasShared, ids) && t <= |log| && WriteInFlight(log, t, loc)
    ensures t > 0 && (log[t - 1].CopyBegin? || log[t - 1].ZeroBegin?) && log[t - 1].loc == loc
  {
    if t > 1 && WriteInFlight(log, t - 1, loc) {
      InFlightIsLast(log, t - 1, slotCount, hasShared, ids, loc);
    }
  }

  lemma PlainIsTidy(log: Log, slotCount: nat, hasShared: bool, ids: seq<Id>)
    requires forall y :: 0 <= y < |log| ==> log[y].Wait? || log[y].Record? || log[y].KernelBegin? || log[y].KernelEnd?
    ensures Tidy(log, slotCount, hasShared, ids)
  {
  }

  lemma LoadIsTidy(loc: Loc, id: Id, slotCount: nat, hasShared: bool, ids: seq<Id>)
    requires IsBuffer(slotCount, hasShared, ids, loc)
    ensures Tidy(LoadCommands(loc, id), slotCount, hasShared, ids)
  {
  }

  lemma CopyIsTidy(j: nat, id: Id, slotCount: nat, hasShared: bool, ids: seq<Id>)
    requires j < slotCount
    ensures Tidy(CopyCommands(j, id), slotCount, hasShared, ids)
  {
  }

  lemma {:induction false} SyncedIsTidy(slotCount: nat, hasShared: bool, ids: seq<Id>, k: nat)
    requires k <= |ids|
    ensures Tidy(SyncedLog(hasShared, ids[..k]), slotCount, hasShared, ids)
  {
    if k == 0 {
      if hasShared {
        LoadIsTidy(Shared, UNASSIGNED, slotCount, hasShared, ids);
      }
      assert SyncedLog(hasShared, ids[..0]) == SharedLog(hasShared);
    } else {
      SyncedIsTidy(slotCount, hasShared, ids, k - 1);
      FillStep(hasShared, ids, k - 1);
      LoadIsTidy(Pool(ids[k - 1]), ids[k - 1], slotCount, hasShared, ids);
      TidyConcat(SyncedLog(hasShared, ids[..k - 1]), LoadCommands(Pool(ids[k - 1]), ids[k - 1]), slotCount, hasShared,
        ids);
    }
  }

  lemma {:induction false} RingIsTidy(slotCount: nat, hasShared: bool, ids: seq<Id>, k: nat)
    requires k <= slotCount
    ensures Tidy(RingLog(k), slotCount, hasShared, ids)
  {
    if k > 0 {
      RingIsTidy(slotCount, hasShared, ids, k - 1);
      TidyConcat(RingLog(k - 1), [ZeroBegin(Ring(k - 1)), ZeroEnd(Ring(k - 1))], slotCount, hasShared, ids);
    }
  }

  ghost predicate HostTidy(cfg: Config, h: Host, hasShared: bool, ids: seq<Id>) {
    WellFormed(h) && |h.slots| == cfg.slotCount && Tidy(h.log, cfg.slotCount, hasShared, ids)
  }

  lemma AppendPlain(log: Log, more: Log, slotCount: nat, hasShared: bool, ids: seq<Id>)
    requires Tidy(log, slotCount, hasShared, ids)
    requires forall y :: 0 <= y < |more| ==>
      more[y].Wait? || more[y].Record? || more[y].KernelBegin? || more[y].KernelEnd?
    ensures Tidy(log + more, slotCount, hasShared, ids)
  {
    PlainIsTidy(more, slotCount, hasShared, ids);
    TidyConcat(log, more, slotCount, hasShared, ids);
  }

  lemma IssueIsTidy(cfg: Config, h: Host, id: Id, hasShared: bool, ids: seq<Id>)
    requires HostTidy(cfg, h, hasShared, ids)
    ensures HostTidy(cfg, Issue(cfg, h, id).0, hasShared, ids)
  {
    if Missing(cfg, h, id) && id in cfg.bytes {
      var wait, copy := FreeWait(h.slots[h.next]), CopyCommands(h.next, id);
      AppendPlain(h.log, wait, cfg.slotCount, hasShared, ids);
      CopyIsTidy(h.next, id, cfg.slotCount, hasShared, ids);
      TidyConcat(h.log + wait, copy, cfg.slotCount, hasShared, ids);
    }
  }

  lemma GetIsTidy(cfg: Config, h: Host, id: Id, hasShared: bool, ids: seq<Id>)
    requires HostTidy(cfg, h, hasShared, ids)
    ensures HostTidy(cfg, Get(cfg, h, id).0, hasShared, ids)
  {
    IssueIsTidy(cfg, h, id, hasShared, ids);
    var (h', r) := Issue(cfg, h, id);
    if r.Ok? {
      AppendPlain(h'.log, [Wait(Compute, r.value.ready)], cfg.slotCount, hasShared, ids);
    }
  }

  lemma ApplyIsTidy(cfg: Config, s: Session, call: Call, hasShared: bool, ids: seq<Id>)
    requires HostTidy(cfg, s.host, hasShared, ids)
    ensures HostTidy(cfg, Apply(cfg, s, call).host, hasShared, ids)
  {
    match call
    case PrefetchCall(id) => IssueIsTidy(cfg, s.host, id, hasShared, ids);
    case GetCall(id) => GetIsTidy(cfg, s.host, id, hasShared, ids);
    case LaunchCall(id) =>
      if id in s.lent {
        AppendPlain(s.host.log, LaunchCommands(s.lent[id], id), cfg.slotCount, hasShared, ids);
      }
    case DoneCall(id) => AppendPlain(s.host.log, [Record(Compute)], cfg.slotCount, hasShared, ids);
  }

  lemma {:induction false} RunIsTidy(cfg: Config, hasShared: bool, ids: seq<Id>, calls: seq<Call>)
    requires cfg.slotCount > 0
    ensures HostTidy(cfg, Run(cfg, Opened(hasShared, ids, cfg.slotCount), calls).host, hasShared, ids)
    decreases |calls|
  {
    if calls == [] {
      SyncedIsTidy(cfg.slotCount, hasShared, ids, |ids|);
      assert ids[..|ids|] == ids;
      RingIsTidy(cfg.slotCount, hasShared, ids, cfg.slotCount);
      TidyConcat(SyncedLog(hasShared, ids), RingLog(cfg.slotCount), cfg.slotCount, hasShared, ids);
    } else {
      RunIsTidy(cfg, hasShared, ids, calls[..|calls| - 1]);
      ApplyIsTidy(cfg, Run(cfg, Opened(hasShared, ids, cfg.slotCount), calls[..|calls| - 1]), calls[|calls| - 1],
        hasShared, ids);
    }
  }

  // ------------------------------------------------------------ allocation

  /** A buffer's life starts with its asynchronous memset. */
  ghost predicate Allocated(log: Log, loc: Loc) {
    exists y :: 0 <= y < |log| && log[y] == ZeroBegin(loc)
  }

  lemma AllocatedExtends(a: Log, b: Log, loc: Loc)
    requires Allocated(a, loc) || Allocated(b, loc)
    ensures Allocated(a + b, loc)
  {
    if Allocated(a, loc) {
      var y :| 0 <= y < |a| && a[y] == ZeroBegin(loc);
      assert (a + b)[y] == ZeroBegin(loc);
    } else {
      var y :| 0 <= y < |b| && b[y] == ZeroBegin(loc);
      assert (a + b)[|a| + y] == ZeroBegin(loc);
    }
  }

  lemma LoadAllocates(loc: Loc, id: Id)
    ensures Allocated(LoadCommands(loc, id), loc)
  {
    assert LoadCommands(loc, id)[0] == ZeroBegin(loc);
  }

  lemma {:induction false} PoolAllocated(hasShared: bool, ids: seq<Id>, k: nat)
    requires k < |ids|
    ensures Allocated(SyncedLog(hasShared, ids), Pool(ids[k]))
  {
    var last := |ids| - 1;
    var front := ids[..last];
    SyncedStep(hasShared, ids);
    if k == last {
      LoadAllocates(Pool(ids[k]), ids[k]);
    } else {
      PoolAllocated(hasShared, front, k);
      assert front[k] == ids[k];
    }
    AllocatedExtends(SyncedLog(hasShared, front), LoadCommands(Pool(ids[last]), ids[last]), Pool(ids[k]));
  }

  lemma {:induction false} RingAllocated(slotCount: nat, j: nat)
    requires j < slotCount
    ensures Allocated(RingLog(slotCount), Ring(j))
  {
    var zeroing := [ZeroBegin(Ring(slotCount - 1)), ZeroEnd(Ring(slotCount - 1))];
    if j == slotCount - 1 {
      assert zeroing[0] == ZeroBegin(Ring(j));
    } else {
      RingAllocated(slotCount - 1, j);
    }
    AllocatedExtends(RingLog(slotCount - 1), zeroing, Ring(j));
  }

  lemma BufferAllocated(hasShared: bool, ids: seq<Id>, slotCount: nat, loc: Loc)
    requires IsBuffer(slotCount, hasShared, ids, loc)
    ensures Allocated(BootLog(hasShared, ids, slotCount), loc)
  {
    match loc {
      case Ring(j) => RingAllocated(slotCount, j);
      case Shared =>
        LoadAllocates(Shared, UNASSIGNED);
        AllocatedExtends(SharedLog(hasShared), ResidentLog(ids), Shared);
      case Pool(id) =>
        var k :| 0 <= k < |ids| && ids[k] == id;
        PoolAllocated(hasShared, ids, k);
    }
    AllocatedExtends(SyncedLog(hasShared, ids), RingLog(slotCount), loc);
  }

  lemma AllocatedStays(before: Log, log: Log, loc: Loc)
    requires |before| <= |log| && log[..|before|] == before && Allocated(before, loc)
    ensures Allocated(log, loc)
  {
    assert log == before + log[|before|..];
    AllocatedExtends(before, log[|before|..], loc);
  }

  lemma BufferStaysAllocated(cfg: Config, hasShared: bool, ids: seq<Id>, calls: seq<Call>, loc: Loc)
    requires ConfigOf(cfg, hasShared, ids) && IsBuffer(cfg.slotCount, hasShared, ids, loc)
    ensures Allocated(Run(cfg, Opened(hasShared, ids, cfg.slotCount), calls).host.log, loc)
  {
    var s := Opened(hasShared, ids, cfg.slotCount);
    BufferAllocated(hasShared, ids, cfg.slotCount, loc);
    RunWritesRingOnly(cfg, s, calls, |s.host.log|);
    AllocatedStays(s.host.log, Run(cfg, s, calls).host.log, loc);
  }

  lemma AllocatedIsBuffer(log: Log, slotCount: nat, hasShared: bool, ids: seq<Id>, loc: Loc)
    requires Tidy(log, slotCount, hasShared, ids) && Allocated(log, loc)
    ensures IsBuffer(slotCount, hasShared, ids, loc)
  {
    var y :| 0 <= y < |log| && log[y] == ZeroBegin(loc);
    assert Writes(log[y], loc);
  }

  lemma FreedIsAllocated(cfg: Config, hasShared: bool, ids: seq<Id>, calls: seq<Call>, loc: Loc)
    requires ConfigOf(cfg, hasShared, ids)
    ensures var log := Run(cfg, Opened(hasShared, ids, cfg.slotCount), calls).host.log;
      loc in Buffers(cfg.slotCount, hasShared, ids) <==> Allocated(log, loc)
  {
    BuffersAre(cfg.slotCount, hasShared, ids, loc);
    if IsBuffer(cfg.slotCount, hasShared, ids, loc) {
      BufferStaysAllocated(cfg, hasShared, ids, calls, loc);
    } else {
      RunIsTidy(cfg, hasShared, ids, calls);
      var log := Run(cfg, Opened(hasShared, ids, cfg.slotCount), calls).host.log;
      if Allocated(log, loc) {
        AllocatedIsBuffer(log, cfg.slotCount, hasShared, ids, loc);
      }
    }
  }

  // ------------------------------------------------- kernels still running

  ghost predicate KernelsPaired(log: Log) {
    forall y :: 0 <= y < |log| && log[y].KernelBegin? ==>
      y + 1 < |log| && log[y + 1] == KernelEnd(log[y].loc, log[y].id)
  }

  lemma {:induction false} PairedInFlightIsLast(log: Log, c: nat, loc: Loc, id: Id)
    requires KernelsPaired(log) && c <= |log| && KernelInFlight(log, c, loc, id)
    ensures c > 0 && log[c - 1] == KernelBegin(loc, id)
  {
    if c > 1 && KernelInFlight(log, c - 1, loc, id) {
      PairedInFlightIsLast(log, c - 1, loc, id);
    }
  }

  lemma PairedConcat(a: Log, b: Log)
    requires KernelsPaired(a) && KernelsPaired(b)
    ensures KernelsPaired(a + b)
  {
    forall y | |a| <= y < |a + b| ensures (a + b)[y] == b[y - |a|] {
    }
  }

  lemma BootIsPaired(hasShared: bool, ids: seq<Id>, slotCount: nat)
    ensures KernelsPaired(BootLog(hasShared, ids, slotCount))
  {
    OpenedShape(hasShared, ids, slotCount);
  }

  lemma CallIsPaired(cfg: Config, s: Session, call: Call)
    requires WellFormed(s.host)
    ensures KernelsPaired(CallCommands(cfg, s, call))
  {
  }

  lemma {:induction false} RunIsPaired(cfg: Config, hasShared: bool, ids: seq<Id>, calls: seq<Call>)
    requires cfg.slotCount > 0
    ensures KernelsPaired(Run(cfg, Opened(hasShared, ids, cfg.slotCount), calls).host.log)
    decreases |calls|
  {
    if calls == [] {
      BootIsPaired(hasShared, ids, cfg.slotCount);
    } else {
      var before, call := calls[..|calls| - 1], calls[|calls| - 1];
      RunIsPaired(cfg, hasShared, ids, before);
      var s := Run(cfg, Opened(hasShared, ids, cfg.slotCount), before);
      ApplyAppends(cfg, s, call);
      CallIsPaired(cfg, s, call);
      PairedConcat(s.host.log, CallCommands(cfg, s, call));
    }
  }

  /** Whenever the transfer stream has drained, no kernel is running. */
  ghost predicate QuietAtDrop(log: Log, start: nat) {
    forall run: seq<Cursors>, k: nat :: Drains(log, start, run, k) ==> NoKernel(log, run[k].compute)
  }

  /** The run reaches, at `k`, a state in which the transfer queue is empty. */
  ghost predicate Drains(log: Log, start: nat, run: seq<Cursors>, k: nat) {
    Execution(log, start, run) && k < |run| && InRange(log, run[k]) && run[k].transfer == |log|
  }

  ghost predicate NoKernel(log: Log, c: nat)
    requires c <= |log|
  {
    forall loc, id :: !KernelInFlight(log, c, loc, id)
  }

  /** The transfer stream has been told to wait for every kernel that was launched. */
  ghost predicate KernelsAwaited(log: Log) {
    forall i :: 0 <= i < |log| && log[i].KernelBegin? ==> GuardedBefore(log, i, |log|)
  }

  ghost predicate KernelsFollow(log: Log, start: nat) {
    start <= |log| && forall i :: 0 <= i < |log| && log[i].KernelBegin? ==> start <= i
  }

  lemma RunningIsUnawaited(log: Log, s: Cursors, loc: Loc, id: Id)
    requires InRange(log, s) && Honoured(log, s) && s.transfer == |log| && KernelsPaired(log)
    requires KernelInFlight(log, s.compute, loc, id)
    ensures !KernelsAwaited(log)
  {
    PairedInFlightIsLast(log, s.compute, loc, id);
    var i: nat := s.compute - 1;
    assert !GuardedBefore(log, i, |log|);
  }

  lemma AwaitedIsQuiet(log: Log, start: nat)
    requires start <= |log| && KernelsPaired(log) && KernelsAwaited(log)
    requires forall w: nat :: w < start ==> !Binds(log, w)
    ensures QuietAtDrop(log, start)
  {
    forall run: seq<Cursors>, k: nat | Drains(log, start, run, k) ensures NoKernel(log, run[k].compute) {
      ExecutionInvariant(log, start, run, k);
      forall loc, id ensures !KernelInFlight(log, run[k].compute, loc, id) {
        if KernelInFlight(log, run[k].compute, loc, id) {
          RunningIsUnawaited(log, run[k], loc, id);
        }
      }
    }
  }

  /** A kernel that no transfer waited for can be overtaken by the whole transfer queue. */
  lemma UnawaitedOutlives(log: Log, start: nat, i: nat) returns (run: seq<Cursors>)
    requires start <= i < |log| && log[i].KernelBegin? && KernelsPaired(log)
    requires !GuardedBefore(log, i, |log|)
    ensures Execution(log, start, run) && run[|run| - 1] == Cursors(|log|, i + 1)
    ensures KernelInFlight(log, i + 1, log[i].loc, log[i].id)
  {
    run := IssueOrderReachable(log, start, i);
    run := RunOn(log, start, run, Compute, 1);
    forall p: nat | i <= p < |log| && StreamOf(log[p]) == Transfer && Binds(log, p)
      && StreamOf(log[log[p].event]) != Transfer
      ensures log[p].event < i + 1
    {
      assert !IsGuard(log, i, p);
      assert log[i + 1].KernelEnd?;
    }
    run := RunOn(log, start, run, Transfer, |log| - i);
  }

  /** For any log of paired kernels: the drained transfer stream means no running
      kernel if and only if it waited for each. */
  lemma QuietExactly(log: Log, start: nat)
    requires KernelsPaired(log) && KernelsFollow(log, start)
    requires forall w: nat :: w < start ==> !Binds(log, w)
    ensures QuietAtDrop(log, start) <==> KernelsAwaited(log)
  {
    if KernelsAwaited(log) {
      AwaitedIsQuiet(log, start);
    } else {
      var i: nat :| i < |log| && log[i].KernelBegin? && !GuardedBefore(log, i, |log|);
      var run := UnawaitedOutlives(log, start, i);
      assert Drains(log, start, run, |run| - 1) && !NoKernel(log, i + 1);
    }
  }

  lemma RunKernelsFollow(cfg: Config, hasShared: bool, ids: seq<Id>, calls: seq<Call>)
    requires ConfigOf(cfg, hasShared, ids)
    ensures var log := Run(cfg, Opened(hasShared, ids, cfg.slotCount), calls).host.log;
      KernelsFollow(log, cfg.start) && KernelsPaired(log) && forall w: nat :: w < cfg.start ==> !Binds(log, w)
  {
    var s := Opened(hasShared, ids, cfg.slotCount);
    OpenedInv(cfg, hasShared, ids);
    RunConsistent(cfg, s, calls);
    RunIsPaired(cfg, hasShared, ids, calls);
    OpenedShape(hasShared, ids, cfg.slotCount);
    RunWritesRingOnly(cfg, s, calls, |s.host.log|);
    var log := Run(cfg, s, calls).host.log;
    forall i | 0 <= i < |s.host.log| ensures !log[i].KernelBegin? {
      assert log[..|s.host.log|][i] == s.host.log[i];
    }
  }

  /** Nothing that follows the kernel, but for one event, can be waited for. */
  lemma LastKernelIsUnawaited(log: Log, p: nat)
    requires p < |log| <= p + 3 && log[p].KernelBegin?
    requires forall y :: p < y < |log| ==> !log[y].Wait?
    ensures !KernelsAwaited(log)
  {
    assert !GuardedBefore(log, p, |log|);
  }

  lemma LaunchAppends(cfg: Config, s: Session, id: Id)
    requires WellFormed(s.host) && id in s.lent
    ensures Apply(cfg, s, LaunchCall(id)).host.log == s.host.log + LaunchCommands(s.lent[id], id)
  {
  }

  lemma DoneAppends(cfg: Config, s: Session, id: Id)
    requires WellFormed(s.host)
    ensures Apply(cfg, s, DoneCall(id)).host.log == s.host.log
      || Apply(cfg, s, DoneCall(id)).host.log == s.host.log + [Record(Compute)]
  {
    ApplyAppends(cfg, s, DoneCall(id));
  }

  lemma LaunchIsUnawaited(cfg: Config, s: Session, id: Id)
    requires WellFormed(s.host) && id in s.lent
    ensures var launched := Apply(cfg, s, LaunchCall(id));
      !KernelsAwaited(launched.host.log) && !KernelsAwaited(Apply(cfg, launched, DoneCall(id)).host.log)
  {
    var launched := Apply(cfg, s, LaunchCall(id));
    LaunchAppends(cfg, s, id);
    DoneAppends(cfg, launched, id);
    LastKernelIsUnawaited(launched.host.log, |s.host.log|);
    LastKernelIsUnawaited(Apply(cfg, launched, DoneCall(id)).host.log, |s.host.log|);
  }

  /** A kernel launched as the last use of the engine, marked done or not, is still unawaited. */
  lemma LastLaunchIsUnawaited(cfg: Config, hasShared: bool, ids: seq<Id>, calls: seq<Call>, id: Id, done: bool)
    requires ConfigOf(cfg, hasShared, ids) && id in Run(cfg, Opened(hasShared, ids, cfg.slotCount), calls).lent
    ensures var last := [LaunchCall(id)] + if done then [DoneCall(id)] else [];
      !KernelsAwaited(Run(cfg, Opened(hasShared, ids, cfg.slotCount), calls + last).host.log)
  {
    var s := Opened(hasShared, ids, cfg.slotCount);
    LaunchIsUnawaited(cfg, Run(cfg, s, calls), id);
    if done {
      RunConcat(cfg, s, calls, [LaunchCall(id)] + [DoneCall(id)]);
      RunTwo(cfg, Run(cfg, s, calls), LaunchCall(id), DoneCall(id));
    } else {
      RunConcat(cfg, s, calls, [LaunchCall(id)] + []);
      RunOne(cfg, Run(cfg, s, calls), LaunchCall(id));
    }
  }

  /** Whether `Drop` can free a buffer under a running kernel, for any client: it
      cannot, in any execution, if and only if the transfer stream was told to
      wait for every launched kernel.  Any synchronising effect of freeing itself
      is not part of this model. */
  lemma DropIsQuietExactly(cfg: Config, hasShared: bool, ids: seq<Id>, calls: seq<Call>)
    requires ConfigOf(cfg, hasShared, ids)
    ensures var log := Run(cfg, Opened(hasShared, ids, cfg.slotCount), calls).host.log;
      QuietAtDrop(log, cfg.start) <==> KernelsAwaited(log)
  {
    RunKernelsFollow(cfg, hasShared, ids, calls);
    QuietExactly(Run(cfg, Opened(hasShared, ids, cfg.slotCount), calls).host.log, cfg.start);
  }

  /** Were the compute stream drained as well, no kernel would be running in any case. */
  lemma DrainedComputeIsQuiet(cfg: Config, hasShared: bool, ids: seq<Id>, calls: seq<Call>)
    requires cfg.slotCount > 0
    ensures var log := Run(cfg, Opened(hasShared, ids, cfg.slotCount), calls).host.log;
      NoKernel(log, |log|)
  {
    var log := Run(cfg, Opened(hasShared, ids, cfg.slotCount), calls).host.log;
    RunIsPaired(cfg, hasShared, ids, calls);
    forall loc, id ensures !KernelInFlight(log, |log|, loc, id) {
      if KernelInFlight(log, |log|, loc, id) {
        PairedInFlightIsLast(log, |log|, loc, id);
      }
    }
  }

  /** From a fresh engine: use one block, then drop. */
  lemma KernelMayOutliveTheBuffers(cfg: Config, hasShared: bool, ids: seq<Id>, id: Id)
    requires ConfigOf(cfg, hasShared, ids) && (id in cfg.resident || id in cfg.bytes)
    ensures !QuietAtDrop(Run(cfg, Opened(hasShared, ids, cfg.slotCount), [GetCall(id), LaunchCall(id)]).host.log,
      cfg.start)
  {
    var calls := [GetCall(id), LaunchCall(id)];
    GetLends(cfg, Opened(hasShared, ids, cfg.slotCount), id, []);
    assert [GetCall(id)] + [] == [GetCall(id)];
    LastLaunchIsUnawaited(cfg, hasShared, ids, [GetCall(id)], id, false);
    assert [GetCall(id)] + ([LaunchCall(id)] + []) == calls;
    DropIsQuietExactly(cfg, hasShared, ids, calls);
  }

  /** The last position of a pass, up to its launch. */
  lemma LastPosition(cfg: Config, ahead: nat, steps: nat) returns (before: seq<Call>, id: Id)
    requires cfg.order != [] && steps > 0
    ensures id in cfg.order
    ensures var more := PrefetchCalls(cfg, ahead, |cfg.order| - 1);
      AttachCalls(cfg, ahead, steps) == before + ([GetCall(id)] + more) + ([LaunchCall(id)] + [DoneCall(id)])
  {
    var q := |cfg.order| - 1;
    id := cfg.order[q];
    before := AttachCalls(cfg, ahead, steps - 1) + PassCalls(cfg, ahead, q);
    var more := PrefetchCalls(cfg, ahead, q);
    assert PassCalls(cfg, ahead, q + 1) == PassCalls(cfg, ahead, q) + PositionCalls(cfg, ahead, q);
    assert PositionCalls(cfg, ahead, q) == [GetCall(id)] + more + ([LaunchCall(id)] + [DoneCall(id)]);
  }

  /** The installed hooks never leave a quiet device: after any forward pass the
      kernel of the last block may still be running when the buffers are freed. */
  lemma AttachIsNeverQuiet(cfg: Config, hasShared: bool, ids: seq<Id>, ahead: nat, steps: nat)
    requires EngineConfig(cfg, hasShared, ids) && cfg.order != [] && steps > 0
    ensures !QuietAtDrop(Run(cfg, Opened(hasShared, ids, cfg.slotCount), AttachCalls(cfg, ahead, steps)).host.log,
      cfg.start)
  {
    var s := Opened(hasShared, ids, cfg.slotCount);
    var before, id := LastPosition(cfg, ahead, steps);
    var more := PrefetchCalls(cfg, ahead, |cfg.order| - 1);
    GetLends(cfg, Run(cfg, s, before), id, more);
    RunConcat(cfg, s, before, [GetCall(id)] + more);
    LastLaunchIsUnawaited(cfg, hasShared, ids, before + ([GetCall(id)] + more), id, true);
    DropIsQuietExactly(cfg, hasShared, ids, AttachCalls(cfg, ahead, steps));
  }

  // ----------------------------------------------------------------- dropping

  /** Dropping is safe against every pending copy and memset, in whatever order a
      client called that asked for no oversized block: with the transfer stream
      drained no write is under way, exactly the buffers ever allocated are
      freed, once each, and nothing ever wrote to anything else.  No kernel is
      running either if and only if the transfer stream was told to wait for all. */
  lemma DropIsSafe(cfg: Config, hasShared: bool, ids: seq<Id>, calls: seq<Call>)
    requires ConfigOf(cfg, hasShared, ids) && Sized(cfg, calls)
    ensures var log := Run(cfg, Opened(hasShared, ids, cfg.slotCount), calls).host.log;
      var freed := Buffers(cfg.slotCount, hasShared, ids);
      && Distinct(freed) && CopiesFit(cfg, log)
      && (forall loc :: !WriteInFlight(log, |log|, loc))
      && (forall loc :: loc in freed <==> Allocated(log, loc))
      && (forall y, loc :: 0 <= y < |log| && Writes(log[y], loc) ==> loc in freed)
      && (QuietAtDrop(log, cfg.start) <==> KernelsAwaited(log))
  {
    var log := Run(cfg, Opened(hasShared, ids, cfg.slotCount), calls).host.log;
    RunIsTidy(cfg, hasShared, ids, calls);
    SizedRunFits(cfg, hasShared, ids, calls);
    BuffersDistinct(cfg.slotCount, hasShared, ids);
    DropIsQuietExactly(cfg, hasShared, ids, calls);
    forall loc ensures !WriteInFlight(log, |log|, loc) {
      if WriteInFlight(log, |log|, loc) {
        InFlightIsLast(log, |log|, cfg.slotCount, hasShared, ids, loc);
      }
    }
    forall y, loc | 0 <= y < |log| && Writes(log[y], loc) ensures loc in Buffers(cfg.slotCount, hasShared, ids) {
      BuffersAre(cfg.slotCount, hasShared, ids, loc);
    }
    forall loc ensures loc in Buffers(cfg.slotCount, hasShared, ids) <==> Allocated(log, loc) {
      FreedIsAllocated(cfg, hasShared, ids, calls, loc);
    }
  }
}
