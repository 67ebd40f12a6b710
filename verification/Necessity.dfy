/** When a transfer is safe, exactly: it races with a kernel issued earlier unless
    the transfer stream has been told to wait for an event after that kernel. */
module Necessity {
  import opened Device
  import opened Engine
  import opened Protocol
  import opened Safety

  lemma CoveredTransferIsProtected(cfg: Config, s: Session, id: Id)
    requires Inv(cfg, s) && Missing(cfg, s.host, id) && id in cfg.bytes && SlotCovered(s.host, s.host.next)
    ensures Protected(Fetch(cfg, s.host, id).0.log, cfg.start)
  {
    var h := s.host;
    AwaitFreeBinds(cfg, h);
    AwaitFreeGuards(cfg, h);
    assert AwaitFree(h).log == h.log + FreeWait(h.slots[h.next]);
    AppendKeeps(cfg, s, FreeWait(h.slots[h.next]));
    var h1 := AwaitFree(h);
    var more := CopyCommands(h.next, id);
    forall i: nat, y: nat
      | i < |h1.log| <= y < |h1.log + more| && h1.log[i].KernelBegin? && Writes((h1.log + more)[y], h1.log[i].loc)
      ensures GuardedBefore(h1.log + more, i, y)
    {
      assert KernelOn(h1.log, i, Ring(h.next));
      GuardExtends(h1.log, more, i);
    }
    ProtectedExtends(h1.log, more, cfg.start);
    FetchSplits(cfg, h, id);
  }

  lemma QuietAppendKeepsProtected(log: Log, more: Log, start: nat)
    requires Protected(log, start)
    requires forall k :: 0 <= k < |more| ==> more[k].Wait? || more[k].Record?
    ensures Protected(log + more, start)
  {
    ProtectedExtends(log, more, start);
  }

  lemma CoveredTransferIsSafe(cfg: Config, s: Session, call: Call)
    requires Inv(cfg, s) && Transfers(cfg, s, call) && SlotCovered(s.host, s.host.next)
    ensures AlwaysSafe(Apply(cfg, s, call).host.log, cfg.start)
  {
    CoveredTransferIsProtected(cfg, s, call.id);
    ApplyConsistent(cfg, s, call);
    var fetched := Fetch(cfg, s.host, call.id).0.log;
    if call.GetCall? {
      QuietAppendKeepsProtected(fetched, [Wait(Compute, Fetch(cfg, s.host, call.id).1.ready)], cfg.start);
    }
    ProtectedIsAlwaysSafe(Apply(cfg, s, call).host.log, cfg.start);
  }

  /** Kernel `i` may still be running when the transfer stream reaches `c`. */
  ghost predicate Unawaited(log: Log, i: nat, c: nat)
    requires c <= |log|
  {
    forall w: nat :: i <= w < c && Binds(log, w) && log[w].on == Transfer && log[log[w].event].on == Compute ==>
      log[w].event < i
  }

  /** The transfer stream overtakes the kernel and starts writing its buffer. */
  lemma OverwrittenByLaterCopy(log: Log, start: nat, i: nat, c: nat, slot: nat, copied: Id, id: Id)
    requires start <= i && i + 1 < c && c + 5 <= |log| && log[i] == KernelBegin(Ring(slot), id)
    requires log[c..c + 5] == CopyCommands(slot, copied) && Unawaited(log, i, c)
    ensures !AlwaysSafe(log, start)
  {
    CopyAt(log, c, slot, copied);
    var run0 := IssueOrderReachable(log, start, i);
    var run1 := RunOn(log, start, run0, Compute, 1);
    forall p: nat | i <= p < c + 2 && StreamOf(log[p]) == Transfer && Binds(log, p) &&
      StreamOf(log[log[p].event]) != Transfer
      ensures log[p].event < i
    {
      assert p < c;
    }
    var run2 := RunOn(log, start, run1, Transfer, c + 2 - i);
    assert run2[|run2| - 1] == Cursors(c + 2, i + 1);
    assert WriteInFlight(log, c + 2, Ring(slot)) && KernelInFlight(log, i + 1, Ring(slot), id);
    assert !Safe(log, run2[|run2| - 1]);
  }

  lemma KernelsFollowStart(cfg: Config, s: Session, i: nat)
    requires Inv(cfg, s) && i < |s.host.log| && s.host.log[i].KernelBegin?
    ensures cfg.start <= i && i + 1 < |s.host.log| && s.host.log[i + 1].KernelEnd?
  {
    assert KernelProtected(s.host.log, cfg.start, i);
    var loc, id := s.host.log[i].loc, s.host.log[i].id;
    if !Preloaded(s.host.log, cfg.start, i, loc, id) {
      var w: nat :| IsFeed(s.host.log, i, loc, id, w);
      assert Binds(s.host.log, w);
    }
  }

  lemma UncoveredIsUnawaited(cfg: Config, s: Session, i: nat)
    requires Inv(cfg, s) && KernelOn(s.host.log, i, Ring(s.host.next))
    requires !GuardedBefore(s.host.log, i, |s.host.log|)
    requires s.host.slots[s.host.next].free.Some? ==> s.host.slots[s.host.next].free.value <= i + 1
    ensures Unawaited(AwaitFree(s.host).log, i, |AwaitFree(s.host).log|)
  {
    var h := s.host;
    var log := AwaitFree(h).log;
    KernelsFollowStart(cfg, s, i);
    assert SlotOk(cfg, h, h.next);
    forall w: nat | i <= w < |log| && Binds(log, w) && log[w].on == Transfer && log[log[w].event].on == Compute
      ensures log[w].event < i
    {
      if w < |h.log| {
        assert Binds(h.log, w) && !IsGuard(h.log, i, w);
      }
    }
  }

  lemma UnawaitedExtends(log: Log, more: Log, i: nat)
    requires Unawaited(log, i, |log|)
    ensures Unawaited(log + more, i, |log|)
  {
    forall w: nat | i <= w < |log| && Binds(log + more, w) ensures Binds(log, w) {
    }
  }

  /** The copy follows the wait for the slot's free event, if there is one. */
  lemma TransferShape(cfg: Config, s: Session, call: Call) returns (rest: Log)
    requires WellFormed(s.host) && Transfers(cfg, s, call)
    ensures var before := AwaitFree(s.host).log;
      Apply(cfg, s, call).host.log == before + (CopyCommands(s.host.next, call.id) + rest)
  {
    FetchSplits(cfg, s.host, call.id);
    rest := if call.GetCall? then [Wait(Compute, Fetch(cfg, s.host, call.id).1.ready)] else [];
  }

  lemma UncoveredKernelRaces(cfg: Config, s: Session, call: Call, i: nat)
    requires Inv(cfg, s) && Transfers(cfg, s, call) && KernelOn(s.host.log, i, Ring(s.host.next))
    requires Unawaited(AwaitFree(s.host).log, i, |AwaitFree(s.host).log|)
    ensures !AlwaysSafe(Apply(cfg, s, call).host.log, cfg.start)
  {
    var before, copy := AwaitFree(s.host).log, CopyCommands(s.host.next, call.id);
    KernelsFollowStart(cfg, s, i);
    var rest := TransferShape(cfg, s, call);
    var log := Apply(cfg, s, call).host.log;
    UnawaitedExtends(before, copy + rest, i);
    assert log[|before|..|before| + 5] == copy;
    assert log[i] == s.host.log[i];
    OverwrittenByLaterCopy(log, cfg.start, i, |before|, s.host.next, call.id, log[i].id);
  }

  lemma UncoveredTransferIsUnsafe(cfg: Config, s: Session, call: Call)
    requires Inv(cfg, s) && Transfers(cfg, s, call) && !SlotCovered(s.host, s.host.next)
    ensures !AlwaysSafe(Apply(cfg, s, call).host.log, cfg.start)
  {
    var h := s.host;
    var i: nat :| KernelOn(h.log, i, Ring(h.next)) && !GuardedBefore(h.log, i, |h.log|) &&
      !(h.slots[h.next].free.Some? && i + 1 < h.slots[h.next].free.value);
    UncoveredIsUnawaited(cfg, s, i);
    UncoveredKernelRaces(cfg, s, call, i);
  }

  /** A transfer is safe if and only if every kernel issued on its slot precedes an
      event the transfer stream is told to wait for: a kernel launched and not yet
      marked done races with it. */
  lemma TransferIsSafeExactly(cfg: Config, s: Session, call: Call)
    requires Inv(cfg, s) && Transfers(cfg, s, call)
    ensures AlwaysSafe(Apply(cfg, s, call).host.log, cfg.start) <==> SlotCovered(s.host, s.host.next)
  {
    if SlotCovered(s.host, s.host.next) {
      CoveredTransferIsSafe(cfg, s, call);
    } else {
      UncoveredTransferIsUnsafe(cfg, s, call);
    }
  }

  /** The last command's event is later than any the transfer stream was told to wait for. */
  lemma JustLaunchedIsUncovered(cfg: Config, s: Session, id: Id)
    requires Inv(cfg, s) && id in s.lent && s.lent[id] == Ring(s.host.next)
    ensures !SlotCovered(Apply(cfg, s, LaunchCall(id)).host, s.host.next)
  {
    var h, launched := s.host, Apply(cfg, s, LaunchCall(id)).host;
    assert KernelOn(launched.log, |h.log|, Ring(h.next));
    assert SlotOk(cfg, h, h.next);
  }

  /** In particular a kernel launched just before the transfer. */
  lemma LaunchThenTransferIsUnsafe(cfg: Config, s: Session, call: Call, id: Id)
    requires Inv(cfg, s) && Transfers(cfg, s, call)
    requires id in s.lent && s.lent[id] == Ring(s.host.next)
    ensures !AlwaysSafe(Run(cfg, s, [LaunchCall(id), call]).host.log, cfg.start)
  {
    RunTwo(cfg, s, LaunchCall(id), call);
    LaunchKeeps(cfg, s, id);
    JustLaunchedIsUncovered(cfg, s, id);
    UncoveredTransferIsUnsafe(cfg, Apply(cfg, s, LaunchCall(id)), call);
  }
}
