/** Clients of the engine, and the discipline under which every interleaving of
    the two streams is safe.  A client may launch kernels on a block between
    `get_block` and `mark_block_done`; the block is then outstanding. */
module Protocol {
  import opened Common
  import opened Device
  import opened Engine

  datatype Call = PrefetchCall(id: Id) | GetCall(id: Id) | LaunchCall(id: Id) | DoneCall(id: Id)

  /** `lent` maps every outstanding block to the buffer its tensors view. */
  datatype Session = Session(host: Host, lent: map<Id, Loc>)

  function Opened(hasShared: bool, residentIds: seq<Id>, slotCount: nat): Session {
    Session(Boot(hasShared, residentIds, slotCount), map[])
  }

  function LaunchCommands(loc: Loc, id: Id): Log {
    [KernelBegin(loc, id), KernelEnd(loc, id)]
  }

  function Apply(cfg: Config, s: Session, call: Call): (s': Session)
    requires WellFormed(s.host)
    ensures WellFormed(s'.host)
  {
    match call
    case PrefetchCall(id) => s.(host := Issue(cfg, s.host, id).0)
    case GetCall(id) =>
      var (h, r) := Get(cfg, s.host, id);
      Session(h, if r.Ok? then s.lent[id := r.value.loc] else s.lent)
    case LaunchCall(id) =>
      if id in s.lent then s.(host := s.host.(log := s.host.log + LaunchCommands(s.lent[id], id))) else s
    case DoneCall(id) => Session(Done(cfg, s.host, id), s.lent - {id})
  }

  function Run(cfg: Config, s: Session, calls: seq<Call>): (s': Session)
    requires WellFormed(s.host)
    ensures WellFormed(s'.host)
    decreases |calls|
  {
    if calls == [] then s else Apply(cfg, Run(cfg, s, calls[..|calls| - 1]), calls[|calls| - 1])
  }

  /** The call transfers a block into the ring. */
  predicate Transfers(cfg: Config, s: Session, call: Call) {
    (call.PrefetchCall? || call.GetCall?) && Missing(cfg, s.host, call.id) && call.id in cfg.bytes
  }

  /** A transfer never lands on a slot whose block is outstanding, nor in a slot
      too small for it. */
  predicate CallOk(cfg: Config, s: Session, call: Call)
    requires WellFormed(s.host)
  {
    Transfers(cfg, s, call) ==> Ring(s.host.next) !in s.lent.Values && FitsSlot(cfg, call.id)
  }

  ghost predicate Disciplined(cfg: Config, s: Session, calls: seq<Call>)
    requires WellFormed(s.host)
    decreases |calls|
  {
    calls != [] ==>
      && Disciplined(cfg, s, calls[..|calls| - 1])
      && CallOk(cfg, Run(cfg, s, calls[..|calls| - 1]), calls[|calls| - 1])
  }

  lemma {:induction false} RunConcat(cfg: Config, s: Session, a: seq<Call>, b: seq<Call>)
    requires WellFormed(s.host)
    ensures Run(cfg, s, a + b) == Run(cfg, Run(cfg, s, a), b)
    ensures Disciplined(cfg, s, a + b) <==> Disciplined(cfg, s, a) && Disciplined(cfg, Run(cfg, s, a), b)
    decreases |b|
  {
    if b == [] {
      assert a + b == a;
    } else {
      assert (a + b)[..|a + b| - 1] == a + b[..|b| - 1];
      RunConcat(cfg, s, a, b[..|b| - 1]);
    }
  }

  // ------------------------------------------------------- session invariant

  ghost predicate SlotOk(cfg: Config, h: Host, j: nat)
    requires j < |h.slots|
  {
    var slot := h.slots[j];
    && (slot.occupant.Some? ==>
          && slot.occupant.value !in cfg.resident
          && slot.ready < |h.log| && h.log[slot.ready] == Record(Transfer)
          && ContentAt(h.log, slot.ready, Ring(j)) == Holds(slot.occupant.value)
          && Quiet(h.log, Ring(j), slot.ready, |h.log|))
    && (slot.free.Some? ==> slot.free.value < |h.log| && h.log[slot.free.value] == Record(Compute))
  }

  ghost predicate OccupantsDistinct(h: Host) {
    forall i, j :: 0 <= i < j < |h.slots| && h.slots[i].occupant.Some? ==>
      h.slots[i].occupant != h.slots[j].occupant
  }

  ghost predicate PoolOk(cfg: Config, h: Host, id: Id)
    requires id in cfg.resident && cfg.start <= |h.log|
  {
    && cfg.resident[id] < cfg.start && h.log[cfg.resident[id]] == Record(Transfer)
    && ContentAt(h.log, cfg.start, Pool(id)) == Holds(id)
    && Quiet(h.log, Pool(id), cfg.start, |h.log|)
  }

  ghost predicate HasWait(log: Log, event: nat) {
    exists w: nat :: Binds(log, w) && log[w] == Wait(Compute, event)
  }

  ghost predicate LentOk(cfg: Config, s: Session, id: Id)
    requires id in s.lent
  {
    match s.lent[id]
    case Ring(j) =>
      && j < |s.host.slots| && s.host.slots[j].occupant == Some(id)
      && HasWait(s.host.log, s.host.slots[j].ready)
    case Pool(b) => b == id && id in cfg.resident
    case Shared => false
  }

  ghost predicate KernelOn(log: Log, i: nat, loc: Loc) {
    i < |log| && log[i].KernelBegin? && log[i].loc == loc
  }

  /** The kernels issued on slot `j` precede an event that the next transfer into it waits for. */
  ghost predicate SlotCovered(h: Host, j: nat)
    requires j < |h.slots|
  {
    forall i: nat :: KernelOn(h.log, i, Ring(j)) ==>
      GuardedBefore(h.log, i, |h.log|) || (h.slots[j].free.Some? && i + 1 < h.slots[j].free.value)
  }

  ghost predicate WaitsBind(log: Log) {
    forall w: nat :: w < |log| && log[w].Wait? ==> Binds(log, w)
  }

  /** What holds of the engine's state and issue log under any calls at all. */
  ghost predicate Consistent(cfg: Config, h: Host) {
    && WellFormed(h) && |h.slots| == cfg.slotCount
    && cfg.start <= |h.log|
    && (forall w: nat :: w < cfg.start ==> !Binds(h.log, w))
    && WaitsBind(h.log)
    && (forall j: nat :: j < |h.slots| ==> SlotOk(cfg, h, j))
    && OccupantsDistinct(h)
    && (forall id :: id in cfg.resident ==> PoolOk(cfg, h, id))
  }

  ghost predicate Inv(cfg: Config, s: Session) {
    && Consistent(cfg, s.host)
    && (forall id :: id in s.lent ==> LentOk(cfg, s, id))
    && Protected(s.host.log, cfg.start)
    && (forall j: nat :: j < |s.host.slots| && Ring(j) !in s.lent.Values ==> SlotCovered(s.host, j))
  }

  // ------------------------------------------------------ extending the log

  lemma {:induction false} ContentPrefix(log: Log, more: Log, t: nat, loc: Loc)
    requires t <= |log|
    ensures ContentAt(log + more, t, loc) == ContentAt(log, t, loc)
  {
    if t > 0 {
      ContentPrefix(log, more, t - 1, loc);
    }
  }

  lemma ProtectedExtends(log: Log, more: Log, start: nat)
    requires Protected(log, start)
    requires forall i: nat :: |log| <= i < |log + more| && (log + more)[i].KernelBegin? ==>
      KernelProtected(log + more, start, i)
    requires forall i: nat, y: nat ::
      i < |log| <= y < |log + more| && log[i].KernelBegin? && Writes((log + more)[y], log[i].loc) ==>
        GuardedBefore(log + more, i, y)
    ensures Protected(log + more, start)
  {
    var all := log + more;
    forall i: nat | i < |log| && all[i].KernelBegin? ensures KernelProtected(all, start, i) {
      assert KernelProtected(log, start, i);
      var loc, id := log[i].loc, log[i].id;
      if Preloaded(log, start, i, loc, id) {
        ContentPrefix(log, more, start, loc);
        assert Preloaded(all, start, i, loc, id);
      } else {
        var w: nat :| IsFeed(log, i, loc, id, w);
        ContentPrefix(log, more, log[w].event, loc);
        assert IsFeed(all, i, loc, id, w);
      }
      forall y: nat | i < y < |all| && Writes(all[y], loc) ensures GuardedBefore(all, i, y) {
        if y < |log| {
          assert GuardedBefore(log, i, y);
          var w: nat :| w < y && IsGuard(log, i, w);
          assert IsGuard(all, i, w);
        }
      }
    }
  }

  lemma GuardExtends(log: Log, more: Log, i: nat)
    requires GuardedBefore(log, i, |log|)
    ensures forall y: nat :: y >= |log| ==> GuardedBefore(log + more, i, y)
  {
    var w: nat :| w < |log| && IsGuard(log, i, w);
    assert IsGuard(log + more, i, w);
  }

  /** Appending commands that write no buffer of a slot or the pool keeps what the host relies on. */
  lemma ConsistentExtends(cfg: Config, h: Host, more: Log)
    requires Consistent(cfg, h)
    requires forall k, loc :: 0 <= k < |more| ==> !Writes(more[k], loc)
    requires forall w: nat :: |h.log| <= w < |h.log + more| && (h.log + more)[w].Wait? ==> Binds(h.log + more, w)
    ensures Consistent(cfg, h.(log := h.log + more))
  {
    var h' := h.(log := h.log + more);
    forall j: nat | j < |h'.slots| ensures SlotOk(cfg, h', j) {
      assert SlotOk(cfg, h, j);
      if h.slots[j].occupant.Some? {
        ContentPrefix(h.log, more, h.slots[j].ready, Ring(j));
      }
    }
    forall id | id in cfg.resident ensures PoolOk(cfg, h', id) {
      assert PoolOk(cfg, h, id);
      ContentPrefix(h.log, more, cfg.start, Pool(id));
    }
    forall w: nat | w < |h'.log| && h'.log[w].Wait? ensures Binds(h'.log, w) {
      if w < |h.log| {
        assert Binds(h.log, w);
      }
    }
    forall w: nat | w < cfg.start ensures !Binds(h'.log, w) {
      assert !Binds(h.log, w);
    }
  }

  lemma CoverExtends(h: Host, h': Host, more: Log, j: nat)
    requires j < |h.slots| && SlotCovered(h, j)
    requires j < |h'.slots| && h'.slots[j].free == h.slots[j].free && h'.log == h.log + more
    requires forall i: nat :: KernelOn(h'.log, i, Ring(j)) ==> i < |h.log|
    ensures SlotCovered(h', j)
  {
    forall i: nat | KernelOn(h'.log, i, Ring(j))
      ensures GuardedBefore(h'.log, i, |h'.log|) || (h.slots[j].free.Some? && i + 1 < h.slots[j].free.value)
    {
      assert KernelOn(h.log, i, Ring(j));
      if GuardedBefore(h.log, i, |h.log|) {
        GuardExtends(h.log, more, i);
      }
    }
  }

  lemma LentExtends(cfg: Config, s: Session, s': Session, more: Log, id: Id)
    requires id in s.lent && LentOk(cfg, s, id)
    requires id in s'.lent && s'.lent[id] == s.lent[id] && s'.host.log == s.host.log + more
    requires s.lent[id].Ring? ==>
      && s.lent[id].slot < |s'.host.slots|
      && s'.host.slots[s.lent[id].slot].occupant == s.host.slots[s.lent[id].slot].occupant
      && s'.host.slots[s.lent[id].slot].ready == s.host.slots[s.lent[id].slot].ready
    ensures LentOk(cfg, s', id)
  {
    if s.lent[id].Ring? {
      var log' := s.host.log + more;
      var w: nat :| Binds(s.host.log, w) && s.host.log[w] == Wait(Compute, s.host.slots[s.lent[id].slot].ready);
      assert Binds(log', w) && log'[w] == s.host.log[w];
    }
  }

  /** Waits and records keep the session invariant. */
  lemma AppendKeeps(cfg: Config, s: Session, more: Log)
    requires Inv(cfg, s)
    requires forall k :: 0 <= k < |more| ==> more[k].Wait? || more[k].Record?
    requires forall w: nat :: |s.host.log| <= w < |s.host.log + more| && (s.host.log + more)[w].Wait? ==>
      Binds(s.host.log + more, w)
    ensures Inv(cfg, s.(host := s.host.(log := s.host.log + more)))
  {
    var s' := s.(host := s.host.(log := s.host.log + more));
    ConsistentExtends(cfg, s.host, more);
    ProtectedExtends(s.host.log, more, cfg.start);
    forall id | id in s'.lent ensures LentOk(cfg, s', id) {
      LentExtends(cfg, s, s', more, id);
    }
    forall j: nat | j < |s'.host.slots| && Ring(j) !in s'.lent.Values ensures SlotCovered(s'.host, j) {
      CoverExtends(s.host, s'.host, more, j);
    }
  }

  // --------------------------------------------------------------- transfers

  /** The host after the transfer stream was told to wait for the slot's free event. */
  function AwaitFree(h: Host): Host
    requires WellFormed(h)
  {
    h.(log := h.log + FreeWait(h.slots[h.next]))
  }

  lemma AwaitFreeBinds(cfg: Config, h: Host)
    requires Consistent(cfg, h)
    ensures forall w: nat :: |h.log| <= w < |AwaitFree(h).log| ==> Binds(AwaitFree(h).log, w)
  {
    assert SlotOk(cfg, h, h.next);
  }

  lemma FetchSplits(cfg: Config, h: Host, id: Id)
    requires WellFormed(h) && id in cfg.bytes
    ensures Fetch(cfg, h, id).0.log == AwaitFree(h).log + CopyCommands(h.next, id)
  {
  }

  lemma FetchConsistent(cfg: Config, h: Host, id: Id)
    requires Consistent(cfg, h) && Missing(cfg, h, id) && id in cfg.bytes
    ensures Consistent(cfg, Fetch(cfg, h, id).0)
  {
    AwaitFreeBinds(cfg, h);
    var h1 := AwaitFree(h);
    ConsistentExtends(cfg, h, FreeWait(h.slots[h.next]));
    var h2 := Fetch(cfg, h, id).0;
    var more := CopyCommands(h.next, id);
    assert h2.log == h1.log + more;
    forall j: nat | j < |h2.slots| ensures SlotOk(cfg, h2, j) {
      if j != h.next {
        assert SlotOk(cfg, h1, j);
        if h1.slots[j].occupant.Some? {
          ContentPrefix(h1.log, more, h1.slots[j].ready, Ring(j));
        }
      }
    }
    forall b | b in cfg.resident ensures PoolOk(cfg, h2, b) {
      assert PoolOk(cfg, h1, b);
      ContentPrefix(h1.log, more, cfg.start, Pool(b));
    }
    forall w: nat | w < |h2.log| && h2.log[w].Wait? ensures Binds(h2.log, w) {
      assert w < |h1.log| && Binds(h1.log, w);
    }
    forall w: nat | w < cfg.start ensures !Binds(h2.log, w) {
      assert !Binds(h1.log, w);
    }
  }

  /** Once the free event is awaited, every kernel issued on the slot is guarded. */
  lemma AwaitFreeGuards(cfg: Config, h: Host)
    requires Consistent(cfg, h) && SlotCovered(h, h.next)
    ensures forall i: nat :: KernelOn(AwaitFree(h).log, i, Ring(h.next)) ==>
      GuardedBefore(AwaitFree(h).log, i, |AwaitFree(h).log|)
  {
    var more := FreeWait(h.slots[h.next]);
    var log' := h.log + more;
    forall i: nat | KernelOn(log', i, Ring(h.next)) ensures GuardedBefore(log', i, |log'|) {
      assert KernelOn(h.log, i, Ring(h.next));
      if GuardedBefore(h.log, i, |h.log|) {
        GuardExtends(h.log, more, i);
      } else {
        AwaitFreeBinds(cfg, h);
        assert SlotOk(cfg, h, h.next);
        assert IsGuard(log', i, |h.log|);
      }
    }
  }

  lemma FetchKeeps(cfg: Config, s: Session, id: Id)
    requires Inv(cfg, s) && Missing(cfg, s.host, id) && id in cfg.bytes
    requires Ring(s.host.next) !in s.lent.Values
    ensures Inv(cfg, s.(host := Fetch(cfg, s.host, id).0))
  {
    var h := s.host;
    FetchConsistent(cfg, h, id);
    AwaitFreeBinds(cfg, h);
    AwaitFreeGuards(cfg, h);
    var h1 := AwaitFree(h);
    AppendKeeps(cfg, s, FreeWait(h.slots[h.next]));
    var s1 := s.(host := h1);
    var s2 := s.(host := Fetch(cfg, h, id).0);
    var more := CopyCommands(h.next, id);
    forall i: nat, y: nat
      | i < |h1.log| <= y < |h1.log + more| && h1.log[i].KernelBegin? && Writes((h1.log + more)[y], h1.log[i].loc)
      ensures GuardedBefore(h1.log + more, i, y)
    {
      assert KernelOn(h1.log, i, Ring(h.next));
      GuardExtends(h1.log, more, i);
    }
    ProtectedExtends(h1.log, more, cfg.start);
    forall b | b in s2.lent ensures LentOk(cfg, s2, b) {
      assert s.lent[b] in s.lent.Values;
      LentExtends(cfg, s1, s2, more, b);
    }
    forall j: nat | j < |s2.host.slots| && Ring(j) !in s2.lent.Values ensures SlotCovered(s2.host, j) {
      if j == h.next {
        forall i: nat | KernelOn(s2.host.log, i, Ring(j)) ensures GuardedBefore(s2.host.log, i, |s2.host.log|) {
          assert KernelOn(h1.log, i, Ring(j));
          GuardExtends(h1.log, more, i);
        }
      } else {
        CoverExtends(h1, s2.host, more, j);
      }
    }
  }

  lemma IssueKeeps(cfg: Config, s: Session, id: Id)
    requires Inv(cfg, s)
    requires Missing(cfg, s.host, id) && id in cfg.bytes ==> Ring(s.host.next) !in s.lent.Values
    ensures Inv(cfg, s.(host := Issue(cfg, s.host, id).0))
  {
    if Missing(cfg, s.host, id) && id in cfg.bytes {
      FetchKeeps(cfg, s, id);
    } else {
      var s' := s.(host := Issue(cfg, s.host, id).0);
      assert s'.host.log == s.host.log && s'.host.slots == s.host.slots;
      forall j: nat | j < |s.host.slots| ensures SlotOk(cfg, s'.host, j) {
        assert SlotOk(cfg, s.host, j);
      }
      forall b | b in cfg.resident ensures PoolOk(cfg, s'.host, b) {
        assert PoolOk(cfg, s.host, b);
      }
      forall b | b in s.lent ensures LentOk(cfg, s', b) {
        assert LentOk(cfg, s, b);
      }
      forall j: nat | j < |s.host.slots| && Ring(j) !in s.lent.Values ensures SlotCovered(s'.host, j) {
        assert SlotCovered(s.host, j);
      }
    }
  }

  // ------------------------------------------------------------- other calls

  /** Where a successful issue puts the block. */
  lemma IssuePlaces(cfg: Config, h: Host, id: Id)
    requires WellFormed(h)
    requires Issue(cfg, h, id).1.Ok?
    ensures var (h', r) := Issue(cfg, h, id);
      match r.value.loc
      case Ring(j) =>
        && j < |h'.slots| && id !in cfg.resident
        && h'.slots[j].occupant == Some(id) && h'.slots[j].ready == r.value.ready
      case Pool(b) => b == id && id in cfg.resident && r.value.ready == cfg.resident[id]
      case Shared => false
  {
  }

  /** Handing out a buffer whose fill the compute stream already waits for. */
  lemma LendKeeps(cfg: Config, s: Session, id: Id, loc: Loc)
    requires Inv(cfg, s)
    requires LentOk(cfg, s.(lent := s.lent[id := loc]), id)
    ensures Inv(cfg, s.(lent := s.lent[id := loc]))
  {
    var s' := s.(lent := s.lent[id := loc]);
    forall b | b in s'.lent ensures LentOk(cfg, s', b) {
      if b != id {
        assert LentOk(cfg, s, b);
      }
    }
    if id in s.lent && s.lent[id].Ring? {
      assert LentOk(cfg, s, id) && SlotOk(cfg, s.host, s.lent[id].slot);
    }
    if loc.Ring? {
      assert SlotOk(cfg, s.host, loc.slot);
    }
    forall v | v in s.lent.Values ensures v in s'.lent.Values {
      var b :| b in s.lent && s.lent[b] == v;
      if b == id {
        assert LentOk(cfg, s, id) && LentOk(cfg, s', id);
        assert loc == v;
      }
      assert b in s'.lent && s'.lent[b] == v;
    }
  }

  lemma GetKeeps(cfg: Config, s: Session, id: Id)
    requires Inv(cfg, s) && CallOk(cfg, s, GetCall(id))
    ensures Inv(cfg, Apply(cfg, s, GetCall(id)))
  {
    IssueKeeps(cfg, s, id);
    var (h1, r) := Issue(cfg, s.host, id);
    if r.Ok? {
      IssuePlaces(cfg, s.host, id);
      var more := [Wait(Compute, r.value.ready)];
      var s2 := s.(host := h1.(log := h1.log + more));
      if r.value.loc.Ring? {
        assert SlotOk(cfg, h1, r.value.loc.slot);
      } else {
        assert PoolOk(cfg, h1, id);
      }
      assert Binds(s2.host.log, |h1.log|) && s2.host.log[|h1.log|] == more[0];
      AppendKeeps(cfg, s.(host := h1), more);
      LendKeeps(cfg, s2, id, r.value.loc);
    }
  }

  lemma LaunchKeeps(cfg: Config, s: Session, id: Id)
    requires Inv(cfg, s)
    ensures Inv(cfg, Apply(cfg, s, LaunchCall(id)))
  {
    if id in s.lent {
      var loc := s.lent[id];
      var log := s.host.log;
      var more := LaunchCommands(loc, id);
      var s' := Apply(cfg, s, LaunchCall(id));
      assert LentOk(cfg, s, id);
      ConsistentExtends(cfg, s.host, more);
      if loc.Ring? {
        assert SlotOk(cfg, s.host, loc.slot);
        var ready := s.host.slots[loc.slot].ready;
        var w: nat :| Binds(log, w) && log[w] == Wait(Compute, ready);
        ContentPrefix(log, more, ready, loc);
        assert IsFeed(log + more, |log|, loc, id, w);
      } else {
        assert PoolOk(cfg, s.host, id);
        ContentPrefix(log, more, cfg.start, loc);
        assert Preloaded(log + more, cfg.start, |log|, loc, id);
      }
      assert KernelProtected(log + more, cfg.start, |log|);
      ProtectedExtends(log, more, cfg.start);
      forall b | b in s'.lent ensures LentOk(cfg, s', b) {
        LentExtends(cfg, s, s', more, b);
      }
      assert loc in s.lent.Values;
      forall j: nat | j < |s'.host.slots| && Ring(j) !in s'.lent.Values ensures SlotCovered(s'.host, j) {
        CoverExtends(s.host, s'.host, more, j);
      }
    }
  }

  /** Taking a block back: its slot's kernels all precede the event just recorded. */
  lemma ReturnKeeps(cfg: Config, s: Session, id: Id)
    requires Inv(cfg, s)
    requires id in s.lent && s.lent[id].Ring? ==>
      s.lent[id].slot < |s.host.slots| && SlotCovered(s.host, s.lent[id].slot)
    ensures Inv(cfg, s.(lent := s.lent - {id}))
  {
    var s' := s.(lent := s.lent - {id});
    forall b | b in s'.lent ensures LentOk(cfg, s', b) {
      assert LentOk(cfg, s, b);
    }
    forall j: nat | j < |s.host.slots| && Ring(j) !in s'.lent.Values ensures SlotCovered(s.host, j) {
      if Ring(j) in s.lent.Values {
        var b :| b in s.lent && s.lent[b] == Ring(j);
        assert b == id || b in s'.lent;
      }
    }
  }

  lemma RecordFreeKeeps(cfg: Config, s: Session, j: nat)
    requires Inv(cfg, s) && j < |s.host.slots|
    ensures var h := s.host;
      var h' := h.(slots := h.slots[j := h.slots[j].(free := Some(|h.log|))], log := h.log + [Record(Compute)]);
      Inv(cfg, s.(host := h')) && SlotCovered(h', j)
  {
    var h := s.host;
    var more := [Record(Compute)];
    var s1 := s.(host := h.(log := h.log + more));
    AppendKeeps(cfg, s, more);
    var h' := s1.host.(slots := h.slots[j := h.slots[j].(free := Some(|h.log|))]);
    var s' := s.(host := h');
    forall k: nat | k < |h'.slots| ensures SlotOk(cfg, h', k) {
      assert SlotOk(cfg, s1.host, k);
    }
    forall b | b in cfg.resident ensures PoolOk(cfg, h', b) {
      assert PoolOk(cfg, s1.host, b);
    }
    forall b | b in s'.lent ensures LentOk(cfg, s', b) {
      LentExtends(cfg, s1, s', [], b);
    }
    forall i: nat | KernelOn(h'.log, i, Ring(j)) ensures i + 1 < |h.log| {
      assert KernelProtected(h.log, cfg.start, i);
    }
    forall k: nat | k < |h'.slots| && Ring(k) !in s'.lent.Values ensures SlotCovered(h', k) {
      if k != j {
        CoverExtends(s1.host, h', [], k);
      }
    }
  }

  lemma DoneKeeps(cfg: Config, s: Session, id: Id)
    requires Inv(cfg, s)
    ensures Inv(cfg, Apply(cfg, s, DoneCall(id)))
  {
    if id in s.lent {
      assert LentOk(cfg, s, id);
      if s.lent[id].Ring? {
        assert SlotOk(cfg, s.host, s.lent[id].slot);
      }
    }
    var held := SlotHolding(s.host.slots, id);
    if id !in cfg.resident && held.Some? {
      RecordFreeKeeps(cfg, s, held.value);
      ReturnKeeps(cfg, s.(host := Done(cfg, s.host, id)), id);
    } else {
      ReturnKeeps(cfg, s, id);
    }
  }

  lemma ApplyKeeps(cfg: Config, s: Session, call: Call)
    requires Inv(cfg, s) && CallOk(cfg, s, call)
    ensures Inv(cfg, Apply(cfg, s, call))
  {
    match call
    case PrefetchCall(id) => IssueKeeps(cfg, s, id);
    case GetCall(id) => GetKeeps(cfg, s, id);
    case LaunchCall(id) => LaunchKeeps(cfg, s, id);
    case DoneCall(id) => DoneKeeps(cfg, s, id);
  }

  lemma {:induction false} RunKeeps(cfg: Config, s: Session, calls: seq<Call>)
    requires Inv(cfg, s) && Disciplined(cfg, s, calls)
    ensures Inv(cfg, Run(cfg, s, calls))
    decreases |calls|
  {
    if calls != [] {
      RunKeeps(cfg, s, calls[..|calls| - 1]);
      ApplyKeeps(cfg, Run(cfg, s, calls[..|calls| - 1]), calls[|calls| - 1]);
    }
  }
}
