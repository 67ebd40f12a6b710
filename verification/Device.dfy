/** The CUDA side of the engine: two in-order streams that run asynchronously
    and are ordered only by events.

    The host appends commands to one issue log.  A stream's queue is the
    subsequence of the log addressed to it, so each stream is a cursor that
    walks the log, skips the other stream's commands and executes its own, in
    order.  An event is named by the log index of the command that records it:
    the engine makes a fresh event for every record.  Copies, memsets and
    kernels are split into a begin and an end so that overlap is visible. */
module Device {

  type Id = string

  datatype Stream = Transfer | Compute

  /** A device buffer: a ring slot, a resident block's buffer, or the shared buffer. */
  datatype Loc = Ring(slot: nat) | Pool(id: Id) | Shared

  datatype Content = Undefined | Zeroed | Holds(id: Id)

  datatype Command =
    | Wait(on: Stream, event: nat)
    | Record(on: Stream)
    | ZeroBegin(loc: Loc)
    | ZeroEnd(loc: Loc)
    | CopyBegin(loc: Loc, id: Id)
    | CopyEnd(loc: Loc, id: Id)
    | KernelBegin(loc: Loc, id: Id)
    | KernelEnd(loc: Loc, id: Id)

  type Log = seq<Command>

  datatype Cursors = Cursors(transfer: nat, compute: nat)

  function StreamOf(cmd: Command): Stream {
    match cmd
    case Wait(on, _) => on
    case Record(on) => on
    case KernelBegin(_, _) => Compute
    case KernelEnd(_, _) => Compute
    case _ => Transfer
  }

  function At(s: Cursors, stream: Stream): nat {
    if stream == Transfer then s.transfer else s.compute
  }

  function Advance(s: Cursors, stream: Stream): Cursors {
    if stream == Transfer then s.(transfer := s.transfer + 1) else s.(compute := s.compute + 1)
  }

  predicate Writes(cmd: Command, loc: Loc) {
    match cmd
    case ZeroBegin(l) => l == loc
    case ZeroEnd(l) => l == loc
    case CopyBegin(l, _) => l == loc
    case CopyEnd(l, _) => l == loc
    case _ => false
  }

  /** A wait binds to the record issued before it; waiting on an event that was
      not yet recorded when the wait was issued is a no-op, as in CUDA. */
  predicate Binds(log: Log, w: nat) {
    && w < |log| && log[w].Wait?
    && log[w].event < w && log[log[w].event].Record?
  }

  predicate Enabled(log: Log, stream: Stream, s: Cursors) {
    var p := At(s, stream);
    && p < |log|
    && (StreamOf(log[p]) == stream && Binds(log, p) ==>
          log[p].event < At(s, StreamOf(log[log[p].event])))
  }

  /** Either stream executes (or skips) the command under its cursor. */
  ghost predicate CanStep(log: Log, s: Cursors) {
    exists stream :: Enabled(log, stream, s)
  }

  ghost predicate Step(log: Log, s: Cursors, s': Cursors) {
    exists stream :: Enabled(log, stream, s) && s' == Advance(s, stream)
  }

  ghost predicate Execution(log: Log, start: nat, run: seq<Cursors>) {
    && |run| > 0
    && run[0] == Cursors(start, start)
    && forall k :: 0 <= k < |run| - 1 ==> Step(log, run[k], run[k + 1])
  }

  /** What buffer `loc` contains once the transfer stream has executed the log below `t`. */
  ghost function ContentAt(log: Log, t: nat, loc: Loc): Content
    requires t <= |log|
  {
    if t == 0 then Undefined
    else
      match log[t - 1]
      case CopyBegin(l, _) => if l == loc then Undefined else ContentAt(log, t - 1, loc)
      case ZeroBegin(l) => if l == loc then Undefined else ContentAt(log, t - 1, loc)
      case ZeroEnd(l) => if l == loc then Zeroed else ContentAt(log, t - 1, loc)
      case CopyEnd(l, id) => if l == loc then Holds(id) else ContentAt(log, t - 1, loc)
      case _ => ContentAt(log, t - 1, loc)
  }

  /** A copy or memset into `loc` has begun and not ended. */
  ghost predicate WriteInFlight(log: Log, t: nat, loc: Loc)
    requires t <= |log|
  {
    t > 0 &&
    match log[t - 1]
    case CopyBegin(l, _) => l == loc || WriteInFlight(log, t - 1, loc)
    case ZeroBegin(l) => l == loc || WriteInFlight(log, t - 1, loc)
    case CopyEnd(l, _) => l != loc && WriteInFlight(log, t - 1, loc)
    case ZeroEnd(l) => l != loc && WriteInFlight(log, t - 1, loc)
    case _ => WriteInFlight(log, t - 1, loc)
  }

  /** A kernel reading block `id` from `loc` has begun and not ended. */
  ghost predicate KernelInFlight(log: Log, c: nat, loc: Loc, id: Id)
    requires c <= |log|
  {
    c > 0 &&
    match log[c - 1]
    case KernelBegin(l, b) => (l == loc && b == id) || KernelInFlight(log, c - 1, loc, id)
    case KernelEnd(l, b) => !(l == loc && b == id) && KernelInFlight(log, c - 1, loc, id)
    case _ => KernelInFlight(log, c - 1, loc, id)
  }

  ghost predicate InRange(log: Log, s: Cursors) {
    s.transfer <= |log| && s.compute <= |log|
  }

  /** No write touches a buffer while a kernel reads it, and every running
      kernel for a block finds that block's bytes. */
  ghost predicate Safe(log: Log, s: Cursors)
    requires InRange(log, s)
  {
    forall loc, id :: KernelInFlight(log, s.compute, loc, id) ==>
      && !WriteInFlight(log, s.transfer, loc)
      && ContentAt(log, s.transfer, loc) == Holds(id)
  }

  ghost predicate AlwaysSafe(log: Log, start: nat) {
    forall run :: Execution(log, start, run) ==>
      forall k :: 0 <= k < |run| ==> InRange(log, run[k]) && Safe(log, run[k])
  }

  // ---------------------------------------------------------------- protection

  ghost predicate Quiet(log: Log, loc: Loc, lo: nat, hi: nat) {
    forall y :: lo <= y < hi && y < |log| ==> !Writes(log[y], loc)
  }

  /** `w` makes the transfer stream wait for a compute-stream event recorded after command `i + 1`. */
  predicate IsGuard(log: Log, i: nat, w: nat) {
    && Binds(log, w) && log[w].on == Transfer
    && log[log[w].event] == Record(Compute) && i + 1 < log[w].event
  }

  /** `w` makes the compute stream wait for an event recorded once `loc` holds
      `id`, and nothing issued between that event and command `i` writes `loc`. */
  ghost predicate IsFeed(log: Log, i: nat, loc: Loc, id: Id, w: nat) {
    && w < i <= |log| && Binds(log, w) && log[w].on == Compute
    && log[log[w].event] == Record(Transfer)
    && ContentAt(log, log[w].event, loc) == Holds(id)
    && Quiet(log, loc, log[w].event, i)
  }

  /** `loc` was filled with `id` before the run started and not written since. */
  ghost predicate Preloaded(log: Log, start: nat, i: nat, loc: Loc, id: Id) {
    start <= i <= |log| && ContentAt(log, start, loc) == Holds(id) && Quiet(log, loc, start, i)
  }

  ghost predicate Fed(log: Log, start: nat, i: nat, loc: Loc, id: Id) {
    Preloaded(log, start, i, loc, id) || exists w: nat :: IsFeed(log, i, loc, id, w)
  }

  ghost predicate GuardedBefore(log: Log, i: nat, y: nat) {
    exists w: nat :: w < y && IsGuard(log, i, w)
  }

  ghost predicate KernelProtected(log: Log, start: nat, i: nat)
    requires i < |log| && log[i].KernelBegin?
  {
    && i + 1 < |log| && log[i + 1] == KernelEnd(log[i].loc, log[i].id)
    && Fed(log, start, i, log[i].loc, log[i].id)
    && forall y :: i < y < |log| && Writes(log[y], log[i].loc) ==> GuardedBefore(log, i, y)
  }

  /** The static shape of an issue log that makes every interleaving safe. */
  ghost predicate Protected(log: Log, start: nat) {
    forall i :: 0 <= i < |log| && log[i].KernelBegin? ==> KernelProtected(log, start, i)
  }

  // --------------------------------------------------------------- safety

  /** Every binding wait below a stream's cursor has seen its record executed. */
  ghost predicate Honoured(log: Log, s: Cursors) {
    forall w: nat :: Binds(log, w) && w < At(s, log[w].on) ==>
      log[w].event < At(s, log[log[w].event].on)
  }

  lemma {:induction false} ExecutionInvariant(log: Log, start: nat, run: seq<Cursors>, k: nat)
    requires start <= |log| && Execution(log, start, run) && k < |run|
    requires forall w: nat :: w < start ==> !Binds(log, w)
    ensures InRange(log, run[k]) && Honoured(log, run[k])
    ensures start <= run[k].transfer && start <= run[k].compute
  {
    if k > 0 {
      ExecutionInvariant(log, start, run, k - 1);
      assert Step(log, run[k - 1], run[k]);
    }
  }

  lemma {:induction false} QuietContent(log: Log, loc: Loc, lo: nat, hi: nat)
    requires lo <= hi <= |log| && Quiet(log, loc, lo, hi)
    ensures ContentAt(log, hi, loc) == ContentAt(log, lo, loc)
    ensures WriteInFlight(log, hi, loc) == WriteInFlight(log, lo, loc)
    decreases hi
  {
    if lo < hi {
      assert !Writes(log[hi - 1], loc);
      QuietContent(log, loc, lo, hi - 1);
    }
  }

  lemma {:induction false} HoldsIsIdle(log: Log, t: nat, loc: Loc)
    requires t <= |log| && ContentAt(log, t, loc).Holds?
    ensures !WriteInFlight(log, t, loc)
  {
    if t > 0 && !Writes(log[t - 1], loc) {
      HoldsIsIdle(log, t - 1, loc);
    }
  }

  lemma {:induction false} RunningKernel(log: Log, start: nat, c: nat, loc: Loc, id: Id)
    requires c <= |log| && Protected(log, start) && KernelInFlight(log, c, loc, id)
    ensures c > 0 && log[c - 1] == KernelBegin(loc, id)
  {
    if log[c - 1] != KernelBegin(loc, id) {
      RunningKernel(log, start, c - 1, loc, id);
      assert false;
    }
  }

  lemma ProtectedStateIsSafe(log: Log, start: nat, s: Cursors)
    requires InRange(log, s) && Honoured(log, s) && Protected(log, start)
    requires start <= s.transfer
    ensures Safe(log, s)
  {
    forall loc, id | KernelInFlight(log, s.compute, loc, id)
      ensures !WriteInFlight(log, s.transfer, loc) && ContentAt(log, s.transfer, loc) == Holds(id)
    {
      RunningKernel(log, start, s.compute, loc, id);
      var i := s.compute - 1;
      assert KernelProtected(log, start, i);
      forall y | i < y < s.transfer && Writes(log[y], loc) ensures false {
        assert false;
      }
      var r: nat;
      if Preloaded(log, start, i, loc, id) {
        r := start;
      } else {
        var w: nat :| IsFeed(log, i, loc, id, w);
        r := log[w].event;
      }
      assert !Writes(log[i], loc);
      QuietContent(log, loc, r, s.transfer);
      HoldsIsIdle(log, s.transfer, loc);
    }
  }

  /** A protected issue log is safe under every interleaving of the two streams. */
  lemma ProtectedIsAlwaysSafe(log: Log, start: nat)
    requires start <= |log| && Protected(log, start)
    requires forall w: nat :: w < start ==> !Binds(log, w)
    ensures AlwaysSafe(log, start)
  {
    forall run, k | Execution(log, start, run) && 0 <= k < |run|
      ensures InRange(log, run[k]) && Safe(log, run[k])
    {
      ExecutionInvariant(log, start, run, k);
      ProtectedStateIsSafe(log, start, run[k]);
    }
  }

  // ------------------------------------------------- progress and termination

  function Remaining(log: Log, s: Cursors): int {
    2 * |log| - s.transfer - s.compute
  }

  /** No deadlock: until both queues are drained some stream can move.  The
      stream that is behind can only wait for events recorded before its own
      position, which the other stream has already passed. */
  lemma NeverStuck(log: Log, s: Cursors)
    requires InRange(log, s) && s != Cursors(|log|, |log|)
    ensures CanStep(log, s)
  {
    var stream := if s.transfer <= s.compute then Transfer else Compute;
    assert Enabled(log, stream, s);
  }

  /** Every execution terminates: its length is bounded by the commands left,
      and one that cannot be extended has drained both queues. */
  lemma {:induction false} ExecutionsTerminate(log: Log, start: nat, run: seq<Cursors>)
    requires start <= |log| && Execution(log, start, run)
    ensures InRange(log, run[|run| - 1])
    ensures Remaining(log, run[|run| - 1]) == 2 * (|log| - start) - (|run| - 1)
    ensures |run| <= 2 * (|log| - start) + 1
    ensures !CanStep(log, run[|run| - 1]) <==> run[|run| - 1] == Cursors(|log|, |log|)
  {
    var s := run[|run| - 1];
    if |run| > 1 {
      var before := run[..|run| - 1];
      assert Execution(log, start, before);
      ExecutionsTerminate(log, start, before);
      assert Step(log, run[|run| - 2], run[|run| - 1]);
    }
    if s != Cursors(|log|, |log|) {
      NeverStuck(log, s);
    }
  }

  // --------------------------------------------- the host-order interleaving

  /** Executing the commands in issue order is one of the interleavings. */
  lemma {:induction false} IssueOrderReachable(log: Log, start: nat, p: nat) returns (run: seq<Cursors>)
    requires start <= p <= |log|
    ensures Execution(log, start, run) && run[|run| - 1] == Cursors(p, p)
  {
    if p == start {
      run := [Cursors(start, start)];
    } else {
      var before := IssueOrderReachable(log, start, p - 1);
      var q := p - 1;
      var mid := Cursors(p, q);
      assert Enabled(log, Transfer, Cursors(q, q));
      assert Step(log, Cursors(q, q), mid);
      assert Enabled(log, Compute, mid);
      assert Step(log, mid, Cursors(p, p));
      run := before + [mid, Cursors(p, p)];
    }
  }
}
