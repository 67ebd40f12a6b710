/** `attach_engine` as it runs: the guard, the hooks, and whole forward passes
    driving the engine object. */
module Client {
  import opened Common
  import opened Device
  import opened Engine
  import opened Protocol
  import opened Plan
  import opened Schedule
  import opened Attach
  import opened Counts
  import opened Rehearsal

  datatype AttachError = PrefetchTooSmall | RingTooSmall | NoBlocks

  /** A transformer whose blocks are served by an engine.  `views` is where each
      block's tensors were last assigned; `session` follows what is outstanding. */
  class Transformer {
    const engine: RustEngine
    const ahead: nat
    var views: map<Id, Loc>
    ghost var session: Session

    ghost predicate Valid()
      reads this, engine
    {
      && engine.Valid() && engine.Model() == session.host
      && (forall id :: id in engine.cfg.order ==> id in engine.cfg.bytes)
      && (forall id :: id in session.lent ==> id in views && views[id] == session.lent[id])
    }

    constructor (engine: RustEngine, ahead: nat)
      requires engine.Valid() && forall id :: id in engine.cfg.order ==> id in engine.cfg.bytes
      ensures Valid() && this.engine == engine && this.ahead == ahead
      ensures session == Session(engine.Model(), map[])
    {
      this.engine := engine;
      this.ahead := ahead;
      views := map[];
      session := Session(engine.Model(), map[]);
    }

    method Prefetch(pos: nat)
      requires Valid() && pos < |engine.cfg.order|
      modifies this, engine
      ensures Valid() && session == Apply(engine.cfg, old(session), PrefetchCall(engine.cfg.order[pos]))
      ensures forall k :: |old(engine.issued)| <= k < |engine.issued| ==> StreamOf(engine.issued[k]) == Transfer
    {
      var id := engine.cfg.order[pos];
      var _ := engine.Prefetch(id);
      session := Apply(engine.cfg, session, PrefetchCall(id));
    }

    method PreHook(pos: nat)
      requires Valid() && pos < |engine.cfg.order|
      modifies this, engine
      ensures Valid()
      ensures session == Run(engine.cfg, old(session),
        [GetCall(engine.cfg.order[pos])] + PrefetchCalls(engine.cfg, ahead, pos))
      ensures engine.cfg.order[pos] in session.lent
    {
      var id := engine.cfg.order[pos];
      ghost var s0 := session;
      var r := engine.GetBlock(id);
      session := Apply(engine.cfg, session, GetCall(id));
      views := views[id := r.value.loc];
      ghost var s1 := session;
      RunOne(engine.cfg, s0, GetCall(id));
      RunConcat(engine.cfg, s0, [GetCall(id)], PrefetchCalls(engine.cfg, ahead, pos));
      if pos + ahead < |engine.cfg.order| {
        RunOne(engine.cfg, s1, PrefetchCall(engine.cfg.order[pos + ahead]));
        Prefetch(pos + ahead);
      }
    }

    /** The block's kernels, queued on the compute stream. */
    method Forward(pos: nat)
      requires Valid() && pos < |engine.cfg.order| && engine.cfg.order[pos] in session.lent
      modifies this, engine
      ensures Valid() && session == Apply(engine.cfg, old(session), LaunchCall(engine.cfg.order[pos]))
    {
      var id := engine.cfg.order[pos];
      engine.issued := engine.issued + LaunchCommands(views[id], id);
      session := Apply(engine.cfg, session, LaunchCall(id));
    }

    method PostHook(pos: nat)
      requires Valid() && pos < |engine.cfg.order|
      modifies this, engine
      ensures Valid() && session == Apply(engine.cfg, old(session), DoneCall(engine.cfg.order[pos]))
    {
      var id := engine.cfg.order[pos];
      engine.MarkBlockDone(id);
      session := Apply(engine.cfg, session, DoneCall(id));
    }

    method RunBlock(pos: nat)
      requires Valid() && pos < |engine.cfg.order|
      modifies this, engine
      ensures Valid() && session == Run(engine.cfg, old(session), PositionCalls(engine.cfg, ahead, pos))
    {
      var id := engine.cfg.order[pos];
      ghost var s0 := session;
      ghost var pre, post := [GetCall(id)] + PrefetchCalls(engine.cfg, ahead, pos), [LaunchCall(id), DoneCall(id)];
      PreHook(pos);
      ghost var s1 := session;
      Forward(pos);
      PostHook(pos);
      Safety.RunTwo(engine.cfg, s1, LaunchCall(id), DoneCall(id));
      RunConcat(engine.cfg, s0, pre, post);
      assert PositionCalls(engine.cfg, ahead, pos) == pre + post;
    }

    method ForwardPass()
      requires Valid()
      modifies this, engine
      ensures Valid()
      ensures session == Run(engine.cfg, old(session), PassCalls(engine.cfg, ahead, |engine.cfg.order|))
    {
      ghost var s0 := session;
      for pos := 0 to |engine.cfg.order|
        invariant Valid()
        invariant session == Run(engine.cfg, s0, PassCalls(engine.cfg, ahead, pos))
      {
        RunConcat(engine.cfg, s0, PassCalls(engine.cfg, ahead, pos), PositionCalls(engine.cfg, ahead, pos));
        RunBlock(pos);
      }
    }
  }

  /** `steps` forward passes after attaching. */
  method Denoise(transformer: Transformer, ghost s0: Session, steps: nat)
    requires transformer.Valid() && transformer.engine.cfg.order != [] && WellFormed(s0.host)
    requires transformer.session == Run(transformer.engine.cfg, s0,
      AttachCalls(transformer.engine.cfg, transformer.ahead, 0))
    modifies transformer, transformer.engine
    ensures transformer.Valid()
    ensures transformer.session == Run(transformer.engine.cfg, s0,
      AttachCalls(transformer.engine.cfg, transformer.ahead, steps))
  {
    ghost var cfg, ahead := transformer.engine.cfg, transformer.ahead;
    for k := 0 to steps
      invariant transformer.Valid()
      invariant transformer.session == Run(cfg, s0, AttachCalls(cfg, ahead, k))
    {
      RunConcat(cfg, s0, AttachCalls(cfg, ahead, k), PassCalls(cfg, ahead, |cfg.order|));
      transformer.ForwardPass();
    }
  }

  /** The checks and the initial prefetch. */
  method AttachEngine(engine: RustEngine, prefetchAhead: int) returns (r: Result<Transformer, AttachError>)
    requires engine.Valid() && forall id :: id in engine.cfg.order ==> id in engine.cfg.bytes
    modifies engine
    ensures engine.Valid()
    ensures r == Err(PrefetchTooSmall) <==> prefetchAhead < 1
    ensures r == Err(RingTooSmall) <==> 1 <= prefetchAhead && |old(engine.Model()).slots| <= prefetchAhead
    ensures r == Err(NoBlocks) <==> 1 <= prefetchAhead < |old(engine.Model()).slots| && engine.cfg.order == []
    ensures r.Ok? <==> 1 <= prefetchAhead < |old(engine.Model()).slots| && engine.cfg.order != []
    ensures r.Err? ==> engine.Model() == old(engine.Model())
    ensures r.Ok? ==>
      && fresh(r.value) && r.value.engine == engine && r.value.ahead == prefetchAhead && r.value.Valid()
      && r.value.session ==
        Run(engine.cfg, Session(old(engine.Model()), map[]), AttachCalls(engine.cfg, prefetchAhead, 0))
  {
    if prefetchAhead < 1 {
      return Err(PrefetchTooSmall);
    }
    if |engine.slots| <= prefetchAhead {
      return Err(RingTooSmall);
    }
    if engine.cfg.order == [] {
      return Err(NoBlocks);
    }
    var transformer := new Transformer(engine, prefetchAhead);
    RunOne(engine.cfg, transformer.session, PrefetchCall(engine.cfg.order[0]));
    transformer.Prefetch(0);
    return Ok(transformer);
  }

  /** Build, attach, run `steps` passes.  With a ring twice as deep as the
      prefetch distance, or a short enough model, the commands issued are safe
      under every interleaving, and the transfer counter is exact. */
  method Generate(engine: RustEngine, ghost hasShared: bool, ghost residentIds: seq<Id>, prefetchAhead: nat, steps: nat)
    requires engine.Valid() && EngineConfig(engine.cfg, hasShared, residentIds)
    requires engine.Model() == Boot(hasShared, residentIds, engine.cfg.slotCount)
    requires Guarded(engine.cfg, prefetchAhead)
    modifies engine
    ensures engine.Valid()
    ensures engine.Model() ==
      Run(engine.cfg, Opened(hasShared, residentIds, engine.cfg.slotCount),
        AttachCalls(engine.cfg, prefetchAhead, steps)).host
    ensures AlwaysSafe(engine.issued, engine.cfg.start) <==> Rehearsed(engine.cfg, prefetchAhead, steps)
    ensures Covered(engine.cfg, prefetchAhead) ==> AlwaysSafe(engine.issued, engine.cfg.start)
    ensures steps >= 1 && 2 * prefetchAhead <= engine.cfg.slotCount < StreamCount(engine.cfg) ==>
      engine.stats.transferCount == steps * StreamCount(engine.cfg)
  {
    ghost var s0 := Opened(hasShared, residentIds, engine.cfg.slotCount);
    var r := AttachEngine(engine, prefetchAhead);
    Denoise(r.value, s0, steps);
    RehearsalIsExact(engine.cfg, prefetchAhead, hasShared, residentIds, steps);
    if Covered(engine.cfg, prefetchAhead) {
      CoveredIsRehearsed(engine.cfg, prefetchAhead, hasShared, residentIds, steps);
      if steps >= 1 {
        TransferCounts(engine.cfg, prefetchAhead, hasShared, residentIds, steps);
      }
    }
  }
}
