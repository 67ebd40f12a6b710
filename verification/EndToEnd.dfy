/** Whole runs over a whole checkpoint: what kernels read is what the files hold. */
module EndToEnd {
  import opened Common
  import opened Shards
  import opened Errors
  import opened Device
  import opened Engine
  import opened Protocol
  import opened Safety
  import opened Schedule
  import opened Rehearsal
  import B = Blocks
  import M = Models
  import opened Pinned
  import opened Views

  /** An engine built over a checkpoint: its blocks are pinned, and its
      configuration speaks of exactly them. */
  ghost predicate Serves(m: M.Model, blocks: seq<B.Block>, layout: Layout, cfg: Config, hasShared: bool, ids: seq<Id>) {
    && M.Readable(m) && AllOf(m, blocks) && Pins(m, blocks, layout)
    && EngineConfig(cfg, hasShared, ids)
    && cfg.order == layout.order
    && (forall id :: id in cfg.bytes <==> id in layout.blocks)
    && (forall id :: id in cfg.bytes ==> cfg.bytes[id] == layout.blocks[id].totalBytes)
    && hasShared == (layout.sharedBytes > 0)
  }

  // ------------------------------------------------------ what a read finds

  /** The `len` bytes from `offset` on in a device buffer with this content: a
      block's transfer fills the beginning of its buffer with the block's bytes. */
  ghost function ReadAt(layout: Layout, content: Content, offset: int, len: nat): Option<seq<byte>> {
    match content
    case Holds(id) =>
      if id in layout.blocks && FirstStart(layout.blocks[id]) + layout.blocks[id].totalBytes <= |layout.pinned| &&
        0 <= offset <= offset + len <= layout.blocks[id].totalBytes
      then Some(Sent(layout, id)[offset..offset + len])
      else None
    case _ => None
  }

  /** A view reads the payload that the header of the tensor's own file assigns to
      it, with that header's dtype and shape. */
  ghost predicate ReadsPayload(m: M.Model, files: seq<File>, name: string, view: View, bytes: Option<seq<byte>>) {
    && name in m.tensors && m.tensors[name].shardId < |files|
    && var file := files[m.tensors[name].shardId];
    && HeaderContract(file) && file.header.Some? && name in file.header.value.metadata
    && bytes == Some(Payload(file, name))
    && view.dtype == file.header.value.metadata[name].dtype && view.shape == file.header.value.metadata[name].shape
  }

  ghost predicate ViewReads(m: M.Model, files: seq<File>, layout: Layout, content: Content, slotBase: nat,
                            name: string, view: View)
  {
    && name in m.tensors
    && ReadsPayload(m, files, name, view, ReadAt(layout, content, view.devicePtr - slotBase, m.tensors[name].byteLen))
  }

  /** Reading through the views of a block, in the buffer at `slotBase` with this
      content, finds every tensor's payload. */
  ghost predicate ViewsReadFiles(m: M.Model, files: seq<File>, layout: Layout, content: Content, slotBase: nat,
                                 views: map<string, View>)
  {
    forall name :: name in views ==> ViewReads(m, files, layout, content, slotBase, name, views[name])
  }

  /** `views` is what `BuildTensors` hands out for block `id` in the buffer at `slotBase`. */
  ghost predicate HandedOut(layout: Layout, id: Id, slotBase: nat, views: map<string, View>) {
    id in layout.blocks && ViewsUpTo(layout.blocks[id], |layout.blocks[id].tensors|, slotBase, views)
  }

  lemma ShownIsRead(layout: Layout, id: Id, meta: BlockMeta, i: nat, bytes: seq<byte>)
    requires Shows(layout, id, i, bytes) && meta == layout.blocks[id]
    ensures ReadAt(layout, Holds(id), WithinBlock(meta, i), meta.tensors[i].len) == Some(bytes)
  {
  }

  lemma MetaDescribes(blocks: seq<B.Block>, k: nat, i: nat)
    requires k < |blocks| && i < |blocks[k].tensors|
    ensures var t, d := MetaOf(blocks, k).tensors[i], blocks[k].tensors[i];
      t.len == d.byteLen && t.dtype == d.dtype && t.shape == d.shape
  {
  }

  lemma ViewReadsFile(m: M.Model, files: seq<File>, maxHeaderBytes: nat, blocks: seq<B.Block>, layout: Layout,
                      k: nat, i: nat, slotBase: nat, view: View)
    requires M.Built(m, files, maxHeaderBytes) && M.Readable(m) && AllOf(m, blocks) && Pins(m, blocks, layout)
    requires LastWithId(blocks, |blocks|, k) && i < |blocks[k].tensors|
    requires var meta := MetaOf(blocks, k);
      && view.devicePtr == slotBase + WithinBlock(meta, i)
      && view.dtype == meta.tensors[i].dtype && view.shape == meta.tensors[i].shape
    ensures ViewReads(m, files, layout, Holds(blocks[k].id), slotBase, blocks[k].tensors[i].name, view)
  {
    var d := blocks[k].tensors[i];
    assert blocks[k] in blocks && d in blocks[k].tensors;
    TableEntry(m, blocks, layout, k);
    ViewReadsTensor(m, blocks, layout, k, i);
    ShownIsRead(layout, blocks[k].id, MetaOf(blocks, k), i, M.TensorBytes(m, d.name).value);
    MetaDescribes(blocks, k, i);
    M.TensorBytesArePayload(m, files, maxHeaderBytes, d.name);
  }

  /** A handed-out view is that of one of the block's tensors. */
  lemma HandedOutView(blocks: seq<B.Block>, k: nat, slotBase: nat, views: map<string, View>, name: string)
    returns (i: nat)
    requires k < |blocks| && ViewsUpTo(MetaOf(blocks, k), |MetaOf(blocks, k).tensors|, slotBase, views) && name in views
    ensures i < |blocks[k].tensors| && blocks[k].tensors[i].name == name
    ensures var meta := MetaOf(blocks, k);
      && views[name].devicePtr == slotBase + WithinBlock(meta, i)
      && views[name].dtype == meta.tensors[i].dtype && views[name].shape == meta.tensors[i].shape
  {
    var meta := MetaOf(blocks, k);
    i :| 0 <= i < |meta.tensors| && meta.tensors[i].name == name;
  }

  lemma HandedOutReadsFiles(m: M.Model, files: seq<File>, maxHeaderBytes: nat, blocks: seq<B.Block>, layout: Layout,
                            id: Id, slotBase: nat, views: map<string, View>)
    requires M.Built(m, files, maxHeaderBytes) && M.Readable(m) && AllOf(m, blocks) && Pins(m, blocks, layout)
    requires HandedOut(layout, id, slotBase, views)
    ensures ViewsReadFiles(m, files, layout, Holds(id), slotBase, views)
  {
    assert HasId(blocks, |blocks|, id);
    var k: nat :| LastWithId(blocks, |blocks|, k) && blocks[k].id == id;
    TableEntry(m, blocks, layout, k);
    forall name | name in views ensures ViewReads(m, files, layout, Holds(id), slotBase, name, views[name]) {
      var i := HandedOutView(blocks, k, slotBase, views, name);
      ViewReadsFile(m, files, maxHeaderBytes, blocks, layout, k, i, slotBase, views[name]);
    }
  }

  // ------------------------------------------------------------ handing out

  /** Every tensor of the block has a DLPack dtype. */
  ghost predicate Exportable(meta: BlockMeta) {
    forall i :: 0 <= i < |meta.tensors| ==> Supported(meta.tensors[i].dtype)
  }

  /** `get_block`: the engine's transition, then the views in the block's buffer.
      `base` gives every device buffer its address. */
  method GetBlockTensors(engine: RustEngine, layout: Layout, id: Id, base: Loc -> nat)
    returns (r: Result<map<string, View>, EngineError>)
    requires engine.Valid() && (id in layout.blocks ==> NamesDistinct(layout.blocks[id].tensors))
    modifies engine
    ensures engine.Valid() && engine.Model() == Get(engine.cfg, old(engine.Model()), id).0
    ensures var placed := Get(engine.cfg, old(engine.Model()), id).1;
      && (r.Ok? <==> placed.Ok? && id in layout.blocks && Exportable(layout.blocks[id]))
      && (r.Ok? ==> HandedOut(layout, id, base(placed.value.loc), r.value))
      && (placed.Err? ==> r == Err(placed.error))
  {
    var placed := engine.GetBlock(id);
    if placed.Err? {
      return Err(placed.error);
    }
    r := BuildTensors(layout, id, base(placed.value.loc));
  }

  /** `get_shared`: nothing unless there is a shared buffer. */
  method GetShared(layout: Layout, base: Loc -> nat) returns (r: Result<map<string, View>, EngineError>)
    requires UNASSIGNED in layout.blocks ==> NamesDistinct(layout.blocks[UNASSIGNED].tensors)
    requires layout.sharedBytes > 0 ==> UNASSIGNED in layout.blocks
    ensures layout.sharedBytes == 0 ==> r == Ok(map[])
    ensures layout.sharedBytes > 0 ==>
      && (r.Ok? <==> Exportable(layout.blocks[UNASSIGNED]))
      && (r.Ok? ==> HandedOut(layout, UNASSIGNED, base(Shared), r.value))
  {
    if layout.sharedBytes == 0 {
      return Ok(map[]);
    }
    r := BuildTensors(layout, UNASSIGNED, base(Shared));
  }

  // ------------------------------------------------------ only known copies

  ghost predicate CopiesKnown(cfg: Config, log: Log) {
    forall y :: 0 <= y < |log| && log[y].CopyEnd? ==> log[y].id in cfg.bytes
  }

  lemma ApplyCopiesKnown(cfg: Config, s: Session, call: Call)
    requires WellFormed(s.host) && CopiesKnown(cfg, s.host.log)
    ensures CopiesKnown(cfg, Apply(cfg, s, call).host.log)
  {
  }

  lemma {:induction false} RunCopiesKnown(cfg: Config, s: Session, calls: seq<Call>)
    requires WellFormed(s.host) && CopiesKnown(cfg, s.host.log)
    ensures CopiesKnown(cfg, Run(cfg, s, calls).host.log)
    decreases |calls|
  {
    if calls != [] {
      RunCopiesKnown(cfg, s, calls[..|calls| - 1]);
      ApplyCopiesKnown(cfg, Run(cfg, s, calls[..|calls| - 1]), calls[|calls| - 1]);
    }
  }

  lemma {:induction false} SyncedCopiesKnown(cfg: Config, hasShared: bool, ids: seq<Id>)
    requires hasShared ==> UNASSIGNED in cfg.bytes
    requires forall id :: id in ids ==> id in cfg.bytes
    ensures CopiesKnown(cfg, SyncedLog(hasShared, ids))
  {
    if ids != [] {
      SyncedCopiesKnown(cfg, hasShared, ids[..|ids| - 1]);
      SyncedStep(hasShared, ids);
      assert ids[|ids| - 1] in ids;
    }
  }

  lemma BootCopiesKnown(cfg: Config, hasShared: bool, ids: seq<Id>)
    requires hasShared ==> UNASSIGNED in cfg.bytes
    requires forall id :: id in ids ==> id in cfg.bytes
    ensures CopiesKnown(cfg, BootLog(hasShared, ids, cfg.slotCount))
  {
    SyncedCopiesKnown(cfg, hasShared, ids);
    RingShape(cfg.slotCount);
  }

  lemma {:induction false} HeldWasCopied(log: Log, t: nat, loc: Loc, id: Id)
    requires t <= |log| && ContentAt(log, t, loc) == Holds(id)
    ensures exists y :: 0 <= y < t && log[y] == CopyEnd(loc, id)
  {
    if t > 0 && log[t - 1] == CopyEnd(loc, id) {
      assert log[t - 1] == CopyEnd(loc, id);
    } else if t > 0 {
      HeldWasCopied(log, t - 1, loc, id);
    }
  }

  lemma HeldIsKnown(m: M.Model, blocks: seq<B.Block>, layout: Layout, cfg: Config, hasShared: bool, ids: seq<Id>,
                    calls: seq<Call>, t: nat, loc: Loc, id: Id)
    requires Serves(m, blocks, layout, cfg, hasShared, ids)
    requires var log := Run(cfg, Opened(hasShared, ids, cfg.slotCount), calls).host.log;
      t <= |log| && ContentAt(log, t, loc) == Holds(id)
    ensures id in layout.blocks
  {
    var s := Opened(hasShared, ids, cfg.slotCount);
    BootCopiesKnown(cfg, hasShared, ids);
    RunCopiesKnown(cfg, s, calls);
    HeldWasCopied(Run(cfg, s, calls).host.log, t, loc, id);
  }

  // ------------------------------------------------------------- the theorems

  /** For a disciplined client, at any moment of any interleaving, no copy runs
      past its slot, a running kernel's buffer is not being written, and reading
      through the views handed out for the block in that buffer finds what the
      checkpoint files' headers assign to its tensors. */
  lemma KernelsReadTheCheckpoint(
      m: M.Model, files: seq<File>, maxHeaderBytes: nat, blocks: seq<B.Block>, layout: Layout,
      cfg: Config, hasShared: bool, ids: seq<Id>, calls: seq<Call>, run: seq<Cursors>, k: nat,
      loc: Loc, id: Id, base: Loc -> nat, views: map<string, View>)
    requires M.Built(m, files, maxHeaderBytes) && Serves(m, blocks, layout, cfg, hasShared, ids)
    requires Disciplined(cfg, Opened(hasShared, ids, cfg.slotCount), calls)
    requires var log := Run(cfg, Opened(hasShared, ids, cfg.slotCount), calls).host.log;
      && Execution(log, cfg.start, run) && k < |run|
      && (InRange(log, run[k]) ==> KernelInFlight(log, run[k].compute, loc, id))
    requires id in layout.blocks ==> HandedOut(layout, id, base(loc), views)
    ensures var log := Run(cfg, Opened(hasShared, ids, cfg.slotCount), calls).host.log;
      && CopiesFit(cfg, log) && InRange(log, run[k]) && !WriteInFlight(log, run[k].transfer, loc)
      && id in layout.blocks
      && ViewsReadFiles(m, files, layout, ContentAt(log, run[k].transfer, loc), base(loc), views)
  {
    DisciplineIsSafe(cfg, hasShared, ids, calls);
    var log := Run(cfg, Opened(hasShared, ids, cfg.slotCount), calls).host.log;
    assert InRange(log, run[k]) && Safe(log, run[k]);
    HeldIsKnown(m, blocks, layout, cfg, hasShared, ids, calls, run[k].transfer, loc, id);
    HandedOutReadsFiles(m, files, maxHeaderBytes, blocks, layout, id, base(loc), views);
  }

  /** ... and so for the installed schedule, under the conditions that make it safe. */
  lemma AttachReadsTheCheckpoint(
      m: M.Model, files: seq<File>, maxHeaderBytes: nat, blocks: seq<B.Block>, layout: Layout,
      cfg: Config, hasShared: bool, ids: seq<Id>, ahead: nat, steps: nat, run: seq<Cursors>, k: nat,
      loc: Loc, id: Id, base: Loc -> nat, views: map<string, View>)
    requires M.Built(m, files, maxHeaderBytes) && Serves(m, blocks, layout, cfg, hasShared, ids)
    requires cfg.order != [] && ahead > 0 && Rehearsed(cfg, ahead, steps)
    requires var log := Run(cfg, Opened(hasShared, ids, cfg.slotCount), AttachCalls(cfg, ahead, steps)).host.log;
      && Execution(log, cfg.start, run) && k < |run|
      && (InRange(log, run[k]) ==> KernelInFlight(log, run[k].compute, loc, id))
    requires id in layout.blocks ==> HandedOut(layout, id, base(loc), views)
    ensures var log := Run(cfg, Opened(hasShared, ids, cfg.slotCount), AttachCalls(cfg, ahead, steps)).host.log;
      && CopiesFit(cfg, log) && InRange(log, run[k]) && !WriteInFlight(log, run[k].transfer, loc)
      && id in layout.blocks
      && ViewsReadFiles(m, files, layout, ContentAt(log, run[k].transfer, loc), base(loc), views)
  {
    RehearsalTracks(cfg, ahead, hasShared, ids, steps);
    KernelsReadTheCheckpoint(m, files, maxHeaderBytes, blocks, layout, cfg, hasShared, ids,
      AttachCalls(cfg, ahead, steps), run, k, loc, id, base, views);
  }

  /** A buffer that is filled once, at start-up. */
  predicate IsStatic(hasShared: bool, ids: seq<Id>, loc: Loc) {
    (loc == Shared && hasShared) || (loc.Pool? && loc.id in ids)
  }

  function StaticBlock(loc: Loc): Id {
    if loc.Pool? then loc.id else UNASSIGNED
  }

  /** Whatever a client that asks for no oversized block does, reading through the
      views of the shared and the resident blocks finds the files' payloads at
      every moment. */
  lemma StaticBuffersReadTheCheckpoint(
      m: M.Model, files: seq<File>, maxHeaderBytes: nat, blocks: seq<B.Block>, layout: Layout,
      cfg: Config, hasShared: bool, ids: seq<Id>, calls: seq<Call>, run: seq<Cursors>, k: nat,
      loc: Loc, base: Loc -> nat, views: map<string, View>)
    requires M.Built(m, files, maxHeaderBytes) && Serves(m, blocks, layout, cfg, hasShared, ids)
    requires Sized(cfg, calls) && IsStatic(hasShared, ids, loc)
    requires Execution(Run(cfg, Opened(hasShared, ids, cfg.slotCount), calls).host.log, cfg.start, run) && k < |run|
    requires StaticBlock(loc) in layout.blocks ==> HandedOut(layout, StaticBlock(loc), base(loc), views)
    ensures var log := Run(cfg, Opened(hasShared, ids, cfg.slotCount), calls).host.log;
      && CopiesFit(cfg, log) && InRange(log, run[k])
      && StaticBlock(loc) in layout.blocks
      && ViewsReadFiles(m, files, layout, ContentAt(log, run[k].transfer, loc), base(loc), views)
  {
    StaticBuffersKeepTheirBlocks(cfg, hasShared, ids, calls, run, k);
    HeldIsKnown(m, blocks, layout, cfg, hasShared, ids, calls, run[k].transfer, loc, StaticBlock(loc));
    HandedOutReadsFiles(m, files, maxHeaderBytes, blocks, layout, StaticBlock(loc), base(loc), views);
  }
}
