/** The pinned host buffer: every block's bytes end to end, and the table of where
    each block and tensor lies. */
module Pinned {
  import opened Common
  import opened Text
  import opened Errors
  import opened Checkpoint
  import opened Blocks
  import opened Models
  import opened Copies

  datatype TensorMeta = TensorMeta(name: string, pinnedOffset: nat, len: nat, dtype: string, shape: seq<nat>)

  datatype BlockMeta = BlockMeta(id: string, tensors: seq<TensorMeta>, totalBytes: nat)

  datatype Layout = Layout(blocks: map<string, BlockMeta>, order: seq<string>, sharedBytes: nat, pinned: seq<byte>)

  /** The dtypes with a DLPack counterpart. */
  predicate Supported(dtype: string) {
    dtype in {"F32", "F16", "BF16", "F64", "I64", "I32", "I16", "I8", "U8", "BOOL"}
  }

  /** A kind of number and its width in bits. */
  predicate Kind(letters: string, bits: nat) {
    match letters
    case "F" => bits in {16, 32, 64}
    case "BF" => bits == 16
    case "I" => bits in {8, 16, 32, 64}
    case "U" => bits == 8
    case _ => false
  }

  lemma PrintedWidths()
    ensures Decimal(8) == "8" && Decimal(16) == "16" && Decimal(32) == "32" && Decimal(64) == "64"
  {
    assert Decimal(1) == "1" && Decimal(3) == "3" && Decimal(6) == "6";
  }

  /** What can be exported: floats, signed integers, single bytes and truth values,
      by the kind and width in the type's name. */
  lemma SupportedKinds(dtype: string)
    ensures Supported(dtype) <==>
      dtype == "BOOL" || exists letters, bits: nat :: Kind(letters, bits) && dtype == letters + Decimal(bits)
  {
    PrintedWidths();
    assert Kind("F", 16) && Kind("F", 32) && Kind("F", 64) && Kind("BF", 16) && Kind("U", 8);
    assert Kind("I", 8) && Kind("I", 16) && Kind("I", 32) && Kind("I", 64);
    assert "F16" == "F" + "16" && "F32" == "F" + "32" && "F64" == "F" + "64";
    assert "BF16" == "BF" + "16" && "U8" == "U" + "8";
    assert "I8" == "I" + "8" && "I16" == "I" + "16" && "I32" == "I" + "32" && "I64" == "I" + "64";
  }

  // -------------------------------------------------------------- the layout

  /** Where a block after these starts. */
  function Extent(blocks: seq<Block>): nat {
    if blocks == [] then 0 else Extent(blocks[..|blocks| - 1]) + Total(blocks[|blocks| - 1].tensors)
  }

  function MetaAt(tensors: seq<Descriptor>, base: nat, i: nat): TensorMeta
    requires i < |tensors|
  {
    TensorMeta(tensors[i].name, base + Total(tensors[..i]), tensors[i].byteLen, tensors[i].dtype, tensors[i].shape)
  }

  function MetaTensors(tensors: seq<Descriptor>, base: nat): (metas: seq<TensorMeta>)
    ensures |metas| == |tensors|
  {
    seq(|tensors|, i requires 0 <= i < |tensors| => MetaAt(tensors, base, i))
  }

  function MetaOf(blocks: seq<Block>, k: nat): BlockMeta
    requires k < |blocks|
  {
    BlockMeta(blocks[k].id, MetaTensors(blocks[k].tensors, Extent(blocks[..k])), Total(blocks[k].tensors))
  }

  function Ids(blocks: seq<Block>): seq<string> {
    seq(|blocks|, k requires 0 <= k < |blocks| => blocks[k].id)
  }

  /** Ids of the blocks that are not the shared one. */
  function Order(blocks: seq<Block>): seq<string> {
    if blocks == [] then []
    else
      var last := blocks[|blocks| - 1];
      Order(blocks[..|blocks| - 1]) + if last.id == UNASSIGNED then [] else [last.id]
  }

  ghost predicate AllOf(m: Model, blocks: seq<Block>) {
    forall b :: b in blocks ==> Of(m, b)
  }

  ghost function AllContents(m: Model, blocks: seq<Block>): seq<byte>
    requires Readable(m) && AllOf(m, blocks)
  {
    if blocks == [] then []
    else
      assert blocks[|blocks| - 1] in blocks;
      AllContents(m, blocks[..|blocks| - 1]) + Contents(m, blocks[|blocks| - 1].tensors)
  }

  /** Block `j` is the last of the first `k` with its id. */
  ghost predicate LastWithId(blocks: seq<Block>, k: nat, j: nat) {
    j < k <= |blocks| && forall i :: j < i < k ==> blocks[i].id != blocks[j].id
  }

  ghost predicate HasId(blocks: seq<Block>, k: nat, id: string) {
    exists j: nat :: LastWithId(blocks, k, j) && blocks[j].id == id
  }

  ghost predicate Entered(blocks: seq<Block>, j: nat, table: map<string, BlockMeta>)
    requires j < |blocks|
  {
    blocks[j].id in table && table[blocks[j].id] == MetaOf(blocks, j)
  }

  /** The table of the first `k` blocks: each id's entry is its last block's. */
  ghost predicate BlockTable(blocks: seq<Block>, k: nat, table: map<string, BlockMeta>) {
    && k <= |blocks|
    && (forall id :: id in table ==> HasId(blocks, k, id))
    && forall j: nat :: LastWithId(blocks, k, j) ==> Entered(blocks, j, table)
  }

  lemma {:induction false} LastExists(blocks: seq<Block>, j: nat) returns (last: nat)
    requires j < |blocks|
    ensures j <= last && LastWithId(blocks, |blocks|, last) && blocks[last].id == blocks[j].id
    decreases |blocks| - j
  {
    if i :| j < i < |blocks| && blocks[i].id == blocks[j].id {
      last := LastExists(blocks, i);
    } else {
      last := j;
    }
  }

  ghost predicate BlockSupported(b: Block) {
    forall i :: 0 <= i < |b.tensors| ==> Supported(b.tensors[i].dtype)
  }

  ghost predicate SupportedUpTo(blocks: seq<Block>, n: nat) {
    n <= |blocks| && forall k :: 0 <= k < n ==> BlockSupported(blocks[k])
  }

  ghost predicate AllSupported(blocks: seq<Block>) {
    SupportedUpTo(blocks, |blocks|)
  }

  /** The layout of these blocks. */
  ghost predicate Pins(m: Model, blocks: seq<Block>, layout: Layout)
    requires Readable(m) && AllOf(m, blocks)
  {
    && BlockTable(blocks, |blocks|, layout.blocks)
    && layout.order == Order(blocks)
    && layout.sharedBytes == (if UNASSIGNED in layout.blocks then layout.blocks[UNASSIGNED].totalBytes else 0)
    && layout.pinned == AllContents(m, blocks)
  }

  lemma ExtentStep(blocks: seq<Block>, k: nat)
    requires k < |blocks|
    ensures blocks[..k + 1] == blocks[..k] + [blocks[k]]
    ensures Extent(blocks[..k + 1]) == Extent(blocks[..k]) + Total(blocks[k].tensors)
  {
    assert blocks[..k + 1][..k] == blocks[..k];
  }

  lemma {:induction false} ExtentMonotone(blocks: seq<Block>, k: nat)
    requires k <= |blocks|
    ensures Extent(blocks[..k]) <= Extent(blocks)
    decreases |blocks| - k
  {
    if k < |blocks| {
      ExtentStep(blocks, k);
      ExtentMonotone(blocks, k + 1);
    } else {
      assert blocks[..k] == blocks;
    }
  }

  lemma AllContentsStep(m: Model, blocks: seq<Block>, k: nat)
    requires Readable(m) && AllOf(m, blocks) && k < |blocks|
    ensures AllOf(m, blocks[..k]) && AllOf(m, blocks[..k + 1]) && Of(m, blocks[k])
    ensures AllContents(m, blocks[..k + 1]) == AllContents(m, blocks[..k]) + Contents(m, blocks[k].tensors)
  {
    assert blocks[..k + 1][..k] == blocks[..k];
    assert blocks[k] in blocks;
  }

  lemma {:induction false} AllContentsLength(m: Model, blocks: seq<Block>)
    requires Readable(m) && AllOf(m, blocks)
    ensures |AllContents(m, blocks)| == Extent(blocks)
  {
    if blocks != [] {
      var n := |blocks| - 1;
      assert blocks[n] in blocks;
      AllContentsLength(m, blocks[..n]);
      ContentsLength(m, blocks[n].tensors);
    }
  }

  // ------------------------------------------------------------ filling it in

  ghost predicate NoShared(blocks: seq<Block>) {
    forall j :: 0 <= j < |blocks| ==> blocks[j].id != UNASSIGNED
  }

  /** `r` is `blocks` with the shared block, at `k`, moved to the front. */
  ghost predicate MovedFirst(blocks: seq<Block>, k: nat, r: seq<Block>) {
    && k < |blocks| && blocks[k].id == UNASSIGNED && NoShared(blocks[..k])
    && r == [blocks[k]] + blocks[..k] + blocks[k + 1..]
  }

  /** `position(..)`, `remove`, `insert(0, ..)`: the shared block moves to the front. */
  method SharedFirst(blocks: seq<Block>) returns (r: seq<Block>)
    ensures (exists k :: MovedFirst(blocks, k, r)) || (NoShared(blocks) && r == blocks)
  {
    for k := 0 to |blocks|
      invariant NoShared(blocks[..k])
    {
      if blocks[k].id == UNASSIGNED {
        r := [blocks[k]] + blocks[..k] + blocks[k + 1..];
        assert MovedFirst(blocks, k, r);
        return;
      }
    }
    return blocks;
  }

  method TotalBytes(blocks: seq<Block>) returns (total: nat)
    ensures total == Extent(blocks)
  {
    total := 0;
    for k := 0 to |blocks|
      invariant total == Extent(blocks[..k])
    {
      ExtentStep(blocks, k);
      total := total + Total(blocks[k].tensors);
    }
    assert blocks[..|blocks|] == blocks;
  }

  ghost predicate FirstUnsupported(tensors: seq<Descriptor>, i: int) {
    0 <= i < |tensors| && !Supported(tensors[i].dtype) && forall j :: 0 <= j < i ==> Supported(tensors[j].dtype)
  }

  lemma MetaFromLayout(tensors: seq<Descriptor>, layout: seq<TensorLayout>, offset: nat, i: nat)
    requires LaidOut(tensors, layout) && i < |tensors|
    ensures |layout| == |tensors|
    ensures TensorMeta(tensors[i].name, offset + layout[i].offset, layout[i].len, tensors[i].dtype, tensors[i].shape)
      == MetaAt(tensors, offset, i)
  {
  }

  /** The metas of one block's tensors; the first unsupported dtype is an error. */
  method DescribeTensors(tensors: seq<Descriptor>, layout: seq<TensorLayout>, offset: nat)
    returns (r: Result<seq<TensorMeta>, EngineError>)
    requires LaidOut(tensors, layout)
    ensures r.Ok? <==> forall i :: 0 <= i < |tensors| ==> Supported(tensors[i].dtype)
    ensures r.Ok? ==> r.value == MetaTensors(tensors, offset)
    ensures r.Err? ==>
      exists i :: FirstUnsupported(tensors, i) && r.error == UnsupportedDtype(tensors[i].name, tensors[i].dtype)
  {
    var metas: seq<TensorMeta> := [];
    for i := 0 to |tensors|
      invariant metas == MetaTensors(tensors, offset)[..i]
      invariant forall j :: 0 <= j < i ==> Supported(tensors[j].dtype)
    {
      MetaFromLayout(tensors, layout, offset, i);
      var d, l := tensors[i], layout[i];
      if !Supported(d.dtype) {
        assert FirstUnsupported(tensors, i);
        return Err(UnsupportedDtype(d.name, d.dtype));
      }
      metas := metas + [TensorMeta(d.name, offset + l.offset, l.len, d.dtype, d.shape)];
    }
    return Ok(metas);
  }

  lemma LastGrows(blocks: seq<Block>, k: nat, j: nat)
    requires k < |blocks|
    ensures LastWithId(blocks, k + 1, j) <==> j == k || (LastWithId(blocks, k, j) && blocks[k].id != blocks[j].id)
  {
  }

  lemma BlockTableStep(blocks: seq<Block>, k: nat, table: map<string, BlockMeta>)
    requires k < |blocks| && BlockTable(blocks, k, table)
    ensures BlockTable(blocks, k + 1, table[blocks[k].id := MetaOf(blocks, k)])
  {
    var table' := table[blocks[k].id := MetaOf(blocks, k)];
    forall id | id in table' ensures HasId(blocks, k + 1, id) {
      if id == blocks[k].id {
        LastGrows(blocks, k, k);
      } else {
        assert HasId(blocks, k, id);
        var j: nat :| LastWithId(blocks, k, j) && blocks[j].id == id;
        LastGrows(blocks, k, j);
      }
    }
    forall j: nat | LastWithId(blocks, k + 1, j) ensures Entered(blocks, j, table') {
      LastGrows(blocks, k, j);
      assert j < k ==> Entered(blocks, j, table);
    }
  }

  datatype Progress = Progress(table: map<string, BlockMeta>, order: seq<string>, sharedBytes: nat, offset: nat)

  /** What has been laid out after `k` blocks. */
  ghost predicate PinnedUpTo(m: Model, blocks: seq<Block>, k: nat, pinned: seq<byte>, p: Progress)
    requires Readable(m) && AllOf(m, blocks)
  {
    && BlockTable(blocks, k, p.table)
    && p.offset == Extent(blocks[..k]) && p.order == Order(blocks[..k])
    && p.sharedBytes == (if UNASSIGNED in p.table then p.table[UNASSIGNED].totalBytes else 0)
    && |pinned| == Extent(blocks) && p.offset <= |pinned|
    && AllOf(m, blocks[..k]) && pinned[..p.offset] == AllContents(m, blocks[..k])
  }

  function Advanced(p: Progress, meta: BlockMeta): Progress {
    Progress(
      p.table[meta.id := meta],
      if meta.id == UNASSIGNED then p.order else p.order + [meta.id],
      if meta.id == UNASSIGNED then meta.totalBytes else p.sharedBytes,
      p.offset + meta.totalBytes)
  }

  lemma BytesStep(m: Model, blocks: seq<Block>, k: nat, pinned: seq<byte>, pinned': seq<byte>, p: Progress)
    requires Readable(m) && AllOf(m, blocks) && k < |blocks|
    requires PinnedUpTo(m, blocks, k, pinned, p)
    requires Of(m, blocks[k]) && p.offset + Total(blocks[k].tensors) <= |pinned|
    requires pinned' ==
      pinned[..p.offset] + Contents(m, blocks[k].tensors) + pinned[p.offset + Total(blocks[k].tensors)..]
    ensures |pinned'| == |pinned| && AllOf(m, blocks[..k + 1])
    ensures pinned'[..p.offset + Total(blocks[k].tensors)] == AllContents(m, blocks[..k + 1])
  {
    AllContentsStep(m, blocks, k);
    ContentsLength(m, blocks[k].tensors);
    assert pinned'[..p.offset + Total(blocks[k].tensors)] == pinned[..p.offset] + Contents(m, blocks[k].tensors);
  }

  lemma PinnedStep(m: Model, blocks: seq<Block>, k: nat, pinned: seq<byte>, pinned': seq<byte>, p: Progress)
    requires Readable(m) && AllOf(m, blocks) && k < |blocks|
    requires PinnedUpTo(m, blocks, k, pinned, p)
    requires Of(m, blocks[k]) && p.offset + Total(blocks[k].tensors) <= |pinned|
    requires pinned' ==
      pinned[..p.offset] + Contents(m, blocks[k].tensors) + pinned[p.offset + Total(blocks[k].tensors)..]
    ensures PinnedUpTo(m, blocks, k + 1, pinned', Advanced(p, MetaOf(blocks, k)))
  {
    BytesStep(m, blocks, k, pinned, pinned', p);
    ExtentStep(blocks, k);
    ExtentMonotone(blocks, k + 1);
    BlockTableStep(blocks, k, p.table);
    assert blocks[..k + 1][..k] == blocks[..k];
  }

  lemma RoomFor(m: Model, blocks: seq<Block>, k: nat)
    requires Readable(m) && AllOf(m, blocks) && k < |blocks|
    ensures Of(m, blocks[k]) && Extent(blocks[..k]) + Total(blocks[k].tensors) <= Extent(blocks)
  {
    assert blocks[k] in blocks;
    ExtentStep(blocks, k);
    ExtentMonotone(blocks, k + 1);
  }

  lemma CopiedIsPinned(m: Model, blocks: seq<Block>, k: nat, before: seq<byte>, after: seq<byte>, p: Progress,
                       layout: Outcome<seq<TensorLayout>>)
    requires Readable(m) && AllOf(m, blocks) && k < |blocks| && PinnedUpTo(m, blocks, k, before, p)
    requires Of(m, blocks[k]) && CopiedWhole(m, blocks[k].tensors, before, p.offset, layout, after)
    ensures PinnedUpTo(m, blocks, k + 1, after, Advanced(p, MetaOf(blocks, k)))
    ensures layout.Returned? && layout.result.Ok? && LaidOut(blocks[k].tensors, layout.result.value)
  {
    PinnedStep(m, blocks, k, before, after, p);
  }

  /** Tensor `i` of block `k` is the first whose type has no descriptor. */
  ghost predicate RejectedAt(blocks: seq<Block>, k: nat, i: nat, error: EngineError) {
    && k < |blocks| && SupportedUpTo(blocks, k) && FirstUnsupported(blocks[k].tensors, i)
    && error == UnsupportedDtype(blocks[k].tensors[i].name, blocks[k].tensors[i].dtype)
  }

  /** One block: copied to its place, its tensors described, its meta entered. */
  method PinBlock(m: Model, blocks: seq<Block>, k: nat, pinned: array<byte>, p: Progress)
    returns (r: Result<Progress, EngineError>)
    requires Readable(m) && AllOf(m, blocks) && k < |blocks|
    requires PinnedUpTo(m, blocks, k, pinned[..], p)
    modifies pinned
    ensures r.Ok? <==> BlockSupported(blocks[k])
    ensures r.Err? && SupportedUpTo(blocks, k) ==> exists i: nat :: RejectedAt(blocks, k, i, r.error)
    ensures r.Ok? ==> PinnedUpTo(m, blocks, k + 1, pinned[..], r.value)
  {
    var block := blocks[k];
    ghost var before := pinned[..];
    RoomFor(m, blocks, k);
    var blockBytes := Total(block.tensors);
    var layout := CopyBlockInto(m, block, pinned, p.offset, p.offset + blockBytes);
    CopiedIsPinned(m, blocks, k, before, pinned[..], p, layout);
    var metas := DescribeTensors(block.tensors, layout.result.value, p.offset);
    if metas.Err? {
      ghost var i: nat :| FirstUnsupported(block.tensors, i) &&
        metas.error == UnsupportedDtype(block.tensors[i].name, block.tensors[i].dtype);
      assert SupportedUpTo(blocks, k) ==> RejectedAt(blocks, k, i, metas.error);
      return Err(metas.error);
    }
    return Ok(Advanced(p, BlockMeta(block.id, metas.value, blockBytes)));
  }

  lemma PinnedEnds(m: Model, blocks: seq<Block>, pinned: seq<byte>, p: Progress)
    requires Readable(m) && AllOf(m, blocks) && PinnedUpTo(m, blocks, |blocks|, pinned, p)
    ensures Pins(m, blocks, Layout(p.table, p.order, p.sharedBytes, pinned))
  {
    assert blocks[..|blocks|] == blocks;
    assert pinned[..p.offset] == pinned;
  }

  /** The pinned buffer and the block table, if the budget covers the blocks and
      every dtype is supported. */
  method FillPinned(m: Model, blocks: seq<Block>, budget: nat) returns (r: Result<Layout, EngineError>)
    requires Readable(m) && AllOf(m, blocks)
    ensures r.Ok? <==> Extent(blocks) <= budget && AllSupported(blocks)
    ensures r.Ok? ==> Pins(m, blocks, r.value)
    ensures r.Err? ==>
      if Extent(blocks) > budget then r.error == BudgetExceeded(Extent(blocks), budget)
      else exists k: nat, i: nat :: RejectedAt(blocks, k, i, r.error)
  {
    var total := TotalBytes(blocks);
    if total > budget {
      return Err(BudgetExceeded(total, budget));
    }
    var pinned := new byte[total](_ => 0);
    var p := Progress(map[], [], 0, 0);
    for k := 0 to |blocks|
      invariant PinnedUpTo(m, blocks, k, pinned[..], p)
      invariant SupportedUpTo(blocks, k)
    {
      var next := PinBlock(m, blocks, k, pinned, p);
      if next.Err? {
        return Err(next.error);
      }
      p := next.value;
    }
    PinnedEnds(m, blocks, pinned[..], p);
    return Ok(Layout(p.table, p.order, p.sharedBytes, pinned[..]));
  }
}
