/** From checkpoint to kernel: the pinned ranges tile the buffer, and every tensor
    view on the device reads the tensor's checkpoint bytes. */
module Views {
  import opened Common
  import opened Errors
  import opened Checkpoint
  import opened Blocks
  import opened Models
  import opened Copies
  import opened Pinned

  // ------------------------------------------------------------------ tiling

  /** The ranges follow one another from `lo` to `hi`. */
  ghost predicate Tiles(metas: seq<TensorMeta>, lo: nat, hi: nat) {
    && (metas == [] ==> lo == hi)
    && (metas != [] ==>
          metas[0].pinnedOffset == lo && metas[|metas| - 1].pinnedOffset + metas[|metas| - 1].len == hi)
    && forall i :: 0 <= i < |metas| - 1 ==> metas[i].pinnedOffset + metas[i].len == metas[i + 1].pinnedOffset
  }

  lemma TilesConcat(a: seq<TensorMeta>, lo: nat, mid: nat, b: seq<TensorMeta>, hi: nat)
    requires Tiles(a, lo, mid) && Tiles(b, mid, hi)
    ensures Tiles(a + b, lo, hi)
  {
    var all := a + b;
    forall i | 0 <= i < |all| - 1 ensures all[i].pinnedOffset + all[i].len == all[i + 1].pinnedOffset {
      if i == |a| - 1 {
        assert all[i] == a[|a| - 1] && all[i + 1] == b[0];
      } else if i >= |a| {
        assert all[i] == b[i - |a|] && all[i + 1] == b[i - |a| + 1];
      }
    }
    if b == [] {
      assert all == a;
    }
  }

  lemma BlockTiles(tensors: seq<Descriptor>, base: nat)
    ensures Tiles(MetaTensors(tensors, base), base, base + Total(tensors))
  {
    var metas := MetaTensors(tensors, base);
    forall i | 0 <= i < |metas| - 1 ensures metas[i].pinnedOffset + metas[i].len == metas[i + 1].pinnedOffset {
      TotalStep(tensors, i);
    }
    if tensors != [] {
      TotalStep(tensors, |tensors| - 1);
      assert tensors[..|tensors|] == tensors;
    }
  }

  function AllMetas(blocks: seq<Block>): seq<TensorMeta> {
    if blocks == [] then []
    else AllMetas(blocks[..|blocks| - 1]) + MetaOf(blocks, |blocks| - 1).tensors
  }

  /** All tensors, in block order, tile the pinned buffer. */
  lemma {:induction false} LayoutTiles(blocks: seq<Block>)
    ensures Tiles(AllMetas(blocks), 0, Extent(blocks))
  {
    if blocks != [] {
      var front, last := blocks[..|blocks| - 1], blocks[|blocks| - 1];
      LayoutTiles(front);
      BlockTiles(last.tensors, Extent(front));
      TilesConcat(AllMetas(front), 0, Extent(front), MetaTensors(last.tensors, Extent(front)), Extent(blocks));
    }
  }

  predicate Covers(t: TensorMeta, x: nat) {
    t.pinnedOffset <= x < t.pinnedOffset + t.len
  }

  lemma {:induction false} TilesAscend(metas: seq<TensorMeta>, lo: nat, hi: nat, i: nat, j: nat)
    requires Tiles(metas, lo, hi) && i < j < |metas|
    ensures metas[i].pinnedOffset + metas[i].len <= metas[j].pinnedOffset
  {
    if i + 1 < j {
      TilesAscend(metas, lo, hi, i, j - 1);
    }
  }

  lemma {:induction false} TilesCover(metas: seq<TensorMeta>, lo: nat, hi: nat, x: nat) returns (i: nat)
    requires Tiles(metas, lo, hi) && lo <= x < hi
    ensures i < |metas| && Covers(metas[i], x)
  {
    if Covers(metas[0], x) {
      i := 0;
    } else {
      assert |metas| > 1;
      i := TilesCover(metas[1..], metas[1].pinnedOffset, hi, x);
      i := i + 1;
    }
  }

  /** Every byte of the buffer belongs to exactly one tensor. */
  lemma EveryByteOnce(blocks: seq<Block>, x: nat)
    requires x < Extent(blocks)
    ensures exists i :: 0 <= i < |AllMetas(blocks)| && Covers(AllMetas(blocks)[i], x)
    ensures forall i, j :: 0 <= i < j < |AllMetas(blocks)| ==>
      !(Covers(AllMetas(blocks)[i], x) && Covers(AllMetas(blocks)[j], x))
  {
    var metas := AllMetas(blocks);
    LayoutTiles(blocks);
    var i := TilesCover(metas, 0, Extent(blocks), x);
    forall i, j | 0 <= i < j < |metas| ensures !(Covers(metas[i], x) && Covers(metas[j], x)) {
      TilesAscend(metas, 0, Extent(blocks), i, j);
    }
  }

  // ------------------------------------------------------------ block starts

  /** `first().map(..).unwrap_or(0)`, for a ring transfer. */
  function FirstStart(meta: BlockMeta): nat {
    if meta.tensors == [] then 0 else meta.tensors[0].pinnedOffset
  }

  function Least(tensors: seq<TensorMeta>): nat
    requires tensors != []
  {
    if |tensors| == 1 then tensors[0].pinnedOffset
    else
      var least := Least(tensors[..|tensors| - 1]);
      if tensors[|tensors| - 1].pinnedOffset < least then tensors[|tensors| - 1].pinnedOffset else least
  }

  /** `min().unwrap_or(0)`, for static buffers and tensor views. */
  function MinStart(meta: BlockMeta): nat {
    if meta.tensors == [] then 0 else Least(meta.tensors)
  }

  lemma {:induction false} LeastIsFirst(tensors: seq<TensorMeta>)
    requires tensors != [] && forall i :: 0 <= i < |tensors| ==> tensors[0].pinnedOffset <= tensors[i].pinnedOffset
    ensures Least(tensors) == tensors[0].pinnedOffset
  {
    if |tensors| > 1 {
      LeastIsFirst(tensors[..|tensors| - 1]);
    }
  }

  /** The start used for transfers and the start used for views always agree;
      they are the running offset exactly when the block has a tensor, or lies
      at the very beginning. */
  lemma StartsAgree(blocks: seq<Block>, k: nat)
    requires k < |blocks|
    ensures FirstStart(MetaOf(blocks, k)) == MinStart(MetaOf(blocks, k))
    ensures MinStart(MetaOf(blocks, k)) == Extent(blocks[..k]) <==> blocks[k].tensors != [] || Extent(blocks[..k]) == 0
  {
    var metas := MetaOf(blocks, k).tensors;
    if metas != [] {
      BlockTiles(blocks[k].tensors, Extent(blocks[..k]));
      forall i | 0 <= i < |metas| ensures metas[0].pinnedOffset <= metas[i].pinnedOffset {
        if i > 0 {
          TilesAscend(metas, Extent(blocks[..k]), Extent(blocks[..k]) + Total(blocks[k].tensors), 0, i);
        }
      }
      LeastIsFirst(metas);
    }
  }

  // ------------------------------------------------------------------- views

  /** The bytes a transfer of a block writes to the start of its buffer. */
  function Sent(layout: Layout, id: string): seq<byte>
    requires id in layout.blocks
    requires FirstStart(layout.blocks[id]) + layout.blocks[id].totalBytes <= |layout.pinned|
  {
    var meta := layout.blocks[id];
    layout.pinned[FirstStart(meta)..FirstStart(meta) + meta.totalBytes]
  }

  /** Where a tensor's view starts within its block's buffer. */
  function WithinBlock(meta: BlockMeta, i: nat): int
    requires i < |meta.tensors|
  {
    meta.tensors[i].pinnedOffset - MinStart(meta)
  }

  /** The view of tensor `i` lies within the block's bytes and is `bytes`. */
  ghost predicate Shows(layout: Layout, id: string, i: nat, bytes: seq<byte>) {
    && id in layout.blocks && i < |layout.blocks[id].tensors|
    && var meta := layout.blocks[id];
    && FirstStart(meta) + meta.totalBytes <= |layout.pinned|
    && var w := WithinBlock(meta, i);
    && 0 <= w <= w + meta.tensors[i].len <= meta.totalBytes
    && Sent(layout, id)[w..w + meta.tensors[i].len] == bytes
  }

  lemma Middle(a: seq<byte>, b: seq<byte>, c: seq<byte>)
    ensures (a + b + c)[|a|..|a| + |b|] == b
  {
  }

  lemma ContentsAppend(m: Model, blocks: seq<Block>, n: nat)
    requires Readable(m) && AllOf(m, blocks) && |blocks| == n + 1
    ensures AllOf(m, blocks[..n]) && Of(m, blocks[n])
    ensures AllContents(m, blocks) == AllContents(m, blocks[..n]) + Contents(m, blocks[n].tensors)
  {
    assert blocks[n] in blocks;
  }

  /** The contents before, in and after block `k`. */
  lemma {:induction false} ContentsSplit(m: Model, blocks: seq<Block>, k: nat) returns (behind: seq<byte>)
    requires Readable(m) && AllOf(m, blocks) && k < |blocks|
    ensures AllOf(m, blocks[..k]) && Of(m, blocks[k])
    ensures AllContents(m, blocks) == AllContents(m, blocks[..k]) + Contents(m, blocks[k].tensors) + behind
    decreases |blocks|
  {
    var n := |blocks| - 1;
    ContentsAppend(m, blocks, n);
    if k == n {
      behind := [];
    } else {
      behind := ContentsSplit(m, blocks[..n], k);
      assert blocks[..n][..k] == blocks[..k];
      behind := behind + Contents(m, blocks[n].tensors);
    }
  }

  /** A block's place in the pinned buffer holds its copied contents. */
  lemma PlaceHoldsContents(m: Model, blocks: seq<Block>, k: nat)
    requires Readable(m) && AllOf(m, blocks) && k < |blocks|
    ensures Of(m, blocks[k])
    ensures var start := Extent(blocks[..k]);
      && start + Total(blocks[k].tensors) <= |AllContents(m, blocks)|
      && AllContents(m, blocks)[start..start + Total(blocks[k].tensors)] == Contents(m, blocks[k].tensors)
  {
    var behind := ContentsSplit(m, blocks, k);
    AllContentsLength(m, blocks[..k]);
    ContentsLength(m, blocks[k].tensors);
    Middle(AllContents(m, blocks[..k]), Contents(m, blocks[k].tensors), behind);
  }

  lemma TableEntry(m: Model, blocks: seq<Block>, layout: Layout, k: nat)
    requires Readable(m) && AllOf(m, blocks) && Pins(m, blocks, layout) && LastWithId(blocks, |blocks|, k)
    ensures blocks[k].id in layout.blocks && layout.blocks[blocks[k].id] == MetaOf(blocks, k)
    ensures layout.pinned == AllContents(m, blocks)
  {
    assert Entered(blocks, k, layout.blocks);
  }

  /** What is sent for a block is its copied contents. */
  lemma SentIsContents(m: Model, blocks: seq<Block>, layout: Layout, k: nat)
    requires Readable(m) && AllOf(m, blocks) && Pins(m, blocks, layout)
    requires LastWithId(blocks, |blocks|, k) && blocks[k].tensors != []
    ensures Of(m, blocks[k])
    ensures var meta := MetaOf(blocks, k);
      && blocks[k].id in layout.blocks && layout.blocks[blocks[k].id] == meta
      && FirstStart(meta) + meta.totalBytes <= |layout.pinned|
      && Sent(layout, blocks[k].id) == Contents(m, blocks[k].tensors)
  {
    TableEntry(m, blocks, layout, k);
    PlaceHoldsContents(m, blocks, k);
    StartsAgree(blocks, k);
  }

  lemma WithinIsPrefix(blocks: seq<Block>, k: nat, i: nat)
    requires k < |blocks| && i < |blocks[k].tensors|
    ensures var meta := MetaOf(blocks, k);
      && WithinBlock(meta, i) == Total(blocks[k].tensors[..i])
      && meta.tensors[i].len == blocks[k].tensors[i].byteLen && meta.totalBytes == Total(blocks[k].tensors)
  {
    StartsAgree(blocks, k);
  }

  /** A device view of a tensor, in any buffer its block was sent to, reads exactly
      the tensor's checkpoint bytes. */
  lemma ViewReadsTensor(m: Model, blocks: seq<Block>, layout: Layout, k: nat, i: nat)
    requires Readable(m) && AllOf(m, blocks) && Pins(m, blocks, layout)
    requires LastWithId(blocks, |blocks|, k) && i < |blocks[k].tensors|
    ensures TensorBytes(m, blocks[k].tensors[i].name).Ok?
    ensures Shows(layout, blocks[k].id, i, TensorBytes(m, blocks[k].tensors[i].name).value)
  {
    var tensors := blocks[k].tensors;
    SentIsContents(m, blocks, layout, k);
    WithinIsPrefix(blocks, k, i);
    LayoutFinds(m, tensors, i);
    ContentsLength(m, tensors);
    assert tensors[i] in tensors;
  }

  // ------------------------------------------------------------ handing out

  /** A tensor as the consumer gets it: a typed window at a device address. */
  datatype View = View(devicePtr: nat, dtype: string, shape: seq<nat>)

  lemma {:induction false} LeastIsLeast(tensors: seq<TensorMeta>, i: nat)
    requires i < |tensors|
    ensures Least(tensors) <= tensors[i].pinnedOffset
  {
    if i < |tensors| - 1 {
      LeastIsLeast(tensors[..|tensors| - 1], i);
    }
  }

  ghost predicate NamesDistinct(tensors: seq<TensorMeta>) {
    forall i, j :: 0 <= i < j < |tensors| ==> tensors[i].name != tensors[j].name
  }

  /** The views of the first `k` tensors of a block in a buffer at `slotBase`. */
  ghost predicate ViewsUpTo(meta: BlockMeta, k: nat, slotBase: nat, views: map<string, View>) {
    && k <= |meta.tensors|
    && (forall name :: name in views <==> exists i :: 0 <= i < k && meta.tensors[i].name == name)
    && forall i :: 0 <= i < k ==>
         var t := meta.tensors[i];
         && t.name in views && views[t.name].devicePtr == slotBase + WithinBlock(meta, i)
         && views[t.name].dtype == t.dtype && views[t.name].shape == t.shape
  }

  lemma ViewsStep(meta: BlockMeta, k: nat, slotBase: nat, views: map<string, View>, view: View)
    requires NamesDistinct(meta.tensors) && k < |meta.tensors| && ViewsUpTo(meta, k, slotBase, views)
    requires view.devicePtr == slotBase + WithinBlock(meta, k)
    requires view.dtype == meta.tensors[k].dtype && view.shape == meta.tensors[k].shape
    ensures ViewsUpTo(meta, k + 1, slotBase, views[meta.tensors[k].name := view])
  {
  }

  method BuildTensors(layout: Layout, id: string, slotBase: nat) returns (r: Result<map<string, View>, EngineError>)
    requires id in layout.blocks ==> NamesDistinct(layout.blocks[id].tensors)
    ensures r.Ok? <==>
      && id in layout.blocks
      && forall i :: 0 <= i < |layout.blocks[id].tensors| ==> Supported(layout.blocks[id].tensors[i].dtype)
    ensures r.Ok? ==> ViewsUpTo(layout.blocks[id], |layout.blocks[id].tensors|, slotBase, r.value)
    ensures r.Err? ==> if id in layout.blocks then r.error.UnsupportedDtype? else r.error == UnknownBlock(id)
  {
    if id !in layout.blocks {
      return Err(UnknownBlock(id));
    }
    var meta := layout.blocks[id];
    var start := MinStart(meta);
    var views: map<string, View> := map[];
    for k := 0 to |meta.tensors|
      invariant ViewsUpTo(meta, k, slotBase, views)
      invariant forall i :: 0 <= i < k ==> Supported(meta.tensors[i].dtype)
    {
      var t := meta.tensors[k];
      LeastIsLeast(meta.tensors, k);
      if !Supported(t.dtype) {
        return Err(UnsupportedDtype(t.name, t.dtype));
      }
      var view := View(slotBase + (t.pinnedOffset - start), t.dtype, t.shape);
      ViewsStep(meta, k, slotBase, views, view);
      views := views[t.name := view];
    }
    return Ok(views);
  }
}
