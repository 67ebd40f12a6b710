/** Explicit copies of a block: the tensors one after another, their layout, and
    what happens to a block that was edited by hand. */
module Copies {
  import opened Common
  import opened Errors
  import opened Shards
  import opened Checkpoint
  import opened Blocks
  import opened Grouping
  import opened Lookup
  import opened Models

  datatype TensorLayout = TensorLayout(name: string, offset: nat, len: nat)

  datatype CopiedBlock = CopiedBlock(buffer: seq<byte>, layout: seq<TensorLayout>, bytesCopied: nat)

  /** What a call does that may also slice out of bounds. */
  datatype Outcome<T> = Returned(result: Result<T, LoaderError>) | Panicked

  // ------------------------------------------------------------------ layout

  function Lengths(tensors: seq<Descriptor>): seq<nat> {
    seq(|tensors|, k requires 0 <= k < |tensors| => tensors[k].byteLen)
  }

  function Total(tensors: seq<Descriptor>): nat {
    Sum(Lengths(tensors))
  }

  lemma TotalStep(tensors: seq<Descriptor>, k: nat)
    requires k < |tensors|
    ensures tensors[..k + 1] == tensors[..k] + [tensors[k]]
    ensures Total(tensors[..k + 1]) == Total(tensors[..k]) + tensors[k].byteLen
  {
    var a := Lengths(tensors[..k + 1]);
    assert a[..|a| - 1] == Lengths(tensors[..k]);
  }

  lemma {:induction false} TotalMonotone(tensors: seq<Descriptor>, k: nat)
    requires k <= |tensors|
    ensures Total(tensors[..k]) <= Total(tensors)
    decreases |tensors| - k
  {
    if k < |tensors| {
      TotalStep(tensors, k);
      TotalMonotone(tensors, k + 1);
    } else {
      assert tensors[..k] == tensors;
    }
  }

  /** The block's tensors one after another. */
  ghost function Contents(m: Model, tensors: seq<Descriptor>): (bytes: seq<byte>)
    requires Readable(m) && InTable(m, tensors)
  {
    if tensors == [] then []
    else Contents(m, tensors[..|tensors| - 1]) + TensorBytes(m, tensors[|tensors| - 1].name).value
  }

  lemma {:induction false} ContentsLength(m: Model, tensors: seq<Descriptor>)
    requires Readable(m) && InTable(m, tensors)
    ensures |Contents(m, tensors)| == Total(tensors)
  {
    if tensors != [] {
      var front := tensors[..|tensors| - 1];
      ContentsLength(m, front);
      TotalStep(tensors, |tensors| - 1);
      assert tensors[..|tensors|] == tensors;
      assert tensors[|tensors| - 1] in tensors;
    }
  }

  /** Prefix sums of the lengths. */
  ghost predicate LaidOut(tensors: seq<Descriptor>, layout: seq<TensorLayout>) {
    |layout| == |tensors| && forall k :: 0 <= k < |layout| ==>
      layout[k] == TensorLayout(tensors[k].name, Total(tensors[..k]), tensors[k].byteLen)
  }

  lemma SliceOfFront(a: seq<byte>, b: seq<byte>, start: nat, end: nat)
    requires start <= end <= |a|
    ensures (a + b)[start..end] == a[start..end]
  {
  }

  lemma SliceOfBack(a: seq<byte>, b: seq<byte>)
    ensures (a + b)[|a|..|a| + |b|] == b
  {
  }

  /** The part of the contents a layout entry names is the tensor's bytes. */
  lemma {:induction false} LayoutFinds(m: Model, tensors: seq<Descriptor>, k: nat)
    requires Readable(m) && InTable(m, tensors) && k < |tensors|
    ensures var start := Total(tensors[..k]);
      && start + tensors[k].byteLen <= |Contents(m, tensors)|
      && Contents(m, tensors)[start..start + tensors[k].byteLen] == TensorBytes(m, tensors[k].name).value
  {
    var n := |tensors| - 1;
    var front := tensors[..n];
    assert tensors[n] in tensors;
    ContentsLength(m, front);
    var last := TensorBytes(m, tensors[n].name).value;
    assert Contents(m, tensors) == Contents(m, front) + last;
    if k == n {
      SliceOfBack(Contents(m, front), last);
    } else {
      LayoutFinds(m, front, k);
      assert front[..k] == tensors[..k];
      var start := Total(tensors[..k]);
      SliceOfFront(Contents(m, front), last, start, start + tensors[k].byteLen);
    }
  }

  // ------------------------------------------------------------------ copies

  /** `dest[start..start + |bytes|].copy_from_slice(bytes)`. */
  method CopyFromSlice(dest: array<byte>, start: nat, bytes: seq<byte>)
    requires start + |bytes| <= dest.Length
    modifies dest
    ensures dest[..] == old(dest[..])[..start] + bytes + old(dest[..])[start + |bytes|..]
  {
    for k := 0 to |bytes|
      invariant dest[..start] == old(dest[..start])
      invariant dest[start..start + k] == bytes[..k]
      invariant dest[start + k..] == old(dest[start + k..])
    {
      dest[start + k] := bytes[k];
    }
  }

  ghost function Overlay(dest: seq<byte>, at: nat, bytes: seq<byte>): (r: seq<byte>)
    requires at + |bytes| <= |dest|
    ensures |r| == |dest|
  {
    dest[..at] + bytes + dest[at + |bytes|..]
  }

  /** The model knows tensor `k`, and its bytes fit a slice of `room` bytes at the
      place the listed lengths give it. */
  predicate Lands(m: Model, tensors: seq<Descriptor>, k: nat, room: nat)
    requires Indexed(m) && k < |tensors|
  {
    var bytes := TensorBytes(m, tensors[k].name);
    bytes.Ok? && Total(tensors[..k]) + |bytes.value| <= room
  }

  ghost predicate AllLand(m: Model, tensors: seq<Descriptor>, k: nat, room: nat)
    requires Indexed(m)
  {
    k <= |tensors| && forall j :: 0 <= j < k ==> Lands(m, tensors, j, room)
  }

  /** The destination once `k` tensors have been written to the slice from `lo`
      on; where listed lengths are too short, later tensors overwrite earlier ones. */
  ghost function Written(m: Model, tensors: seq<Descriptor>, k: nat, before: seq<byte>, lo: nat,
                         room: nat): (r: seq<byte>)
    requires Indexed(m) && AllLand(m, tensors, k, room) && lo + room <= |before|
    ensures |r| == |before|
  {
    if k == 0 then before
    else
      assert Lands(m, tensors, k - 1, room);
      Overlay(Written(m, tensors, k - 1, before, lo, room), lo + Total(tensors[..k - 1]),
        TensorBytes(m, tensors[k - 1].name).value)
  }

  /** How a copy ends after `k` tensors: with the layout when there are no more, at
      a tensor the model does not know, or by slicing past the end. */
  ghost predicate Ends(m: Model, tensors: seq<Descriptor>, k: nat, room: nat, r: Outcome<seq<TensorLayout>>)
    requires Indexed(m)
  {
    && AllLand(m, tensors, k, room)
    && if k == |tensors| then r.Returned? && r.result.Ok? && LaidOut(tensors, r.result.value)
       else if tensors[k].name !in m.tensors then r == Returned(Err(TensorNotFound(tensors[k].name)))
       else !Lands(m, tensors, k, room) && r == Panicked
  }

  ghost predicate CopyEnds(m: Model, tensors: seq<Descriptor>, before: seq<byte>, lo: nat, room: nat,
                           r: Outcome<seq<TensorLayout>>, after: seq<byte>)
    requires Indexed(m)
  {
    lo + room <= |before| &&
    exists k: nat :: Ends(m, tensors, k, room, r) && after == Written(m, tensors, k, before, lo, room)
  }

  lemma LaidOutStep(tensors: seq<Descriptor>, k: nat, layout: seq<TensorLayout>)
    requires k < |tensors| && LaidOut(tensors[..k], layout)
    ensures LaidOut(tensors[..k + 1], layout + [TensorLayout(tensors[k].name, Total(tensors[..k]), tensors[k].byteLen)])
  {
    forall j | 0 <= j < k ensures tensors[..k + 1][..j] == tensors[..k][..j] && tensors[..k + 1][j] == tensors[..k][j] {
    }
    assert tensors[..k + 1][..k] == tensors[..k];
  }

  lemma LandsNext(m: Model, tensors: seq<Descriptor>, k: nat, room: nat)
    requires Indexed(m) && k < |tensors| && AllLand(m, tensors, k, room) && Lands(m, tensors, k, room)
    ensures AllLand(m, tensors, k + 1, room)
  {
  }

  method CopyTensors(m: Model, tensors: seq<Descriptor>, dest: array<byte>, lo: nat, hi: nat)
    returns (r: Outcome<seq<TensorLayout>>)
    requires Readable(m) && lo <= hi <= dest.Length
    modifies dest
    ensures CopyEnds(m, tensors, old(dest[..]), lo, hi - lo, r, dest[..])
  {
    var layout: seq<TensorLayout> := [];
    var offset: nat := 0;
    ghost var before, room := dest[..], hi - lo;
    for k := 0 to |tensors|
      invariant offset == Total(tensors[..k]) && LaidOut(tensors[..k], layout)
      invariant AllLand(m, tensors, k, room)
      invariant dest[..] == Written(m, tensors, k, before, lo, room)
    {
      var d := tensors[k];
      var bytes := TensorBytes(m, d.name);
      if bytes.Err? {
        r := Returned(Err(bytes.error));
        assert Ends(m, tensors, k, room, r);
        return;
      }
      if offset + |bytes.value| > hi - lo {
        r := Panicked;
        assert Ends(m, tensors, k, room, r);
        return;
      }
      LandsNext(m, tensors, k, room);
      LaidOutStep(tensors, k, layout);
      TotalStep(tensors, k);
      CopyFromSlice(dest, lo + offset, bytes.value);
      layout := layout + [TensorLayout(d.name, offset, d.byteLen)];
      offset := offset + d.byteLen;
    }
    assert tensors[..|tensors|] == tensors;
    r := Returned(Ok(layout));
    assert Ends(m, tensors, |tensors|, room, r);
  }

  // ---------------------------------------------- blocks with the right lengths

  lemma InTableStep(m: Model, tensors: seq<Descriptor>, k: nat)
    requires k < |tensors| && InTable(m, tensors[..k])
    requires tensors[k].name in m.tensors && m.tensors[tensors[k].name].byteLen == tensors[k].byteLen
    ensures InTable(m, tensors[..k + 1])
  {
    assert tensors[..k + 1] == tensors[..k] + [tensors[k]];
  }

  lemma BytesStep(m: Model, tensors: seq<Descriptor>, k: nat, before: seq<byte>, lo: nat, after: seq<byte>,
                  after': seq<byte>)
    requires Readable(m) && k < |tensors| && InTable(m, tensors[..k]) && InTable(m, tensors[..k + 1])
    requires tensors[k].name in m.tensors
    requires var offset, bytes := Total(tensors[..k]), TensorBytes(m, tensors[k].name).value;
      && lo + offset + |bytes| <= |before|
      && after == before[..lo] + Contents(m, tensors[..k]) + before[lo + offset..]
      && lo + offset + |bytes| <= |after|
      && after' == after[..lo + offset] + bytes + after[lo + offset + |bytes|..]
    ensures var offset, bytes := Total(tensors[..k]), TensorBytes(m, tensors[k].name).value;
      after' == before[..lo] + Contents(m, tensors[..k + 1]) + before[lo + offset + |bytes|..]
  {
    assert tensors[..k + 1][..k] == tensors[..k];
    ContentsLength(m, tensors[..k]);
    Splice(before, lo, Contents(m, tensors[..k]), TensorBytes(m, tensors[k].name).value);
  }

  lemma Splice(before: seq<byte>, lo: nat, done: seq<byte>, more: seq<byte>)
    requires lo + |done| + |more| <= |before|
    ensures var after := before[..lo] + done + before[lo + |done|..];
      after[..lo + |done|] + more + after[lo + |done| + |more|..] ==
        before[..lo] + (done + more) + before[lo + |done| + |more|..]
  {
  }

  lemma KnownLength(m: Model, tensors: seq<Descriptor>, k: nat)
    requires Readable(m) && LengthsAgree(m, tensors) && k < |tensors| && tensors[k].name in m.tensors
    ensures m.tensors[tensors[k].name].byteLen == tensors[k].byteLen
    ensures TensorBytes(m, tensors[k].name).Ok? && |TensorBytes(m, tensors[k].name).value| == tensors[k].byteLen
  {
    assert tensors[k] in tensors;
  }

  lemma KnownLands(m: Model, tensors: seq<Descriptor>, k: nat, room: nat)
    requires Readable(m) && LengthsAgree(m, tensors) && Total(tensors) <= room
    requires k < |tensors| && tensors[k].name in m.tensors
    ensures Lands(m, tensors, k, room)
  {
    KnownLength(m, tensors, k);
    TotalStep(tensors, k);
    TotalMonotone(tensors, k + 1);
  }

  lemma WrittenNext(m: Model, tensors: seq<Descriptor>, j: nat, k: nat, before: seq<byte>, lo: nat, room: nat)
    requires Readable(m) && LengthsAgree(m, tensors) && Total(tensors) <= room && lo + room <= |before|
    requires k == j + 1 && AllLand(m, tensors, k, room) && InTable(m, tensors[..j]) && Total(tensors[..j]) <= room
    requires Written(m, tensors, j, before, lo, room)
      == before[..lo] + Contents(m, tensors[..j]) + before[lo + Total(tensors[..j])..]
    ensures InTable(m, tensors[..k]) && Total(tensors[..k]) <= room
    ensures Written(m, tensors, k, before, lo, room)
      == before[..lo] + Contents(m, tensors[..k]) + before[lo + Total(tensors[..k])..]
  {
    assert Lands(m, tensors, j, room);
    KnownLength(m, tensors, j);
    InTableStep(m, tensors, j);
    TotalStep(tensors, j);
    BytesStep(m, tensors, j, before, lo, Written(m, tensors, j, before, lo, room),
      Written(m, tensors, k, before, lo, room));
  }

  /** With the table's lengths, what is written is the contents. */
  lemma {:induction false} WrittenIsContents(m: Model, tensors: seq<Descriptor>, k: nat, before: seq<byte>, lo: nat,
                                             room: nat)
    requires Readable(m) && LengthsAgree(m, tensors) && Total(tensors) <= room && lo + room <= |before|
    requires AllLand(m, tensors, k, room)
    ensures InTable(m, tensors[..k]) && Total(tensors[..k]) <= room
    ensures Written(m, tensors, k, before, lo, room)
      == before[..lo] + Contents(m, tensors[..k]) + before[lo + Total(tensors[..k])..]
  {
    TotalMonotone(tensors, k);
    if k > 0 {
      WrittenIsContents(m, tensors, k - 1, before, lo, room);
      WrittenNext(m, tensors, k - 1, k, before, lo, room);
    }
  }

  /** A block with the table's lengths is copied whole: the concatenated views fill
      the beginning of the slice and everything else stays. */
  ghost predicate CopiedWhole(m: Model, tensors: seq<Descriptor>, before: seq<byte>, lo: nat,
                              r: Outcome<seq<TensorLayout>>, after: seq<byte>)
    requires Readable(m) && InTable(m, tensors)
  {
    && r.Returned? && r.result.Ok? && LaidOut(tensors, r.result.value)
    && lo + Total(tensors) <= |before|
    && after == before[..lo] + Contents(m, tensors) + before[lo + Total(tensors)..]
  }

  lemma KnownEnds(m: Model, tensors: seq<Descriptor>, k: nat, room: nat, r: Outcome<seq<TensorLayout>>)
    requires Readable(m) && InTable(m, tensors) && Total(tensors) <= room && Ends(m, tensors, k, room, r)
    ensures k == |tensors|
  {
    if k < |tensors| {
      assert tensors[k] in tensors;
      KnownLands(m, tensors, k, room);
    }
  }

  lemma WholeCopy(m: Model, tensors: seq<Descriptor>, before: seq<byte>, lo: nat, room: nat,
                  r: Outcome<seq<TensorLayout>>, after: seq<byte>)
    requires Readable(m) && InTable(m, tensors) && Total(tensors) <= room &&
      CopyEnds(m, tensors, before, lo, room, r, after)
    ensures CopiedWhole(m, tensors, before, lo, r, after)
  {
    var k: nat :| Ends(m, tensors, k, room, r) && after == Written(m, tensors, k, before, lo, room);
    KnownEnds(m, tensors, k, room, r);
    WrittenIsContents(m, tensors, |tensors|, before, lo, room);
    assert tensors[..|tensors|] == tensors;
  }

  /** With the table's lengths a copy never slices out of bounds. */
  lemma NeverPanics(m: Model, tensors: seq<Descriptor>, before: seq<byte>, lo: nat, room: nat,
                    r: Outcome<seq<TensorLayout>>, after: seq<byte>)
    requires Readable(m) && LengthsAgree(m, tensors) && Total(tensors) <= room
    requires CopyEnds(m, tensors, before, lo, room, r, after)
    ensures r.Returned?
  {
    var k: nat :| Ends(m, tensors, k, room, r) && after == Written(m, tensors, k, before, lo, room);
    if k < |tensors| && tensors[k].name in m.tensors {
      KnownLands(m, tensors, k, room);
    }
  }

  /** Copying a block into a caller's buffer, the slice `[lo, hi)` of `dest`.  A
      block of another model, or a slice smaller than the listed lengths, is
      refused with nothing written.  Otherwise the tensors' bytes go to the places
      the listed lengths give them, up to the first the model does not know or that
      does not fit there. */
  method CopyBlockInto(m: Model, b: Block, dest: array<byte>, lo: nat, hi: nat) returns (r: Outcome<seq<TensorLayout>>)
    requires Readable(m) && lo <= hi <= dest.Length
    modifies dest
    ensures b.modelId != m.id ==> r == Returned(Err(BlockFromDifferentModel(b.id))) && dest[..] == old(dest[..])
    ensures b.modelId == m.id && hi - lo < Total(b.tensors) ==>
      r == Returned(Err(DestinationTooSmall(Total(b.tensors), hi - lo))) && dest[..] == old(dest[..])
    ensures b.modelId == m.id && Total(b.tensors) <= hi - lo ==>
      CopyEnds(m, b.tensors, old(dest[..]), lo, hi - lo, r, dest[..])
    ensures b.modelId == m.id && Total(b.tensors) <= hi - lo && InTable(m, b.tensors) ==>
      CopiedWhole(m, b.tensors, old(dest[..]), lo, r, dest[..])
    ensures LengthsAgree(m, b.tensors) ==> r.Returned?
  {
    var refused := CheckProvenance(m, b);
    if refused.Some? {
      return Returned(Err(refused.value));
    }
    var total := Total(b.tensors);
    if hi - lo < total {
      return Returned(Err(DestinationTooSmall(total, hi - lo)));
    }
    ghost var before := dest[..];
    r := CopyTensors(m, b.tensors, dest, lo, hi);
    if InTable(m, b.tensors) {
      WholeCopy(m, b.tensors, before, lo, hi - lo, r, dest[..]);
    }
    if LengthsAgree(m, b.tensors) {
      NeverPanics(m, b.tensors, before, lo, hi - lo, r, dest[..]);
    }
  }

  /** A buffer of zeros. */
  function Zeros(n: nat): seq<byte> {
    seq(n, _ => 0)
  }

  /** The same in a buffer of exactly the listed size. */
  method CopyBlock(m: Model, b: Block) returns (r: Outcome<CopiedBlock>)
    requires Readable(m)
    ensures b.modelId != m.id ==> r == Returned(Err(BlockFromDifferentModel(b.id)))
    ensures b.modelId == m.id ==>
      exists copied: Outcome<seq<TensorLayout>>, buffer ::
        && CopyEnds(m, b.tensors, Zeros(Total(b.tensors)), 0, Total(b.tensors), copied, buffer)
        && r == match copied
                case Returned(Ok(layout)) => Returned(Ok(CopiedBlock(buffer, layout, Total(b.tensors))))
                case Returned(Err(error)) => Returned(Err(error))
                case Panicked => Panicked
    ensures b.modelId == m.id && InTable(m, b.tensors) ==>
      && r.Returned? && r.result.Ok?
      && r.result.value.buffer == Contents(m, b.tensors) && LaidOut(b.tensors, r.result.value.layout)
      && r.result.value.bytesCopied == |r.result.value.buffer|
  {
    var refused := CheckProvenance(m, b);
    if refused.Some? {
      return Returned(Err(refused.value));
    }
    var total := Total(b.tensors);
    var buffer := new byte[total](_ => 0);
    assert buffer[..] == Zeros(total);
    var copied := CopyBlockInto(m, b, buffer, 0, total);
    if InTable(m, b.tensors) {
      ContentsLength(m, b.tensors);
    }
    match copied {
      case Returned(Ok(layout)) => r := Returned(Ok(CopiedBlock(buffer[..], layout, total)));
      case Returned(Err(error)) => r := Returned(Err(error));
      case Panicked => r := Panicked;
    }
  }

  /** Two models opened in one process never share an id: a block of the second is
      refused by the first, for views and for copies, and accepted by the second. */
  method ForeignBlock(ids: ModelIds, first: Input, second: Input, maxHeaderBytes: nat, config: BlockConfig,
                      blockId: string)
    returns (asked: bool, foreign: Result<seq<(string, seq<byte>)>, LoaderError>,
             own: Result<seq<(string, seq<byte>)>, LoaderError>, copied: Outcome<CopiedBlock>,
             ghost files: seq<File>, ghost m: Model, ghost descs: seq<Descriptor>)
    requires Conforming(first) && Conforming(second)
    modifies ids
    ensures Opens(first, maxHeaderBytes) && Opens(second, maxHeaderBytes) ==>
      Built(m, files, maxHeaderBytes) && Holds(second, files, m.tensors) && InNameOrder(m, descs)
    ensures asked <==>
      Opens(first, maxHeaderBytes) && Opens(second, maxHeaderBytes) && FindBlock(descs, config, blockId).Some?
    ensures asked ==>
      && foreign == Err(BlockFromDifferentModel(blockId)) && copied == Returned(Err(BlockFromDifferentModel(blockId)))
      && own.Ok?
  {
    asked, foreign, own, copied := false, Ok([]), Ok([]), Panicked;
    files, m, descs := [], Model(0, [], map[]), [];
    var a, filesA := OpenWith(ids, first, maxHeaderBytes);
    if a.Err? {
      return;
    }
    var b, filesB := OpenWith(ids, second, maxHeaderBytes);
    if b.Err? {
      return;
    }
    BuiltIsReadable(a.value, filesA, maxHeaderBytes);
    BuiltIsReadable(b.value, filesB, maxHeaderBytes);
    var block, listed := ModelBlock(b.value, config, blockId);
    files, m, descs := filesB, b.value, listed;
    if block.Err? {
      return;
    }
    FoundHasId(descs, config, blockId);
    asked := true;
    foreign := BlockViews(a.value, block.value);
    own := BlockViews(b.value, block.value);
    copied := CopyBlock(a.value, block.value);
  }

  lemma FoundHasId(descs: seq<Descriptor>, config: BlockConfig, id: string)
    requires FindBlock(descs, config, id).Some?
    ensures FindBlock(descs, config, id).value.id == id
  {
    if id != UNASSIGNED {
      FamiliesFindId(descs, config, config.families, id);
    }
  }

  lemma {:induction false} FamiliesFindId(descs: seq<Descriptor>, config: BlockConfig, families: seq<string>,
                                          id: string)
    requires FindInFamilies(descs, config, families, id).Some?
    ensures FindInFamilies(descs, config, families, id).value.id == id
  {
    var idx := IndexIn(families[0], id);
    if !(idx.Some? && Members(descs, config, Some((families[0], idx.value))) != []) {
      FamiliesFindId(descs, config, families[1..], id);
    }
  }
}
