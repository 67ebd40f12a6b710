/** An opened checkpoint: its tensors, its blocks and byte views of them. */
module Models {
  import opened Common
  import opened Errors
  import opened Names
  import opened Shards
  import opened Checkpoint
  import opened Blocks
  import opened Grouping
  import opened Lookup

  datatype Model = Model(id: nat, shards: seq<Shard>, tensors: Table)

  /** Where the files come from: path resolution is not part of this model, so an
      index comes with its resolver. */
  datatype Input =
    | SingleFile(file: File)
    | Index(weightMap: map<string, string>, resolve: map<string, Result<File, LoaderError>>)
    | ImplicitShards(files: seq<File>)

  /** The process-wide counter of model ids. */
  class ModelIds {
    var next: nat

    constructor ()
      ensures next == 1
    {
      next := 1;
    }
  }

  // ----------------------------------------------------------------- opening

  /** The model's shards are `files`, and its table locates its tensors in them. */
  ghost predicate Built(m: Model, files: seq<File>, maxHeaderBytes: nat) {
    Opened(files, maxHeaderBytes, m.shards) && TableOf(files, maxHeaderBytes, m.tensors)
  }

  ghost predicate Conforming(input: Input) {
    match input
    case SingleFile(file) => HeaderContract(file)
    case Index(weightMap, resolve) => Resolver(weightMap, resolve)
    case ImplicitShards(files) => forall k :: 0 <= k < |files| ==> HeaderContract(files[k])
  }

  /** When opening succeeds. */
  ghost predicate Opens(input: Input, maxHeaderBytes: nat)
    requires Conforming(input)
  {
    match input
    case SingleFile(file) => Open(file, maxHeaderBytes).Ok?
    case Index(weightMap, resolve) => IndexAgrees(weightMap, resolve, maxHeaderBytes)
    case ImplicitShards(files) => AllOpen(files, maxHeaderBytes) && NamesDisjoint(files)
  }

  /** Why it fails: the file's own error, the first shard at odds with the index, or
      the first file that does not open or repeats a name. */
  ghost predicate OpenFails(input: Input, maxHeaderBytes: nat, error: LoaderError)
    requires Conforming(input)
  {
    match input
    case SingleFile(file) => Open(file, maxHeaderBytes) == Err(error)
    case Index(weightMap, resolve) => exists raw ::
      && FirstDisagreeing(weightMap, resolve, maxHeaderBytes, raw)
      && ShardFails(weightMap, raw, resolve[raw], maxHeaderBytes, error)
    case ImplicitShards(files) => exists k: nat :: ImplicitFails(files, maxHeaderBytes, k, error)
  }

  /** What the table then holds. */
  ghost predicate Holds(input: Input, files: seq<File>, tensors: Table)
    requires Conforming(input)
  {
    match input
    case SingleFile(file) => files == [file] && file.header.Some? && tensors.Keys == NamesIn(file)
    case Index(weightMap, resolve) => FollowsIndex(weightMap, resolve, files, tensors)
    case ImplicitShards(siblings) =>
      && files == siblings && (forall k :: 0 <= k < |files| ==> files[k].header.Some?)
      && Complete(files, tensors)
  }

  method OpenSingle(file: File, maxHeaderBytes: nat) returns (r: Result<(seq<Shard>, Table), LoaderError>)
    requires HeaderContract(file)
    ensures r.Ok? <==> Open(file, maxHeaderBytes).Ok?
    ensures r.Err? ==> Open(file, maxHeaderBytes) == Err(r.error)
    ensures r.Ok? ==>
      && Opened([file], maxHeaderBytes, r.value.0) && TableOf([file], maxHeaderBytes, r.value.1)
      && file.header.Some? && r.value.1.Keys == NamesIn(file)
  {
    r := AddWholeFile(file, maxHeaderBytes, [], [], map[]);
    if r.Ok? {
      assert [] + [file] == [file];
      ghost var names :| Grown(map[], names, 0, r.value.1) && forall t :: t in names <==> t in NamesIn(file);
    }
  }

  method OpenInput(input: Input, maxHeaderBytes: nat)
    returns (r: Result<(seq<Shard>, Table), LoaderError>, ghost files: seq<File>)
    requires Conforming(input)
    ensures r.Ok? <==> Opens(input, maxHeaderBytes)
    ensures r.Err? ==> OpenFails(input, maxHeaderBytes, r.error)
    ensures r.Ok? ==>
      && Opened(files, maxHeaderBytes, r.value.0) && TableOf(files, maxHeaderBytes, r.value.1)
      && Holds(input, files, r.value.1)
  {
    match input {
      case SingleFile(file) =>
        files := [file];
        r := OpenSingle(file, maxHeaderBytes);
      case Index(weightMap, resolve) =>
        r, files := OpenIndex(weightMap, resolve, maxHeaderBytes);
      case ImplicitShards(siblings) =>
        files := siblings;
        r := OpenImplicit(siblings, maxHeaderBytes);
    }
  }

  /** A model opens exactly when its input agrees with itself, and takes an id of
      its own; a failure takes none. */
  method OpenWith(ids: ModelIds, input: Input, maxHeaderBytes: nat)
    returns (r: Result<Model, LoaderError>, ghost files: seq<File>)
    requires Conforming(input)
    modifies ids
    ensures r.Ok? <==> Opens(input, maxHeaderBytes)
    ensures r.Err? ==> OpenFails(input, maxHeaderBytes, r.error)
    ensures r.Ok? ==>
      && Built(r.value, files, maxHeaderBytes) && Holds(input, files, r.value.tensors)
      && r.value.id == old(ids.next)
    ensures ids.next == old(ids.next) + if r.Ok? then 1 else 0
  {
    var result, located := OpenInput(input, maxHeaderBytes);
    files := located;
    if result.Err? {
      return Err(result.error), files;
    }
    var id := ids.next;
    ids.next := ids.next + 1;
    return Ok(Model(id, result.value.0, result.value.1)), files;
  }

  // ------------------------------------------------------------------- bytes

  ghost predicate Indexed(m: Model) {
    forall t :: t in m.tensors ==> m.tensors[t].shardId < |m.shards|
  }

  function TensorBytes(m: Model, name: string): Result<seq<byte>, LoaderError>
    requires Indexed(m)
  {
    if name !in m.tensors then Err(TensorNotFound(name))
    else
      var d := m.tensors[name];
      ByteRange(m.shards[d.shardId], name, d.fileOffset, d.fileOffset + d.byteLen)
  }

  /** A known tensor's bytes are the payload its file's header assigns to it;
      the range neither overflows nor leaves the file. */
  lemma TensorBytesArePayload(m: Model, files: seq<File>, maxHeaderBytes: nat, name: string)
    requires Built(m, files, maxHeaderBytes)
    ensures Indexed(m)
    ensures name !in m.tensors ==> TensorBytes(m, name) == Err(TensorNotFound(name))
    ensures name in m.tensors ==>
      var d := m.tensors[name];
      && d.name == name && d.shardId < |files| && d.fileOffset + d.byteLen <= |files[d.shardId].bytes| < U64_LIMIT
      && HeaderContract(files[d.shardId]) && files[d.shardId].header.Some? && name in NamesIn(files[d.shardId])
      && d.dtype == files[d.shardId].header.value.metadata[name].dtype
      && d.shape == files[d.shardId].header.value.metadata[name].shape
      && TensorBytes(m, name) == Ok(Payload(files[d.shardId], name))
      && |Payload(files[d.shardId], name)| == d.byteLen
  {
    if name in m.tensors {
      var d := m.tensors[name];
      assert Locates(d, files[d.shardId], maxHeaderBytes, d.shardId, name);
      RangesAreSafe(files[d.shardId], maxHeaderBytes);
    }
  }

  /** Every known tensor has its bytes, as many as its descriptor says. */
  ghost predicate Readable(m: Model) {
    && Indexed(m)
    && forall t :: t in m.tensors ==>
         && m.tensors[t].name == t
         && TensorBytes(m, t).Ok? && |TensorBytes(m, t).value| == m.tensors[t].byteLen
  }

  lemma BuiltIsReadable(m: Model, files: seq<File>, maxHeaderBytes: nat)
    requires Built(m, files, maxHeaderBytes)
    ensures Readable(m)
  {
    forall t | t in m.tensors
      ensures m.tensors[t].name == t
      ensures Indexed(m) && TensorBytes(m, t).Ok? && |TensorBytes(m, t).value| == m.tensors[t].byteLen
    {
      TensorBytesArePayload(m, files, maxHeaderBytes, t);
    }
  }

  // ------------------------------------------------------------------ blocks

  /** The table's descriptors of the listed names. */
  ghost predicate Follows(m: Model, names: seq<string>, descs: seq<Descriptor>) {
    |descs| == |names| && forall k :: 0 <= k < |names| ==> names[k] in m.tensors && descs[k] == m.tensors[names[k]]
  }

  /** The table's descriptors in name order. */
  ghost predicate InNameOrder(m: Model, descs: seq<Descriptor>) {
    exists names :: Listing(names, m.tensors.Keys) && Follows(m, names, descs)
  }

  method Descriptors(m: Model) returns (descs: seq<Descriptor>)
    ensures InNameOrder(m, descs)
  {
    var names := SortNames(m.tensors.Keys);
    descs := [];
    for k := 0 to |names|
      invariant |descs| == k
      invariant forall j :: 0 <= j < k ==> names[j] in m.tensors && descs[j] == m.tensors[names[j]]
    {
      assert names[k] in m.tensors.Keys;
      descs := descs + [m.tensors[names[k]]];
    }
    assert Follows(m, names, descs);
  }

  ghost predicate AllKnown(m: Model, tensors: seq<Descriptor>) {
    forall d :: d in tensors ==> d.name in m.tensors
  }

  /** Known tensors are listed with the table's lengths. */
  ghost predicate LengthsAgree(m: Model, tensors: seq<Descriptor>) {
    forall d :: d in tensors && d.name in m.tensors ==> m.tensors[d.name].byteLen == d.byteLen
  }

  ghost predicate InTable(m: Model, tensors: seq<Descriptor>) {
    AllKnown(m, tensors) && LengthsAgree(m, tensors)
  }

  /** A block of this model: stamped with its id, its descriptors from its table. */
  ghost predicate Of(m: Model, b: Block) {
    b.modelId == m.id && forall d :: d in b.tensors ==> d.name in m.tensors && m.tensors[d.name] == d
  }

  function Stamped(m: Model, b: Block): Block {
    b.(modelId := m.id)
  }

  lemma FiledIsOurs(m: Model, descs: seq<Descriptor>, config: BlockConfig, b: Block)
    requires Readable(m) && InNameOrder(m, descs) && Filed(descs, config, b)
    ensures Of(m, Stamped(m, b))
  {
    forall d | d in b.tensors ensures d.name in m.tensors && m.tensors[d.name] == d {
      MemberHasKey(descs, config, KeyOf(b), d);
    }
  }

  ghost predicate StampedFrom(m: Model, out: seq<Block>, blocks: seq<Block>) {
    |blocks| == |out| && forall k :: 0 <= k < |blocks| ==> blocks[k] == Stamped(m, out[k]) && Of(m, blocks[k])
  }

  lemma AllOurs(m: Model, descs: seq<Descriptor>, config: BlockConfig, out: seq<Block>)
    requires Readable(m) && InNameOrder(m, descs) && AllFiled(descs, config, out)
    ensures forall k :: 0 <= k < |out| ==> Of(m, Stamped(m, out[k]))
  {
    forall k | 0 <= k < |out| ensures Of(m, Stamped(m, out[k])) {
      assert out[k] in out;
      FiledIsOurs(m, descs, config, out[k]);
    }
  }

  ghost predicate GroupingOf(descs: seq<Descriptor>, config: BlockConfig, out: seq<Block>) {
    Grouped(descs, config, out) && Sectioned(descs, config, out)
  }

  /** `blocks` is the grouping of the model's tensors in name order, each block stamped. */
  ghost predicate BlocksOf(m: Model, config: BlockConfig, blocks: seq<Block>) {
    exists descs, out :: InNameOrder(m, descs) && GroupingOf(descs, config, out) && StampedFrom(m, out, blocks)
  }

  method ModelBlocks(m: Model, config: BlockConfig) returns (blocks: seq<Block>)
    requires Readable(m)
    ensures BlocksOf(m, config, blocks)
  {
    var all := Descriptors(m);
    var grouped := GroupBlocks(all, config);
    AllOurs(m, all, config, grouped);
    blocks := seq(|grouped|, k requires 0 <= k < |grouped| => Stamped(m, grouped[k]));
    assert StampedFrom(m, grouped, blocks);
  }

  lemma FoundIsFiled(descs: seq<Descriptor>, config: BlockConfig, families: seq<string>, id: string)
    requires FindInFamilies(descs, config, families, id).Some?
    ensures var b := FindInFamilies(descs, config, families, id).value;
      b.index.Some? && b.tensors == Members(descs, config, KeyOf(b))
  {
  }

  /** One block by id, without building the others. */
  method ModelBlock(m: Model, config: BlockConfig, id: string)
    returns (r: Result<Block, LoaderError>, ghost descs: seq<Descriptor>)
    requires Readable(m)
    ensures InNameOrder(m, descs)
    ensures r ==
      match FindBlock(descs, config, id) case Some(b) => Ok(Stamped(m, b)) case None => Err(BlockNotFound(id))
    ensures r.Ok? ==> Of(m, r.value)
  {
    var all := Descriptors(m);
    descs := all;
    var found := FindBlock(all, config, id);
    if found.None? {
      return Err(BlockNotFound(id)), descs;
    }
    ghost var b := found.value;
    if id != UNASSIGNED {
      FoundIsFiled(descs, config, config.families, id);
    }
    forall d | d in b.tensors ensures d.name in m.tensors && m.tensors[d.name] == d {
      MemberHasKey(descs, config, KeyOf(b), d);
    }
    return Ok(Stamped(m, found.value)), descs;
  }

  function CheckProvenance(m: Model, b: Block): Option<LoaderError> {
    if b.modelId != m.id then Some(BlockFromDifferentModel(b.id)) else None
  }

  /** The first tensor of a list that the model does not know. */
  ghost predicate FirstUnknown(m: Model, tensors: seq<Descriptor>, k: int) {
    0 <= k < |tensors| && tensors[k].name !in m.tensors && AllKnown(m, tensors[..k])
  }

  /** The views of a block's tensors, in block order; another model's block is
      refused, and so is an unknown tensor in a block edited by hand. */
  method BlockViews(m: Model, b: Block) returns (r: Result<seq<(string, seq<byte>)>, LoaderError>)
    requires Readable(m)
    ensures r.Ok? <==> b.modelId == m.id && AllKnown(m, b.tensors)
    ensures b.modelId != m.id ==> r == Err(BlockFromDifferentModel(b.id))
    ensures b.modelId == m.id && r.Err? ==>
      exists k :: FirstUnknown(m, b.tensors, k) && r.error == TensorNotFound(b.tensors[k].name)
    ensures r.Ok? ==> |r.value| == |b.tensors| && forall k :: 0 <= k < |r.value| ==>
      r.value[k].0 == b.tensors[k].name && Ok(r.value[k].1) == TensorBytes(m, b.tensors[k].name)
  {
    var refused := CheckProvenance(m, b);
    if refused.Some? {
      return Err(refused.value);
    }
    var views: seq<(string, seq<byte>)> := [];
    for k := 0 to |b.tensors|
      invariant |views| == k && AllKnown(m, b.tensors[..k])
      invariant forall j :: 0 <= j < k ==>
        views[j].0 == b.tensors[j].name && Ok(views[j].1) == TensorBytes(m, b.tensors[j].name)
    {
      assert b.tensors[k] in b.tensors;
      var bytes := TensorBytes(m, b.tensors[k].name);
      if bytes.Err? {
        assert FirstUnknown(m, b.tensors, k);
        return Err(bytes.error);
      }
      views := views + [(b.tensors[k].name, bytes.value)];
    }
    assert b.tensors[..|b.tensors|] == b.tensors;
    return Ok(views);
  }
}
