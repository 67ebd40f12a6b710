/** Opening a checkpoint: the tensor table built from one file, from an index and
    its shards, or from sibling files. */
module Checkpoint {
  import opened Common
  import opened Errors
  import opened Names
  import opened Shards

  datatype Descriptor = Descriptor(
    name: string, dtype: string, shape: seq<nat>, shardId: nat, fileOffset: nat, byteLen: nat)

  type Table = map<string, Descriptor>

  // -------------------------------------------------------------- insertion

  /** The descriptor of a tensor of shard number `shardId`. */
  function Describe(shard: Shard, shardId: nat, name: string, info: TensorInfo): Result<Descriptor, LoaderError> {
    match AbsoluteRange(shard, name, info.relStart, info.relEnd)
    case Err(e) => Err(e)
    case Ok((start, end)) =>
      if end < start then Err(OffsetOverflow(shard.path, name))
      else Ok(Descriptor(name, info.dtype, info.shape, shardId, start, end - start))
  }

  function InsertDescriptor(tensors: Table, shards: seq<Shard>, shardId: nat, name: string, info: TensorInfo)
    : Result<Table, LoaderError>
    requires shardId < |shards|
    requires forall t :: t in tensors ==> tensors[t].shardId < |shards|
  {
    if name in tensors then
      Err(DuplicateTensorName(name, shards[tensors[name].shardId].path, shards[shardId].path))
    else
      match Describe(shards[shardId], shardId, name, info)
      case Err(e) => Err(e)
      case Ok(d) => Ok(tensors[name := d])
  }

  // ----------------------------------------------------- tables built so far

  /** An openable file whose header keeps its contract. */
  ghost predicate Openable(file: File, maxHeaderBytes: nat) {
    HeaderContract(file) && Open(file, maxHeaderBytes).Ok?
  }

  ghost function NamesIn(file: File): set<string>
    requires file.header.Some?
  {
    file.header.value.metadata.Keys
  }

  ghost function ShardOf(file: File, maxHeaderBytes: nat): Shard
    requires Openable(file, maxHeaderBytes)
  {
    Open(file, maxHeaderBytes).value.0
  }

  /** `d` locates tensor `name` of `file`, opened as shard `shardId`. */
  ghost predicate Locates(d: Descriptor, file: File, maxHeaderBytes: nat, shardId: nat, name: string)
    requires Openable(file, maxHeaderBytes)
  {
    && name in NamesIn(file)
    && Describe(ShardOf(file, maxHeaderBytes), shardId, name, file.header.value.metadata[name]) == Ok(d)
  }

  lemma OpenableInserts(file: File, maxHeaderBytes: nat, shardId: nat, name: string)
    requires Openable(file, maxHeaderBytes) && name in NamesIn(file)
    ensures var r := Describe(ShardOf(file, maxHeaderBytes), shardId, name, file.header.value.metadata[name]);
      r.Ok? && r.value.shardId == shardId && r.value.name == name &&
        Locates(r.value, file, maxHeaderBytes, shardId, name)
  {
    RangesAreSafe(file, maxHeaderBytes);
  }

  /** The shards opened from a list of files, and a table that locates each of
      the given names in one of them. */
  ghost predicate Opened(files: seq<File>, maxHeaderBytes: nat, shards: seq<Shard>) {
    && |shards| == |files|
    && forall k :: 0 <= k < |files| ==>
         Openable(files[k], maxHeaderBytes) && shards[k] == ShardOf(files[k], maxHeaderBytes)
  }

  ghost predicate TableOf(files: seq<File>, maxHeaderBytes: nat, tensors: Table)
  {
    forall t :: t in tensors ==>
      && tensors[t].shardId < |files| && Openable(files[tensors[t].shardId], maxHeaderBytes)
      && Locates(tensors[t], files[tensors[t].shardId], maxHeaderBytes, tensors[t].shardId, t)
  }

  lemma TableExtends(files: seq<File>, more: seq<File>, maxHeaderBytes: nat, tensors: Table)
    requires TableOf(files, maxHeaderBytes, tensors)
    ensures TableOf(files + more, maxHeaderBytes, tensors)
  {
  }

  /** `table` is `tensors` plus the `names`, all of them in shard `shardId`. */
  ghost predicate Grown(tensors: Table, names: seq<string>, shardId: nat, table: Table) {
    && (forall t :: t in table <==> t in tensors || t in names)
    && (forall t :: t in tensors ==> t in table && table[t] == tensors[t])
    && (forall t :: t in names ==> t !in tensors && t in table && table[t].shardId == shardId)
  }

  /** ... with the names a file's header holds. */
  ghost predicate GrownBy(tensors: Table, file: File, shardId: nat, table: Table)
    requires file.header.Some?
  {
    exists names :: Grown(tensors, names, shardId, table) && forall t :: t in names <==> t in NamesIn(file)
  }

  lemma GrownStep(tensors: Table, names: seq<string>, shardId: nat, table: Table, name: string, d: Descriptor)
    requires Grown(tensors, names, shardId, table) && name !in table && d.shardId == shardId
    ensures Grown(tensors, names + [name], shardId, table[name := d])
  {
  }

  lemma TableStep(files: seq<File>, maxHeaderBytes: nat, table: Table, name: string, d: Descriptor)
    requires TableOf(files, maxHeaderBytes, table) && d.shardId < |files|
    requires Openable(files[d.shardId], maxHeaderBytes)
    requires Locates(d, files[d.shardId], maxHeaderBytes, d.shardId, name)
    ensures TableOf(files, maxHeaderBytes, table[name := d])
  {
  }

  /** Name `k` is the first that cannot be added to the last shard's tensors, and why. */
  ghost predicate FirstRejected(shards: seq<Shard>, metadata: Metadata, names: seq<string>, tensors: Table, k: nat,
                                error: LoaderError)
    requires shards != [] && forall t :: t in tensors ==> tensors[t].shardId < |shards|
  {
    && k < |names| && (forall i :: 0 <= i < k ==> names[i] in metadata && names[i] !in tensors)
    && var path := shards[|shards| - 1].path;
    if names[k] !in metadata then error == TensorMissingFromShard(path, names[k])
    else
      && names[k] in tensors
      && error == DuplicateTensorName(names[k], shards[tensors[names[k]].shardId].path, path)
  }

  lemma AddedSoFar(names: seq<string>, k: nat, metadata: Metadata, tensors: Table, shardId: nat, table: Table)
    requires k < |names| && Distinct(names) && Grown(tensors, names[..k], shardId, table)
    ensures forall i :: 0 <= i < k ==> names[i] !in tensors
    ensures names[k] in table ==> names[k] in tensors && table[names[k]] == tensors[names[k]]
  {
    forall i | 0 <= i < k ensures names[i] !in tensors {
      assert names[..k][i] == names[i];
    }
    assert names[k] !in names[..k];
  }

  lemma AllAdded(names: seq<string>, tensors: Table, shardId: nat, table: Table)
    requires Grown(tensors, names[..|names|], shardId, table)
    ensures Grown(tensors, names, shardId, table) && forall name :: name in names ==> name !in tensors
  {
    assert names[..|names|] == names;
  }

  /** Add the listed names of the last opened shard.  A name its header lacks is
      an error; so is one already in the table. */
  method AddListed(ghost files: seq<File>, ghost maxHeaderBytes: nat, shards: seq<Shard>, metadata: Metadata,
                   names: seq<string>, tensors: Table)
    returns (r: Result<Table, LoaderError>)
    requires files != [] && Opened(files, maxHeaderBytes, shards) && TableOf(files, maxHeaderBytes, tensors)
    requires files[|files| - 1].header.Some? && files[|files| - 1].header.value.metadata == metadata
    requires Distinct(names)
    ensures r.Ok? <==> forall name :: name in names ==> name in metadata && name !in tensors
    ensures r.Ok? ==> Grown(tensors, names, |files| - 1, r.value) && TableOf(files, maxHeaderBytes, r.value)
    ensures r.Err? ==> exists k: nat :: FirstRejected(shards, metadata, names, tensors, k, r.error)
  {
    var shardId := |shards| - 1;
    var table := tensors;
    for k := 0 to |names|
      invariant TableOf(files, maxHeaderBytes, table)
      invariant Grown(tensors, names[..k], shardId, table)
      invariant forall i :: 0 <= i < k ==> names[i] in metadata
    {
      var name := names[k];
      assert names[..k + 1] == names[..k] + [name];
      AddedSoFar(names, k, metadata, tensors, shardId, table);
      if name !in metadata {
        assert FirstRejected(shards, metadata, names, tensors, k, TensorMissingFromShard(shards[shardId].path, name));
        return Err(TensorMissingFromShard(shards[shardId].path, name));
      }
      OpenableInserts(files[shardId], maxHeaderBytes, shardId, name);
      var inserted := InsertDescriptor(table, shards, shardId, name, metadata[name]);
      if inserted.Err? {
        assert FirstRejected(shards, metadata, names, tensors, k, inserted.error);
        return Err(inserted.error);
      }
      GrownStep(tensors, names[..k], shardId, table, name, inserted.value[name]);
      TableStep(files, maxHeaderBytes, table, name, inserted.value[name]);
      table := inserted.value;
    }
    AllAdded(names, tensors, shardId, table);
    return Ok(table);
  }

  // ------------------------------------------------------------ index opening

  /** The tensor names the index assigns to a shard. */
  function Assigned(weightMap: map<string, string>, raw: string): set<string> {
    set t | t in weightMap && weightMap[t] == raw
  }

  /** The shard resolves, opens, and holds exactly the names the index assigns to it. */
  ghost predicate ShardAgrees(weightMap: map<string, string>, resolved: Result<File, LoaderError>,
                              maxHeaderBytes: nat, raw: string)
  {
    && resolved.Ok? && Open(resolved.value, maxHeaderBytes).Ok?
    && resolved.value.header.Some? && NamesIn(resolved.value) == Assigned(weightMap, raw)
  }

  ghost predicate IndexAgrees(weightMap: map<string, string>, resolve: map<string, Result<File, LoaderError>>,
                              maxHeaderBytes: nat)
    requires weightMap.Values <= resolve.Keys
  {
    forall raw :: raw in weightMap.Values ==> ShardAgrees(weightMap, resolve[raw], maxHeaderBytes, raw)
  }

  /** Every name of the index is located in the shard the index assigns it to, and nothing else is. */
  ghost predicate IndexTable(weightMap: map<string, string>, raws: seq<string>, files: seq<File>, maxHeaderBytes: nat,
                             tensors: Table) {
    && |files| == |raws| && TableOf(files, maxHeaderBytes, tensors)
    && (forall t :: t in tensors <==> t in weightMap && weightMap[t] in raws)
    && (forall t :: t in tensors ==> raws[tensors[t].shardId] == weightMap[t])
  }

  lemma IndexTableStep(weightMap: map<string, string>, raws: seq<string>, raw: string, files: seq<File>, file: File,
                       maxHeaderBytes: nat, tensors: Table, names: seq<string>, table: Table)
    requires IndexTable(weightMap, raws, files, maxHeaderBytes, tensors) && raw !in raws
    requires forall t :: t in names <==> t in Assigned(weightMap, raw)
    requires Grown(tensors, names, |raws|, table) && TableOf(files + [file], maxHeaderBytes, table)
    ensures IndexTable(weightMap, raws + [raw], files + [file], maxHeaderBytes, table)
  {
    forall t | t in table ensures (raws + [raw])[table[t].shardId] == weightMap[t] {
      if t in names {
        assert t in Assigned(weightMap, raw);
      }
    }
  }

  lemma FreshNames(weightMap: map<string, string>, raws: seq<string>, raw: string, files: seq<File>,
                   maxHeaderBytes: nat, tensors: Table)
    requires IndexTable(weightMap, raws, files, maxHeaderBytes, tensors) && raw !in raws
    ensures forall t :: t in Assigned(weightMap, raw) ==> t !in tensors
  {
  }

  /** Names of the shard's header that were not listed for it. */
  method FindUnlisted(metadata: Metadata, names: seq<string>) returns (r: Option<string>)
    ensures r.None? <==> forall t :: t in metadata ==> t in names
    ensures r.Some? ==> r.value in metadata && r.value !in names
  {
    var left := metadata.Keys;
    while left != {}
      invariant left <= metadata.Keys
      invariant forall t :: t in metadata && t !in left ==> t in names
      decreases |left|
    {
      var t :| t in left;
      if t !in names {
        return Some(t);
      }
      left := left - {t};
    }
    return None;
  }

  /** How an opened shard disagrees with the index: the first listed name its header
      lacks, or else a name of its header that was not listed. */
  ghost predicate Disagrees(weightMap: map<string, string>, raw: string, file: File, error: LoaderError)
    requires file.header.Some?
  {
    var listed, held := Assigned(weightMap, raw), NamesIn(file);
    if listed <= held then
      error.TensorMissingFromIndex? && error.shardPath == file.path && error.tensor in held - listed
    else
      error.TensorMissingFromShard? && error.shardPath == file.path && IsLeast(error.tensor, listed - held)
  }

  /** Why a listed shard is rejected. */
  ghost predicate ShardFails(weightMap: map<string, string>, raw: string, resolved: Result<File, LoaderError>,
                             maxHeaderBytes: nat, error: LoaderError)
  {
    match resolved
    case Err(e) => error == e
    case Ok(file) =>
      if Open(file, maxHeaderBytes).Err? then error == Open(file, maxHeaderBytes).error
      else file.header.Some? && Disagrees(weightMap, raw, file, error)
  }

  lemma MissingListed(file: File, metadata: Metadata, listed: set<string>, names: seq<string>, shards: seq<Shard>,
                      tensors: Table, error: LoaderError)
    requires file.header.Some? && metadata == file.header.value.metadata && Listing(names, listed)
    requires shards != [] && forall t :: t in tensors ==> tensors[t].shardId < |shards|
    requires forall t :: t in listed ==> t !in tensors
    requires exists k: nat :: FirstRejected(shards, metadata, names, tensors, k, error)
    ensures error.TensorMissingFromShard? && error.shardPath == shards[|shards| - 1].path
    ensures IsLeast(error.tensor, listed - NamesIn(file))
  {
    var k: nat :| FirstRejected(shards, metadata, names, tensors, k, error);
    assert names[k] in names;
    LexTotal(names[k], names[k]);
    forall t | t in listed - NamesIn(file) ensures LexLe(names[k], t) {
      var j :| 0 <= j < |names| && names[j] == t;
    }
  }

  /** One listed shard: resolve, open, add its listed names, reject unlisted ones. */
  method AddShard(weightMap: map<string, string>, raw: string, resolved: Result<File, LoaderError>, maxHeaderBytes: nat,
                  ghost raws: seq<string>, ghost files: seq<File>, shards: seq<Shard>, tensors: Table)
    returns (r: Result<(seq<Shard>, Table), LoaderError>)
    requires resolved.Ok? ==> HeaderContract(resolved.value)
    requires raw !in raws && Opened(files, maxHeaderBytes, shards)
    requires IndexTable(weightMap, raws, files, maxHeaderBytes, tensors)
    ensures r.Ok? <==> ShardAgrees(weightMap, resolved, maxHeaderBytes, raw)
    ensures r.Ok? ==>
      && Opened(files + [resolved.value], maxHeaderBytes, r.value.0)
      && IndexTable(weightMap, raws + [raw], files + [resolved.value], maxHeaderBytes, r.value.1)
    ensures r.Err? ==> ShardFails(weightMap, raw, resolved, maxHeaderBytes, r.error)
  {
    if resolved.Err? {
      return Err(resolved.error);
    }
    var file := resolved.value;
    var shardOpen := Open(file, maxHeaderBytes);
    if shardOpen.Err? {
      return Err(shardOpen.error);
    }
    var (shard, metadata) := shardOpen.value;
    var names := SortNames(Assigned(weightMap, raw));
    TableExtends(files, [file], maxHeaderBytes, tensors);
    FreshNames(weightMap, raws, raw, files, maxHeaderBytes, tensors);
    var added := AddListed(files + [file], maxHeaderBytes, shards + [shard], metadata, names, tensors);
    if added.Err? {
      MissingListed(file, metadata, Assigned(weightMap, raw), names, shards + [shard], tensors, added.error);
      return Err(added.error);
    }
    var unlisted := FindUnlisted(metadata, names);
    if unlisted.Some? {
      assert unlisted.value !in Assigned(weightMap, raw);
      return Err(TensorMissingFromIndex(file.path, unlisted.value));
    }
    assert metadata.Keys == Assigned(weightMap, raw);
    IndexTableStep(weightMap, raws, raw, files, file, maxHeaderBytes, tensors, names, added.value);
    return Ok((shards + [shard], added.value));
  }

  /** The listed shards agree with the index, and these are their files. */
  ghost predicate AgreesSoFar(weightMap: map<string, string>, resolve: map<string, Result<File, LoaderError>>,
                              raws: seq<string>, files: seq<File>, maxHeaderBytes: nat)
  {
    && |files| == |raws|
    && forall i :: 0 <= i < |raws| ==>
         && raws[i] in resolve && ShardAgrees(weightMap, resolve[raws[i]], maxHeaderBytes, raws[i])
         && files[i] == resolve[raws[i]].value
  }

  lemma AgreesStep(weightMap: map<string, string>, resolve: map<string, Result<File, LoaderError>>,
                   raws: seq<string>, raw: string, files: seq<File>, maxHeaderBytes: nat)
    requires AgreesSoFar(weightMap, resolve, raws, files, maxHeaderBytes)
    requires raw in resolve && ShardAgrees(weightMap, resolve[raw], maxHeaderBytes, raw)
    ensures AgreesSoFar(weightMap, resolve, raws + [raw], files + [resolve[raw].value], maxHeaderBytes)
  {
  }

  /** What a table opened through an index says of every tensor. */
  ghost predicate FollowsIndex(weightMap: map<string, string>, resolve: map<string, Result<File, LoaderError>>,
                               files: seq<File>, tensors: Table)
    requires weightMap.Values <= resolve.Keys
  {
    && tensors.Keys == weightMap.Keys
    && forall t :: t in weightMap ==>
         && weightMap[t] in weightMap.Values
         && tensors[t].shardId < |files| && resolve[weightMap[t]] == Ok(files[tensors[t].shardId])
  }

  lemma IndexCovers(weightMap: map<string, string>, resolve: map<string, Result<File, LoaderError>>,
                    raws: seq<string>, files: seq<File>, maxHeaderBytes: nat)
    requires weightMap.Values <= resolve.Keys && Listing(raws, weightMap.Values)
    requires AgreesSoFar(weightMap, resolve, raws, files, maxHeaderBytes)
    ensures IndexAgrees(weightMap, resolve, maxHeaderBytes)
  {
  }

  lemma InItsShard(weightMap: map<string, string>, resolve: map<string, Result<File, LoaderError>>, raws: seq<string>,
                   files: seq<File>, maxHeaderBytes: nat, tensors: Table, t: string)
    requires AgreesSoFar(weightMap, resolve, raws, files, maxHeaderBytes)
    requires IndexTable(weightMap, raws, files, maxHeaderBytes, tensors)
    requires t in weightMap && weightMap[t] in raws
    ensures t in tensors && tensors[t].shardId < |files| && weightMap[t] in resolve
    ensures resolve[weightMap[t]] == Ok(files[tensors[t].shardId])
  {
    assert t in tensors;
    var i := tensors[t].shardId;
    assert raws[i] == weightMap[t] && files[i] == resolve[raws[i]].value;
  }

  lemma TableFollows(weightMap: map<string, string>, resolve: map<string, Result<File, LoaderError>>,
                   raws: seq<string>, files: seq<File>, maxHeaderBytes: nat, tensors: Table)
    requires weightMap.Values <= resolve.Keys && Listing(raws, weightMap.Values)
    requires AgreesSoFar(weightMap, resolve, raws, files, maxHeaderBytes)
    requires IndexTable(weightMap, raws, files, maxHeaderBytes, tensors)
    ensures FollowsIndex(weightMap, resolve, files, tensors)
  {
    forall t | t in weightMap
      ensures t in tensors && weightMap[t] in weightMap.Values
      ensures tensors[t].shardId < |files| && resolve[weightMap[t]] == Ok(files[tensors[t].shardId])
    {
      assert weightMap[t] in weightMap.Values;
      InItsShard(weightMap, resolve, raws, files, maxHeaderBytes, tensors, t);
    }
  }

  /** The state after some of the listed shards. */
  ghost predicate IndexState(weightMap: map<string, string>, resolve: map<string, Result<File, LoaderError>>,
                             raws: seq<string>, files: seq<File>, maxHeaderBytes: nat, shards: seq<Shard>,
                             tensors: Table)
  {
    && Opened(files, maxHeaderBytes, shards)
    && IndexTable(weightMap, raws, files, maxHeaderBytes, tensors)
    && AgreesSoFar(weightMap, resolve, raws, files, maxHeaderBytes)
  }

  /** Where each listed shard resolves to: a file with a conforming header, or an
      error of the resolver. */
  ghost predicate Resolver(weightMap: map<string, string>, resolve: map<string, Result<File, LoaderError>>) {
    && weightMap.Values <= resolve.Keys
    && forall raw :: raw in resolve ==>
         match resolve[raw]
         case Ok(file) => HeaderContract(file)
         case Err(error) => !error.DuplicateTensorName?
  }

  /** `raw` is the first shard, in name order, that the index and its file disagree on. */
  ghost predicate FirstDisagreeing(weightMap: map<string, string>, resolve: map<string, Result<File, LoaderError>>,
                                   maxHeaderBytes: nat, raw: string)
    requires weightMap.Values <= resolve.Keys
  {
    && raw in weightMap.Values && !ShardAgrees(weightMap, resolve[raw], maxHeaderBytes, raw)
    && forall other :: other in weightMap.Values && LexLe(other, raw) && other != raw ==>
         ShardAgrees(weightMap, resolve[other], maxHeaderBytes, other)
  }

  lemma FirstInOrder(weightMap: map<string, string>, resolve: map<string, Result<File, LoaderError>>,
                     raws: seq<string>, k: nat, files: seq<File>, maxHeaderBytes: nat)
    requires weightMap.Values <= resolve.Keys && Listing(raws, weightMap.Values) && k < |raws|
    requires AgreesSoFar(weightMap, resolve, raws[..k], files, maxHeaderBytes)
    requires raws[k] in resolve && !ShardAgrees(weightMap, resolve[raws[k]], maxHeaderBytes, raws[k])
    ensures FirstDisagreeing(weightMap, resolve, maxHeaderBytes, raws[k])
  {
    forall other | other in weightMap.Values && LexLe(other, raws[k]) && other != raws[k]
      ensures ShardAgrees(weightMap, resolve[other], maxHeaderBytes, other)
    {
      var i :| 0 <= i < |raws| && raws[i] == other;
      if i < k {
        assert raws[..k][i] == other;
      } else {
        LexAntisymmetric(other, raws[k]);
      }
    }
  }

  lemma NeverDuplicate(weightMap: map<string, string>, raw: string, resolved: Result<File, LoaderError>,
                       maxHeaderBytes: nat, error: LoaderError)
    requires ShardFails(weightMap, raw, resolved, maxHeaderBytes, error)
    requires resolved.Err? ==> !resolved.error.DuplicateTensorName?
    ensures !error.DuplicateTensorName?
  {
  }

  /** The next listed shard. */
  method AddIndexed(weightMap: map<string, string>, resolve: map<string, Result<File, LoaderError>>,
                    maxHeaderBytes: nat, raw: string, ghost raws: seq<string>, ghost files: seq<File>,
                    shards: seq<Shard>, tensors: Table)
    returns (r: Result<(seq<Shard>, Table), LoaderError>, ghost files': seq<File>)
    requires Resolver(weightMap, resolve) && raw in weightMap.Values && raw !in raws
    requires IndexState(weightMap, resolve, raws, files, maxHeaderBytes, shards, tensors)
    ensures r.Ok? ==> IndexState(weightMap, resolve, raws + [raw], files', maxHeaderBytes, r.value.0, r.value.1)
    ensures r.Err? ==> raw in resolve && !ShardAgrees(weightMap, resolve[raw], maxHeaderBytes, raw)
    ensures r.Err? ==> raw in resolve && ShardFails(weightMap, raw, resolve[raw], maxHeaderBytes, r.error)
  {
    files' := files;
    assert raw in resolve;
    r := AddShard(weightMap, raw, resolve[raw], maxHeaderBytes, raws, files, shards, tensors);
    if r.Ok? {
      AgreesStep(weightMap, resolve, raws, raw, files, maxHeaderBytes);
      files' := files + [resolve[raw].value];
    }
  }

  /** Opening through an index succeeds exactly when every listed shard resolves,
      opens and holds exactly the names assigned to it.  The table then has the
      index's names, each located in its assigned shard; a duplicate name is never
      the reason for a failure. */
  method OpenIndex(weightMap: map<string, string>, resolve: map<string, Result<File, LoaderError>>, maxHeaderBytes: nat)
    returns (r: Result<(seq<Shard>, Table), LoaderError>, ghost files: seq<File>)
    requires Resolver(weightMap, resolve)
    ensures r.Ok? <==> IndexAgrees(weightMap, resolve, maxHeaderBytes)
    ensures r.Ok? ==>
      && Opened(files, maxHeaderBytes, r.value.0) && TableOf(files, maxHeaderBytes, r.value.1)
      && FollowsIndex(weightMap, resolve, files, r.value.1)
    ensures r.Err? ==> !r.error.DuplicateTensorName?
    ensures r.Err? ==> exists raw ::
      && FirstDisagreeing(weightMap, resolve, maxHeaderBytes, raw)
      && ShardFails(weightMap, raw, resolve[raw], maxHeaderBytes, r.error)
  {
    var raws := SortNames(weightMap.Values);
    var shards: seq<Shard>, tensors: Table := [], map[];
    files := [];
    for k := 0 to |raws|
      invariant IndexState(weightMap, resolve, raws[..k], files, maxHeaderBytes, shards, tensors)
    {
      assert raws[..k + 1] == raws[..k] + [raws[k]];
      ListingNext(raws, weightMap.Values, k);
      var added, files' := AddIndexed(weightMap, resolve, maxHeaderBytes, raws[k], raws[..k], files, shards, tensors);
      if added.Err? {
        FirstInOrder(weightMap, resolve, raws, k, files, maxHeaderBytes);
        NeverDuplicate(weightMap, raws[k], resolve[raws[k]], maxHeaderBytes, added.error);
        return Err(added.error), files;
      }
      shards, tensors, files := added.value.0, added.value.1, files';
    }
    assert raws[..|raws|] == raws;
    IndexCovers(weightMap, resolve, raws, files, maxHeaderBytes);
    TableFollows(weightMap, resolve, raws, files, maxHeaderBytes, tensors);
    return Ok((shards, tensors)), files;
  }

  // ------------------------------------------- single files, implicit shards

  ghost predicate AllOpen(files: seq<File>, maxHeaderBytes: nat) {
    forall k :: 0 <= k < |files| ==> files[k].header.Some? && Open(files[k], maxHeaderBytes).Ok?
  }

  ghost predicate NamesDisjoint(files: seq<File>)
    requires forall k :: 0 <= k < |files| ==> files[k].header.Some?
  {
    forall i, j :: 0 <= i < j < |files| ==> NamesIn(files[i]) !! NamesIn(files[j])
  }

  /** `tensors` has exactly the names of `files`. */
  ghost predicate Complete(files: seq<File>, tensors: Table)
    requires forall k :: 0 <= k < |files| ==> files[k].header.Some?
  {
    forall t :: t in tensors <==> exists k :: 0 <= k < |files| && t in NamesIn(files[k])
  }

  lemma CompleteStep(files: seq<File>, file: File, tensors: Table, names: seq<string>, table: Table)
    requires forall k :: 0 <= k < |files| ==> files[k].header.Some?
    requires file.header.Some? && Complete(files, tensors) && Grown(tensors, names, |files|, table)
    requires forall t :: t in names <==> t in NamesIn(file)
    ensures Complete(files + [file], table)
  {
    var all := files + [file];
    forall t ensures t in table <==> exists k :: 0 <= k < |all| && t in NamesIn(all[k]) {
      if t in tensors {
        var k :| 0 <= k < |files| && t in NamesIn(files[k]);
        assert t in NamesIn(all[k]);
      }
      if t in names {
        assert t in NamesIn(all[|files|]);
      }
    }
  }

  /** Why a file of a set is rejected: it does not open, or the first of its names
      that an earlier file has. */
  ghost predicate WholeFileFails(file: File, maxHeaderBytes: nat, shards: seq<Shard>, tensors: Table,
                                 error: LoaderError)
    requires forall t :: t in tensors ==> tensors[t].shardId < |shards|
  {
    if Open(file, maxHeaderBytes).Err? then error == Open(file, maxHeaderBytes).error
    else
      && file.header.Some? && error.DuplicateTensorName?
      && IsLeast(error.tensor, NamesIn(file) * tensors.Keys)
      && error.firstPath == shards[tensors[error.tensor].shardId].path && error.secondPath == file.path
  }

  lemma DuplicateName(file: File, names: seq<string>, maxHeaderBytes: nat, shards: seq<Shard>, shard: Shard,
                      tensors: Table, error: LoaderError)
    requires file.header.Some? && Listing(names, NamesIn(file)) && Open(file, maxHeaderBytes).Ok?
    requires (forall t :: t in tensors ==> tensors[t].shardId < |shards|) && shard.path == file.path
    requires exists k: nat :: FirstRejected(shards + [shard], file.header.value.metadata, names, tensors, k, error)
    ensures WholeFileFails(file, maxHeaderBytes, shards, tensors, error)
  {
    var k: nat :| FirstRejected(shards + [shard], file.header.value.metadata, names, tensors, k, error);
    assert names[k] in names;
    LexTotal(names[k], names[k]);
    forall t | t in NamesIn(file) * tensors.Keys ensures LexLe(names[k], t) {
      var j :| 0 <= j < |names| && names[j] == t;
    }
  }

  /** One file of a set opened without an index: every name it holds is added. */
  method AddWholeFile(file: File, maxHeaderBytes: nat, ghost files: seq<File>, shards: seq<Shard>, tensors: Table)
    returns (r: Result<(seq<Shard>, Table), LoaderError>)
    requires HeaderContract(file) && Opened(files, maxHeaderBytes, shards) && TableOf(files, maxHeaderBytes, tensors)
    ensures r.Ok? <==> Open(file, maxHeaderBytes).Ok? && NamesIn(file) !! tensors.Keys
    ensures r.Ok? ==>
      && Opened(files + [file], maxHeaderBytes, r.value.0) && TableOf(files + [file], maxHeaderBytes, r.value.1)
      && GrownBy(tensors, file, |files|, r.value.1)
    ensures r.Err? ==> WholeFileFails(file, maxHeaderBytes, shards, tensors, r.error)
  {
    var shardOpen := Open(file, maxHeaderBytes);
    if shardOpen.Err? {
      return Err(shardOpen.error);
    }
    var (shard, metadata) := shardOpen.value;
    var names := SortNames(metadata.Keys);
    TableExtends(files, [file], maxHeaderBytes, tensors);
    var added := AddListed(files + [file], maxHeaderBytes, shards + [shard], metadata, names, tensors);
    if added.Err? {
      DuplicateName(file, names, maxHeaderBytes, shards, shard, tensors, added.error);
      return Err(added.error);
    }
    return Ok((shards + [shard], added.value));
  }

  /** The state after some of the files. */
  ghost predicate ImplicitState(files: seq<File>, maxHeaderBytes: nat, shards: seq<Shard>, tensors: Table) {
    && AllOpen(files, maxHeaderBytes) && NamesDisjoint(files)
    && Opened(files, maxHeaderBytes, shards) && TableOf(files, maxHeaderBytes, tensors)
    && Complete(files, tensors)
  }

  lemma FilesInTable(files: seq<File>, tensors: Table, i: nat)
    requires (forall k :: 0 <= k < |files| ==> files[k].header.Some?) && Complete(files, tensors) && i < |files|
    ensures NamesIn(files[i]) <= tensors.Keys
  {
  }

  lemma DisjointStep(files: seq<File>, file: File, tensors: Table)
    requires (forall k :: 0 <= k < |files| ==> files[k].header.Some?) && file.header.Some?
    requires NamesDisjoint(files) && Complete(files, tensors) && NamesIn(file) !! tensors.Keys
    ensures NamesDisjoint(files + [file])
  {
    forall i | 0 <= i < |files| ensures NamesIn(files[i]) !! NamesIn(file) {
      FilesInTable(files, tensors, i);
    }
  }

  lemma ImplicitStep(files: seq<File>, file: File, maxHeaderBytes: nat, tensors: Table, table: Table)
    requires AllOpen(files, maxHeaderBytes) && NamesDisjoint(files) && Complete(files, tensors)
    requires file.header.Some? && Open(file, maxHeaderBytes).Ok? && NamesIn(file) !! tensors.Keys
    requires GrownBy(tensors, file, |files|, table)
    ensures AllOpen(files + [file], maxHeaderBytes) && NamesDisjoint(files + [file]) && Complete(files + [file], table)
  {
    var names :| Grown(tensors, names, |files|, table) && forall t :: t in names <==> t in NamesIn(file);
    CompleteStep(files, file, tensors, names, table);
    DisjointStep(files, file, tensors);
  }

  /** The files before `k` open and share no name, and file `k` does not open or
      repeats a name of an earlier one: the first of its names that does. */
  ghost predicate ImplicitFails(files: seq<File>, maxHeaderBytes: nat, k: nat, error: LoaderError) {
    && k < |files| && AllOpen(files[..k], maxHeaderBytes) && NamesDisjoint(files[..k])
    && if Open(files[k], maxHeaderBytes).Err? then error == Open(files[k], maxHeaderBytes).error
       else files[k].header.Some? && error.DuplicateTensorName? && FirstRepeated(files, k, error.tensor, error)
  }

  ghost predicate FirstRepeated(files: seq<File>, k: nat, name: string, error: LoaderError)
    requires k < |files| && files[k].header.Some? && forall i :: 0 <= i < k ==> files[i].header.Some?
  {
    && name in NamesIn(files[k])
    && (exists i :: 0 <= i < k && name in NamesIn(files[i]) &&
          error == DuplicateTensorName(name, files[i].path, files[k].path))
    && forall i, t :: 0 <= i < k && t in NamesIn(files[i]) && t in NamesIn(files[k]) ==> LexLe(name, t)
  }

  lemma RepeatedBefore(files: seq<File>, k: nat, maxHeaderBytes: nat, shards: seq<Shard>, tensors: Table,
                       error: LoaderError)
    requires k < |files| && ImplicitState(files[..k], maxHeaderBytes, shards, tensors)
    requires WholeFileFails(files[k], maxHeaderBytes, shards, tensors, error)
    ensures ImplicitFails(files, maxHeaderBytes, k, error)
  {
    assert forall i :: 0 <= i < k ==> files[..k][i] == files[i];
    if Open(files[k], maxHeaderBytes).Ok? {
      var name := error.tensor;
      var i := tensors[name].shardId;
      assert Locates(tensors[name], files[..k][i], maxHeaderBytes, i, name);
      assert shards[i].path == files[i].path;
      forall j, t | 0 <= j < k && t in NamesIn(files[j]) && t in NamesIn(files[k]) ensures LexLe(name, t) {
        assert t in NamesIn(files[..k][j]);
        assert t in NamesIn(files[k]) * tensors.Keys;
      }
    }
  }

  lemma ImplicitClash(files: seq<File>, maxHeaderBytes: nat, k: nat, error: LoaderError)
    requires ImplicitFails(files, maxHeaderBytes, k, error)
    ensures !(AllOpen(files, maxHeaderBytes) && NamesDisjoint(files))
  {
    if AllOpen(files, maxHeaderBytes) {
      var i :| 0 <= i < k && error.tensor in NamesIn(files[i]);
      assert error.tensor in NamesIn(files[i]) * NamesIn(files[k]);
    }
  }

  method AddImplicit(files: seq<File>, k: nat, maxHeaderBytes: nat, shards: seq<Shard>, tensors: Table)
    returns (r: Result<(seq<Shard>, Table), LoaderError>)
    requires k < |files| && HeaderContract(files[k])
    requires ImplicitState(files[..k], maxHeaderBytes, shards, tensors)
    ensures r.Ok? ==> ImplicitState(files[..k + 1], maxHeaderBytes, r.value.0, r.value.1)
    ensures r.Err? ==> ImplicitFails(files, maxHeaderBytes, k, r.error)
  {
    assert files[..k + 1] == files[..k] + [files[k]];
    r := AddWholeFile(files[k], maxHeaderBytes, files[..k], shards, tensors);
    if r.Ok? {
      ImplicitStep(files[..k], files[k], maxHeaderBytes, tensors, r.value.1);
    } else {
      RepeatedBefore(files, k, maxHeaderBytes, shards, tensors, r.error);
    }
  }

  /** Opening sibling files as implicit shards succeeds exactly when each opens
      and no name occurs twice; the table then holds all their names. */
  method OpenImplicit(files: seq<File>, maxHeaderBytes: nat) returns (r: Result<(seq<Shard>, Table), LoaderError>)
    requires forall k :: 0 <= k < |files| ==> HeaderContract(files[k])
    ensures r.Ok? <==> AllOpen(files, maxHeaderBytes) && NamesDisjoint(files)
    ensures r.Ok? ==>
      && Opened(files, maxHeaderBytes, r.value.0) && TableOf(files, maxHeaderBytes, r.value.1)
      && Complete(files, r.value.1)
    ensures r.Err? ==> exists k: nat :: ImplicitFails(files, maxHeaderBytes, k, r.error)
  {
    var shards: seq<Shard>, tensors: Table := [], map[];
    for k := 0 to |files|
      invariant ImplicitState(files[..k], maxHeaderBytes, shards, tensors)
    {
      var added := AddImplicit(files, k, maxHeaderBytes, shards, tensors);
      if added.Err? {
        ImplicitClash(files, maxHeaderBytes, k, added.error);
        return Err(added.error);
      }
      shards, tensors := added.value.0, added.value.1;
    }
    assert files[..|files|] == files;
    return Ok((shards, tensors));
  }
}
