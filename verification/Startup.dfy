/** `RustEngine::new`: from checkpoint files to a running engine. */
module Startup {
  import opened Common
  import opened Errors
  import opened Device
  import opened Engine
  import opened Residents
  import Selection
  import S = Shards
  import B = Blocks
  import G = Grouping
  import L = Lookup
  import M = Models
  import C = Checkpoint
  import N = Names
  import opened Text
  import opened Protocol
  import opened Safety
  import opened Schedule
  import opened Rehearsal
  import opened Pinned
  import opened Views
  import opened EndToEnd

  /** FLUX's families, when the caller names none. */
  const FLUX := ["transformer_blocks", "single_transformer_blocks"]

  function Families(families: Option<seq<string>>): seq<string> {
    if families.Some? then families.value else FLUX
  }

  // ------------------------------------------------------------- the ordering

  lemma MovedKeepsIds(blocks: seq<B.Block>, k: nat, r: seq<B.Block>)
    requires MovedFirst(blocks, k, r) && Distinct(Ids(blocks))
    ensures Distinct(Ids(r))
  {
    forall i, j | 0 <= i < j < |r| ensures r[i].id != r[j].id {
      var i', j' := if i == 0 then k else if i <= k then i - 1 else i, if j <= k then j - 1 else j;
      assert r[i] == blocks[i'] && r[j] == blocks[j'] && i' != j';
      assert Ids(blocks)[i'] != Ids(blocks)[j'];
    }
  }

  lemma MovedFromDistinct(blocks: seq<B.Block>, k: nat, r: seq<B.Block>)
    requires MovedFirst(blocks, k, r) && Distinct(Ids(r))
    ensures Distinct(Ids(blocks))
  {
    forall i, j | 0 <= i < j < |blocks| ensures blocks[i].id != blocks[j].id {
      var i', j' := if i == k then 0 else if i < k then i + 1 else i, if j == k then 0 else if j < k then j + 1 else j;
      assert r[i'] == blocks[i] && r[j'] == blocks[j] && i' != j';
      assert Ids(r)[i'] != Ids(r)[j'];
    }
  }

  lemma StampedIds(m: M.Model, out: seq<B.Block>, blocks: seq<B.Block>)
    requires M.StampedFrom(m, out, blocks)
    ensures Distinct(Ids(blocks)) <==> forall i, j :: 0 <= i < j < |out| ==> out[i].id != out[j].id
    ensures AllOf(m, blocks)
  {
    forall k | 0 <= k < |out| ensures Ids(blocks)[k] == out[k].id {
    }
    if Distinct(Ids(blocks)) {
      forall i, j | 0 <= i < j < |out| ensures out[i].id != out[j].id {
        assert Ids(blocks)[i] != Ids(blocks)[j];
      }
    }
  }

  lemma {:induction false} OrderAreBlocks(blocks: seq<B.Block>)
    ensures UNASSIGNED !in Order(blocks)
    ensures forall id :: id in Order(blocks) ==> exists k :: 0 <= k < |blocks| && blocks[k].id == id
  {
    if blocks != [] {
      var n := |blocks| - 1;
      OrderAreBlocks(blocks[..n]);
      forall id | id in Order(blocks) ensures exists k :: 0 <= k < |blocks| && blocks[k].id == id {
        if id in Order(blocks[..n]) {
          var k :| 0 <= k < n && blocks[..n][k].id == id;
          assert blocks[k].id == id;
        }
      }
    }
  }

  lemma {:induction false} OrderIsDistinct(blocks: seq<B.Block>)
    requires Distinct(Ids(blocks))
    ensures Distinct(Order(blocks))
  {
    if blocks != [] {
      var n := |blocks| - 1;
      var front := blocks[..n];
      assert Ids(front) == Ids(blocks)[..n];
      OrderIsDistinct(front);
      OrderAreBlocks(front);
      forall id | id in Order(front) ensures id != blocks[n].id {
        var k :| 0 <= k < n && front[k].id == id;
        assert Ids(blocks)[k] != Ids(blocks)[n];
      }
      AppendDistinct(Order(front), blocks[n].id);
    }
  }

  lemma AppendDistinct(ids: seq<string>, id: string)
    requires Distinct(ids) && id !in ids
    ensures Distinct(ids + [id])
  {
  }

  lemma SharedMovedKeeps(m: M.Model, grouped: seq<B.Block>, blocks: seq<B.Block>)
    requires AllOf(m, grouped) && SharedMoved(grouped, blocks)
    ensures AllOf(m, blocks) && (Distinct(Ids(blocks)) <==> Distinct(Ids(grouped)))
  {
    if k :| MovedFirst(grouped, k, blocks) {
      if Distinct(Ids(grouped)) {
        MovedKeepsIds(grouped, k, blocks);
      }
      if Distinct(Ids(blocks)) {
        MovedFromDistinct(grouped, k, blocks);
      }
    }
  }

  /** `blocks` is the model's grouping with the shared block in front. */
  ghost predicate Arranged(m: M.Model, config: B.BlockConfig, blocks: seq<B.Block>) {
    exists grouped :: M.BlocksOf(m, config, grouped) && SharedMoved(grouped, blocks)
  }

  ghost predicate SharedMoved(grouped: seq<B.Block>, blocks: seq<B.Block>) {
    (exists k :: MovedFirst(grouped, k, blocks)) || (NoShared(grouped) && blocks == grouped)
  }

  /** A family that claims a tensor of the model is configured twice. */
  ghost predicate FamilyClash(m: M.Model, config: B.BlockConfig) {
    exists p: nat, q: nat, t: string :: Repeats(config, p, q) && Claims(m, config, p, t)
  }

  ghost predicate Repeats(config: B.BlockConfig, p: nat, q: nat) {
    p < q < |config.families| && config.families[p] == config.families[q]
  }

  ghost predicate Claims(m: M.Model, config: B.BlockConfig, p: nat, t: string) {
    && p < |config.families| && t in m.tensors
    && B.MatchName(config, t).Some? && B.MatchName(config, t).value.0 == config.families[p]
  }

  lemma ClaimRepeats(m: M.Model, descs: seq<C.Descriptor>, config: B.BlockConfig, p: nat, q: nat, t: string)
    requires M.Readable(m) && M.InNameOrder(m, descs) && Repeats(config, p, q) && Claims(m, config, p, t)
    ensures L.RepeatedMatch(descs, config)
  {
    ListedByName(m, descs, t);
    var key := B.MatchName(config, t);
    L.MemberHasKey(descs, config, key, m.tensors[t]);
    assert key == Some((config.families[p], key.value.1));
    assert L.RepeatedKey(descs, config, p, q, key.value.1);
  }

  lemma ClashRepeats(m: M.Model, descs: seq<C.Descriptor>, config: B.BlockConfig)
    requires M.Readable(m) && M.InNameOrder(m, descs) && FamilyClash(m, config)
    ensures L.RepeatedMatch(descs, config)
  {
    var p: nat, q: nat, t: string :| Repeats(config, p, q) && Claims(m, config, p, t);
    ClaimRepeats(m, descs, config, p, q, t);
  }

  lemma RepeatClashes(m: M.Model, descs: seq<C.Descriptor>, config: B.BlockConfig)
    requires M.Readable(m) && M.InNameOrder(m, descs) && L.RepeatedMatch(descs, config)
    ensures FamilyClash(m, config)
  {
    var p: nat, q: nat, i: nat :| L.RepeatedKey(descs, config, p, q, i);
    var key: G.Key := Some((config.families[p], i));
    var d := G.Members(descs, config, key)[0];
    L.MemberHasKey(descs, config, key, d);
    DescribedIsKnown(m, descs, d);
    assert Repeats(config, p, q) && Claims(m, config, p, d.name);
  }

  lemma DescribedIsKnown(m: M.Model, descs: seq<C.Descriptor>, d: C.Descriptor)
    requires M.Readable(m) && M.InNameOrder(m, descs) && d in descs
    ensures d.name in m.tensors
  {
    var names :| N.Listing(names, m.tensors.Keys) && M.Follows(m, names, descs);
    var k :| 0 <= k < |descs| && descs[k] == d;
    assert names[k] in m.tensors;
  }

  lemma GroupedIds(m: M.Model, config: B.BlockConfig, grouped: seq<B.Block>)
    requires M.Readable(m) && M.BlocksOf(m, config, grouped)
    ensures AllOf(m, grouped) && (Distinct(Ids(grouped)) <==> !FamilyClash(m, config))
  {
    var descs, out: seq<B.Block> :| M.InNameOrder(m, descs) && M.GroupingOf(descs, config, out) &&
      M.StampedFrom(m, out, grouped);
    L.IdsDistinctExactly(descs, config, out);
    StampedIds(m, out, grouped);
    if FamilyClash(m, config) {
      ClashRepeats(m, descs, config);
    } else if L.RepeatedMatch(descs, config) {
      RepeatClashes(m, descs, config);
    }
  }

  /** The blocks of a model, the shared one first. Their ids are distinct exactly
      when no family that claims a tensor is configured twice. */
  method OrderedBlocks(m: M.Model, config: B.BlockConfig) returns (blocks: seq<B.Block>)
    requires M.Readable(m)
    ensures AllOf(m, blocks) && Arranged(m, config, blocks)
    ensures Distinct(Ids(blocks)) <==> !FamilyClash(m, config)
  {
    var grouped := M.ModelBlocks(m, config);
    GroupedIds(m, config, grouped);
    blocks := SharedFirst(grouped);
    SharedMovedKeeps(m, grouped, blocks);
  }

  lemma MovedKeeps(grouped: seq<B.Block>, blocks: seq<B.Block>, k: nat)
    requires SharedMoved(grouped, blocks) && k < |grouped|
    ensures grouped[k] in blocks
  {
    if s :| MovedFirst(grouped, s, blocks) {
      assert blocks[if k == s then 0 else if k < s then k + 1 else k] == grouped[k];
    }
  }

  lemma ListedByName(m: M.Model, descs: seq<C.Descriptor>, t: string)
    requires M.Readable(m) && M.InNameOrder(m, descs) && t in m.tensors
    ensures m.tensors[t] in descs
  {
    var names :| N.Listing(names, m.tensors.Keys) && M.Follows(m, names, descs);
    assert t in m.tensors.Keys;
    var k :| 0 <= k < |names| && names[k] == t;
    assert descs[k] == m.tensors[t];
  }

  lemma EveryTensorIsGrouped(m: M.Model, config: B.BlockConfig, grouped: seq<B.Block>, t: string) returns (k: nat)
    requires M.Readable(m) && M.BlocksOf(m, config, grouped) && t in m.tensors
    ensures k < |grouped| && m.tensors[t] in grouped[k].tensors
    ensures grouped[k].id == match B.MatchName(config, t) case None => UNASSIGNED case Some((f, i)) => B.BlockId(f, i)
  {
    var descs, out: seq<B.Block> :| M.InNameOrder(m, descs) && M.GroupingOf(descs, config, out) &&
      M.StampedFrom(m, out, grouped);
    ListedByName(m, descs, t);
    var d := m.tensors[t];
    var key := B.MatchName(config, d.name);
    L.MemberHasKey(descs, config, key, d);
    assert G.HasKey(out, key);
    k :| 0 <= k < |out| && G.KeyOf(out[k]) == key;
    assert out[k] in out && G.Filed(descs, config, out[k]);
    assert grouped[k] == M.Stamped(m, out[k]);
  }

  /** Every tensor of the checkpoint is in one of the blocks. */
  lemma EveryTensorIsArranged(m: M.Model, config: B.BlockConfig, blocks: seq<B.Block>, t: string)
    requires M.Readable(m) && Arranged(m, config, blocks) && t in m.tensors
    ensures exists b :: b in blocks && m.tensors[t] in b.tensors
  {
    var grouped :| M.BlocksOf(m, config, grouped) && SharedMoved(grouped, blocks);
    var k := EveryTensorIsGrouped(m, config, grouped, t);
    MovedKeeps(grouped, blocks, k);
  }

  ghost predicate InBlock(blocks: seq<B.Block>, id: Id, d: C.Descriptor) {
    exists b :: b in blocks && b.id == id && d in b.tensors
  }

  /** Every tensor is in the block that its name says: of the family and index it
      matches, or the shared block. */
  ghost predicate Placed(m: M.Model, config: B.BlockConfig, blocks: seq<B.Block>) {
    forall t :: t in m.tensors ==>
      match B.MatchName(config, t)
      case Some((f, i)) => InBlock(blocks, B.BlockId(f, i), m.tensors[t])
      case None => InBlock(blocks, UNASSIGNED, m.tensors[t])
  }

  /** Without families named, FLUX's two are meant. */
  ghost predicate FluxPlaced(m: M.Model, blocks: seq<B.Block>) {
    forall t, i: nat :: t in m.tensors && i < U64_LIMIT ==>
      && ("transformer_blocks." + Decimal(i) + "." <= t ==>
            InBlock(blocks, "transformer_blocks." + Decimal(i), m.tensors[t]))
      && ("single_transformer_blocks." + Decimal(i) + "." <= t ==>
            InBlock(blocks, "single_transformer_blocks." + Decimal(i), m.tensors[t]))
  }

  lemma ArrangedIsPlaced(m: M.Model, config: B.BlockConfig, blocks: seq<B.Block>)
    requires M.Readable(m) && Arranged(m, config, blocks)
    ensures Placed(m, config, blocks)
  {
    var grouped :| M.BlocksOf(m, config, grouped) && SharedMoved(grouped, blocks);
    forall t | t in m.tensors
      ensures InBlock(blocks,
        match B.MatchName(config, t) case None => UNASSIGNED case Some((f, i)) => B.BlockId(f, i), m.tensors[t])
    {
      var k := EveryTensorIsGrouped(m, config, grouped, t);
      MovedKeeps(grouped, blocks, k);
    }
  }

  /** Only the first block can be the shared one. */
  ghost predicate SharedInFront(blocks: seq<B.Block>) {
    forall k :: 0 < k < |blocks| ==> blocks[k].id != UNASSIGNED
  }

  lemma SharedIsLast(m: M.Model, config: B.BlockConfig, grouped: seq<B.Block>, i: nat, j: nat)
    requires M.BlocksOf(m, config, grouped) && i < j < |grouped|
    ensures grouped[i].id != UNASSIGNED
  {
    var descs, out: seq<B.Block> :| M.InNameOrder(m, descs) && M.GroupingOf(descs, config, out) &&
      M.StampedFrom(m, out, grouped);
    assert out[i] in out && G.Filed(descs, config, out[i]) && G.Precedes(config.families, out[i], out[j]);
    assert grouped[i] == M.Stamped(m, out[i]);
    B.BlockIdInjective(out[i].family, out[i].index.value, out[i].family, 0);
  }

  ghost predicate SharedAtEnd(grouped: seq<B.Block>) {
    forall i :: 0 <= i < |grouped| - 1 ==> grouped[i].id != UNASSIGNED
  }

  lemma GroupedSharedAtEnd(m: M.Model, config: B.BlockConfig, grouped: seq<B.Block>)
    requires M.BlocksOf(m, config, grouped)
    ensures SharedAtEnd(grouped)
  {
    forall i: nat | i < |grouped| - 1 ensures grouped[i].id != UNASSIGNED {
      SharedIsLast(m, config, grouped, i, |grouped| - 1);
    }
  }

  lemma MovedInFront(grouped: seq<B.Block>, s: nat, blocks: seq<B.Block>)
    requires SharedAtEnd(grouped) && MovedFirst(grouped, s, blocks)
    ensures SharedInFront(blocks)
  {
    assert s == |grouped| - 1;
  }

  lemma SharedMovedInFront(grouped: seq<B.Block>, blocks: seq<B.Block>)
    requires SharedAtEnd(grouped) && SharedMoved(grouped, blocks)
    ensures SharedInFront(blocks)
  {
    if s: nat :| MovedFirst(grouped, s, blocks) {
      MovedInFront(grouped, s, blocks);
    }
  }

  lemma ArrangedHasSharedInFront(m: M.Model, config: B.BlockConfig, blocks: seq<B.Block>)
    requires Arranged(m, config, blocks)
    ensures SharedInFront(blocks)
  {
    var grouped: seq<B.Block> :| M.BlocksOf(m, config, grouped) && SharedMoved(grouped, blocks);
    GroupedSharedAtEnd(m, config, grouped);
    SharedMovedInFront(grouped, blocks);
  }

  /** A name that continues a FLUX block's id matches that block. */
  lemma FluxMatches(k: nat, i: nat, t: string)
    requires k < 2 && i < U64_LIMIT && FLUX[k] + "." + Decimal(i) + "." <= t
    ensures B.MatchName(B.BlockConfig(None, FLUX), t) == Some((FLUX[k], i))
  {
    var config := B.BlockConfig(None, FLUX);
    var rest := t[|FLUX[k] + "." + Decimal(i) + "."|..];
    assert t == B.BlockId(FLUX[k], i) + "." + rest;
    forall f, n | f in FLUX[..k] ensures !B.Belongs(f, n, t) {
      assert t[0] == 's' && f[0] == 't';
    }
    B.NamedAfterBlock(config, k, i, rest, t);
  }

  lemma FluxIsPlaced(m: M.Model, blocks: seq<B.Block>)
    requires Placed(m, B.BlockConfig(None, FLUX), blocks)
    ensures FluxPlaced(m, blocks)
  {
    forall t, i: nat | t in m.tensors && i < U64_LIMIT
      ensures FLUX[0] + "." + Decimal(i) + "." <= t ==> InBlock(blocks, B.BlockId(FLUX[0], i), m.tensors[t])
      ensures FLUX[1] + "." + Decimal(i) + "." <= t ==> InBlock(blocks, B.BlockId(FLUX[1], i), m.tensors[t])
    {
      if FLUX[0] + "." + Decimal(i) + "." <= t {
        FluxMatches(0, i, t);
      }
      if FLUX[1] + "." + Decimal(i) + "." <= t {
        FluxMatches(1, i, t);
      }
    }
    assert forall i: nat :: "transformer_blocks." + Decimal(i) == B.BlockId(FLUX[0], i);
    assert forall i: nat :: "single_transformer_blocks." + Decimal(i) == B.BlockId(FLUX[1], i);
  }

  ghost predicate NoNameTwice(tensors: seq<C.Descriptor>) {
    forall i, j :: 0 <= i < j < |tensors| ==> tensors[i].name != tensors[j].name
  }

  lemma FollowsNames(m: M.Model, names: seq<string>, descs: seq<C.Descriptor>, i: nat)
    requires M.Readable(m) && M.Follows(m, names, descs) && i < |descs|
    ensures i < |names| && descs[i].name == names[i]
  {
  }

  lemma ListedNamesOnce(m: M.Model, descs: seq<C.Descriptor>)
    requires M.Readable(m) && M.InNameOrder(m, descs)
    ensures NoNameTwice(descs)
  {
    var names :| N.Listing(names, m.tensors.Keys) && M.Follows(m, names, descs);
    forall i, j | 0 <= i < j < |descs| ensures descs[i].name != descs[j].name {
      FollowsNames(m, names, descs, i);
      FollowsNames(m, names, descs, j);
    }
  }

  lemma PickedNamesOnce(descs: seq<C.Descriptor>, positions: seq<nat>, tensors: seq<C.Descriptor>)
    requires NoNameTwice(descs) && L.PickedAt(descs, positions, tensors)
    requires forall i, j :: 0 <= i < j < |positions| ==> positions[i] < positions[j]
    ensures NoNameTwice(tensors)
  {
    forall i, j | 0 <= i < j < |tensors| ensures tensors[i].name != tensors[j].name {
      assert descs[positions[i]].name != descs[positions[j]].name;
    }
  }

  lemma FiledNamesOnce(m: M.Model, descs: seq<C.Descriptor>, config: B.BlockConfig, b: B.Block)
    requires M.Readable(m) && M.InNameOrder(m, descs) && G.Filed(descs, config, b)
    ensures NoNameTwice(b.tensors)
  {
    var positions := L.MembersPlaces(descs, config, G.KeyOf(b));
    ListedNamesOnce(m, descs);
    PickedNamesOnce(descs, positions, b.tensors);
  }

  lemma MovedFrom(grouped: seq<B.Block>, blocks: seq<B.Block>, b: B.Block)
    requires SharedMoved(grouped, blocks) && b in blocks
    ensures b in grouped
  {
  }

  /** Within a block no name occurs twice. */
  lemma NamesOnce(m: M.Model, config: B.BlockConfig, blocks: seq<B.Block>, b: B.Block)
    requires M.Readable(m) && Arranged(m, config, blocks) && b in blocks
    ensures NoNameTwice(b.tensors)
  {
    var grouped :| M.BlocksOf(m, config, grouped) && SharedMoved(grouped, blocks);
    MovedFrom(grouped, blocks, b);
    var descs, out: seq<B.Block> :| M.InNameOrder(m, descs) && M.GroupingOf(descs, config, out) &&
      M.StampedFrom(m, out, grouped);
    var k :| 0 <= k < |grouped| && grouped[k] == b;
    assert out[k] in out && G.Filed(descs, config, out[k]) && b == M.Stamped(m, out[k]);
    FiledNamesOnce(m, descs, config, out[k]);
  }

  // --------------------------------------------------------- the execution order

  /** `order` lists, in their order, the ids of exactly the blocks that are not the shared one. */
  ghost predicate ListsBlocks(order: seq<Id>, blocks: seq<B.Block>, places: seq<nat>) {
    && |order| == |places|
    && (forall k :: 0 <= k < |places| ==> places[k] < |blocks| && order[k] == blocks[places[k]].id)
    && (forall k, l :: 0 <= k < l < |places| ==> places[k] < places[l])
    && forall p: nat :: p in places <==> p < |blocks| && blocks[p].id != UNASSIGNED
  }

  lemma ListsNext(order: seq<Id>, blocks: seq<B.Block>, places: seq<nat>, b: B.Block)
    requires ListsBlocks(order, blocks, places)
    ensures b.id == UNASSIGNED ==> ListsBlocks(order, blocks + [b], places)
    ensures b.id != UNASSIGNED ==> ListsBlocks(order + [b.id], blocks + [b], places + [|blocks|])
  {
    forall k | 0 <= k < |places| ensures places[k] < |blocks| && (blocks + [b])[places[k]] == blocks[places[k]] {
      assert places[k] in places;
    }
  }

  lemma {:induction false} OrderListsBlocks(blocks: seq<B.Block>) returns (places: seq<nat>)
    ensures ListsBlocks(Order(blocks), blocks, places)
  {
    if blocks == [] {
      places := [];
    } else {
      var front, last := blocks[..|blocks| - 1], blocks[|blocks| - 1];
      assert blocks == front + [last];
      places := OrderListsBlocks(front);
      ListsNext(Order(front), front, places, last);
      if last.id != UNASSIGNED {
        places := places + [|front|];
      }
    }
  }

  lemma CameFrom(grouped: seq<B.Block>, k: nat, blocks: seq<B.Block>, x: nat)
    requires MovedFirst(grouped, k, blocks) && x < |blocks| && blocks[x].id != UNASSIGNED
    ensures 0 < x && blocks[x] == grouped[if x <= k then x - 1 else x]
  {
    assert blocks[0] == grouped[k];
  }

  lemma MovedPlace(grouped: seq<B.Block>, blocks: seq<B.Block>, x: nat, y: nat) returns (x': nat, y': nat)
    requires SharedMoved(grouped, blocks) && x < y < |blocks|
    requires blocks[x].id != UNASSIGNED && blocks[y].id != UNASSIGNED
    ensures x' < y' < |grouped| && grouped[x'] == blocks[x] && grouped[y'] == blocks[y]
  {
    if k: nat :| MovedFirst(grouped, k, blocks) {
      CameFrom(grouped, k, blocks, x);
      CameFrom(grouped, k, blocks, y);
      x', y' := if x <= k then x - 1 else x, if y <= k then y - 1 else y;
    } else {
      x', y' := x, y;
    }
  }

  /** The ids of blocks of families, and how two of them follow one another: the
      families in configured order, the indices of a family ascending. */
  ghost predicate FamilyOrder(families: seq<string>, b: B.Block, c: B.Block) {
    && b.index.Some? && c.index.Some?
    && b.id == B.BlockId(b.family, b.index.value) && c.id == B.BlockId(c.family, c.index.value)
    && ((b.family == c.family && b.index.value < c.index.value)
        || exists p, q :: 0 <= p < q < |families| && families[p] == b.family && families[q] == c.family)
  }

  lemma GroupedFollow(m: M.Model, config: B.BlockConfig, grouped: seq<B.Block>, x: nat, y: nat)
    requires M.BlocksOf(m, config, grouped) && x < y < |grouped| && grouped[y].id != UNASSIGNED
    ensures FamilyOrder(config.families, grouped[x], grouped[y])
  {
    var descs, out: seq<B.Block> :| M.InNameOrder(m, descs) && M.GroupingOf(descs, config, out) &&
      M.StampedFrom(m, out, grouped);
    assert out[x] in out && out[y] in out;
    assert G.Filed(descs, config, out[x]) && G.Filed(descs, config, out[y]);
    assert grouped[x] == M.Stamped(m, out[x]) && grouped[y] == M.Stamped(m, out[y]);
    assert G.Precedes(config.families, out[x], out[y]);
  }

  /** The engine runs families in configured order, and each in ascending index order. */
  lemma OrderFollowsFamilies(m: M.Model, config: B.BlockConfig, blocks: seq<B.Block>, order: seq<Id>, places: seq<nat>,
                             i: nat, j: nat)
    requires Arranged(m, config, blocks) && ListsBlocks(order, blocks, places) && i < j < |order|
    ensures order[i] == blocks[places[i]].id && order[j] == blocks[places[j]].id
    ensures FamilyOrder(config.families, blocks[places[i]], blocks[places[j]])
  {
    var grouped :| M.BlocksOf(m, config, grouped) && SharedMoved(grouped, blocks);
    assert places[i] in places && places[j] in places;
    var x, y := MovedPlace(grouped, blocks, places[i], places[j]);
    GroupedFollow(m, config, grouped, x, y);
  }

  // ----------------------------------------------------------- the selection

  function Sizes(layout: Layout): map<Id, nat> {
    map id | id in layout.blocks :: layout.blocks[id].totalBytes
  }

  lemma OrderInTable(m: M.Model, blocks: seq<B.Block>, layout: Layout)
    requires M.Readable(m) && AllOf(m, blocks) && Pins(m, blocks, layout)
    ensures UNASSIGNED !in layout.order && (Distinct(Ids(blocks)) ==> Distinct(layout.order))
    ensures forall id :: id in layout.order ==> id in layout.blocks
  {
    if Distinct(Ids(blocks)) {
      OrderIsDistinct(blocks);
    }
    OrderAreBlocks(blocks);
    forall id | id in layout.order ensures id in layout.blocks {
      var k :| 0 <= k < |blocks| && blocks[k].id == id;
      var j := LastExists(blocks, k);
      assert Entered(blocks, j, layout.blocks);
    }
  }

  /** Largest first, each block that still fits the budget: its ids are streaming
      blocks, each once if the order has no repeats. */
  method SelectResident(order: seq<Id>, bytes: map<Id, nat>, budget: nat) returns (ids: seq<Id>)
    requires forall id :: id in order ==> id in bytes
    ensures ids == GreedyIds(order, bytes, budget)
    ensures (forall id :: id in ids ==> id in order) && (Distinct(order) ==> Distinct(ids))
    ensures Selection.GreedyChoice(order, bytes, budget, ids)
    ensures Distinct(order) ==> Selection.FillsBudget(order, bytes, budget, ids)
  {
    var total;
    ids, total := ChooseResident(BlockItems(order, bytes), budget);
    PickedFromOrder(order, bytes, budget);
    Selection.GreedyIdsAreTheChoice(order, bytes, budget);
    if Distinct(order) {
      Selection.SelectionFillsBudget(order, bytes, budget);
    }
  }

  lemma PickedFromOrder(order: seq<Id>, bytes: map<Id, nat>, budget: nat)
    requires forall id :: id in order ==> id in bytes
    ensures Distinct(order) ==> Distinct(GreedyIds(order, bytes, budget))
    ensures forall id :: id in GreedyIds(order, bytes, budget) ==> id in order
  {
    var all := BlockItems(order, bytes);
    var items := SortedBySize(all);
    SortIsPermutation(all);
    PickedAreBlocks(items, Greedy(items, budget));
    if Distinct(order) {
      DistinctItems(all, items);
    }
    forall id | id in Picked(items, Greedy(items, budget)) ensures id in order {
      var i :| 0 <= i < |items| && Greedy(items, budget)[i] && items[i].id == id;
      assert items[i] in multiset(items) && items[i] in multiset(all);
      assert items[i] in all;
    }
  }

  lemma {:induction false} CountsOnce(a: seq<Item>, x: Item)
    requires IdsUnique(a)
    ensures multiset(a)[x] <= 1
  {
    if a != [] {
      var front, last := a[..|a| - 1], a[|a| - 1];
      assert a == front + [last];
      CountsOnce(front, x);
      assert last !in front;
    }
  }

  lemma CountsTwice(b: seq<Item>, i: nat, j: nat)
    requires i < j < |b|
    ensures b[i] == b[j] ==> multiset(b)[b[i]] >= 2
  {
    assert b == b[..i] + [b[i]] + b[i + 1..j] + [b[j]] + b[j + 1..];
  }

  lemma SameItem(a: seq<Item>, x: Item, y: Item)
    requires IdsUnique(a) && x in multiset(a) && y in multiset(a)
    ensures x.id == y.id ==> x == y
  {
    assert x in a && y in a;
  }

  /** A permutation of items with distinct ids has distinct ids. */
  lemma DistinctItems(a: seq<Item>, b: seq<Item>)
    requires multiset(a) == multiset(b) && IdsUnique(a)
    ensures IdsUnique(b)
  {
    forall i, j | 0 <= i < j < |b| ensures b[i].id != b[j].id {
      assert b[i] in multiset(b) && b[j] in multiset(b);
      CountsTwice(b, i, j);
      CountsOnce(a, b[i]);
      SameItem(a, b[i], b[j]);
    }
  }

  // ------------------------------------------------------------ the whole of it

  /** What a successful start leaves: an engine over the pinned blocks, its
      resident pool chosen and filled, nothing streamed yet. */
  ghost predicate BuiltFrom(engine: RustEngine, layout: Layout, residentIds: seq<Id>, vramSlots: nat,
                            residentBudget: nat)
    reads engine
  {
    && engine.Valid() && engine.Model() == Boot(layout.sharedBytes > 0, residentIds, engine.cfg.slotCount)
    && engine.cfg.order == layout.order && engine.cfg.bytes == Sizes(layout)
    && engine.cfg.slotCount == (if vramSlots == 0 then 1 else vramSlots)
    && (forall id :: id in engine.cfg.resident <==> id in residentIds)
    && (forall id :: id in engine.cfg.order ==> id in engine.cfg.bytes)
    && residentIds == GreedyIds(engine.cfg.order, engine.cfg.bytes, residentBudget)
    && Selection.GreedyChoice(engine.cfg.order, engine.cfg.bytes, residentBudget, residentIds)
    && (Distinct(engine.cfg.order) ==>
          Selection.FillsBudget(engine.cfg.order, engine.cfg.bytes, residentBudget, residentIds))
  }

  /** ... and with distinct block ids, an engine that serves its checkpoint. */
  ghost predicate Started(engine: RustEngine, m: M.Model, blocks: seq<B.Block>, layout: Layout, residentIds: seq<Id>,
                          vramSlots: nat, residentBudget: nat)
    reads engine
  {
    && BuiltFrom(engine, layout, residentIds, vramSlots, residentBudget)
    && Serves(m, blocks, layout, engine.cfg, layout.sharedBytes > 0, residentIds)
  }

  lemma SizesInTable(layout: Layout)
    ensures forall id :: id in Sizes(layout) <==> id in layout.blocks
    ensures forall id :: id in Sizes(layout) ==> Sizes(layout)[id] == layout.blocks[id].totalBytes
  {
  }

  /** Starting over pinned blocks. */
  method BuildEngine(layout: Layout, vramSlots: nat, residentBudget: nat)
    returns (engine: RustEngine, ghost residentIds: seq<Id>)
    requires UNASSIGNED !in layout.order && forall id :: id in layout.order ==> id in layout.blocks
    ensures fresh(engine) && BuiltFrom(engine, layout, residentIds, vramSlots, residentBudget)
    ensures Distinct(layout.order) ==> EngineConfig(engine.cfg, layout.sharedBytes > 0, residentIds)
  {
    var bytes := Sizes(layout);
    var ids := SelectResident(layout.order, bytes, residentBudget);
    engine := new RustEngine(layout.order, bytes, layout.sharedBytes > 0, ids, vramSlots);
    residentIds := ids;
  }

  /** What opening and grouping leave: a model of the checkpoint's files, and its
      blocks, every tensor in the block its name says. */
  ghost predicate Grouped(m: M.Model, files: seq<S.File>, blocks: seq<B.Block>, input: M.Input, maxHeaderBytes: nat,
                          families: Option<seq<string>>)
    requires M.Conforming(input)
  {
    && M.Built(m, files, maxHeaderBytes) && M.Holds(input, files, m.tensors)
    && Arranged(m, B.BlockConfig(None, Families(families)), blocks) && SharedInFront(blocks)
    && (families.Some? ==> Placed(m, B.BlockConfig(None, families.value), blocks))
    && (families.None? ==> FluxPlaced(m, blocks))
    && (Distinct(Ids(blocks)) <==> !FamilyClash(m, B.BlockConfig(None, Families(families))))
  }

  /** The first half of the constructor: open the checkpoint and group its tensors. */
  method OpenBlocks(modelIds: M.ModelIds, input: M.Input, maxHeaderBytes: nat, families: Option<seq<string>>)
    returns (r: Result<(M.Model, seq<B.Block>), LoaderError>, ghost files: seq<S.File>)
    requires M.Conforming(input)
    modifies modelIds
    ensures modelIds.next == old(modelIds.next) + if r.Ok? then 1 else 0
    ensures r.Ok? <==> M.Opens(input, maxHeaderBytes)
    ensures r.Err? ==> M.OpenFails(input, maxHeaderBytes, r.error)
    ensures r.Ok? ==>
      && Grouped(r.value.0, files, r.value.1, input, maxHeaderBytes, families)
      && M.Readable(r.value.0) && AllOf(r.value.0, r.value.1) && r.value.0.id == old(modelIds.next)
  {
    var model, located := M.OpenWith(modelIds, input, maxHeaderBytes);
    files := located;
    if model.Err? {
      return Err(model.error), files;
    }
    M.BuiltIsReadable(model.value, files, maxHeaderBytes);
    var config := B.BlockConfig(None, Families(families));
    var blocks := OrderedBlocks(model.value, config);
    ArrangedIsPlaced(model.value, config, blocks);
    ArrangedHasSharedInFront(model.value, config, blocks);
    if families.None? {
      FluxIsPlaced(model.value, blocks);
    }
    return Ok((model.value, blocks)), files;
  }

  /** The constructor: open the checkpoint, group its tensors, pin them if they
      fit the budget, then build the engine. */
  method NewEngine(modelIds: M.ModelIds, input: M.Input, maxHeaderBytes: nat, families: Option<seq<string>>,
                   budget: nat, vramSlots: nat, residentBudget: nat)
    returns (r: Result<RustEngine, EngineError>, ghost m: M.Model, ghost files: seq<S.File>,
             ghost blocks: seq<B.Block>, ghost layout: Layout, ghost residentIds: seq<Id>)
    requires M.Conforming(input)
    modifies modelIds
    ensures modelIds.next == old(modelIds.next) + if M.Opens(input, maxHeaderBytes) then 1 else 0
    ensures M.Opens(input, maxHeaderBytes) ==>
      Grouped(m, files, blocks, input, maxHeaderBytes, families) && m.id == old(modelIds.next)
    ensures r.Ok? <==> M.Opens(input, maxHeaderBytes) && Extent(blocks) <= budget && AllSupported(blocks)
    ensures r.Err? ==>
      if !M.Opens(input, maxHeaderBytes) then
        r.error.LoaderFailed? && M.OpenFails(input, maxHeaderBytes, r.error.error)
      else if Extent(blocks) > budget then r.error == BudgetExceeded(Extent(blocks), budget)
      else exists k: nat, i: nat :: RejectedAt(blocks, k, i, r.error)
    ensures r.Ok? ==>
      && fresh(r.value) && BuiltFrom(r.value, layout, residentIds, vramSlots, residentBudget)
      && (exists places :: ListsBlocks(r.value.cfg.order, blocks, places))
      && (Distinct(Ids(blocks)) ==> Started(r.value, m, blocks, layout, residentIds, vramSlots, residentBudget))
  {
    blocks, residentIds, layout := [], [], Layout(map[], [], 0, []);
    m := M.Model(0, [], map[]);
    var opening, located := OpenBlocks(modelIds, input, maxHeaderBytes, families);
    files := located;
    if opening.Err? {
      return Err(LoaderFailed(opening.error)), m, files, blocks, layout, residentIds;
    }
    m, blocks := opening.value.0, opening.value.1;
    var pinned := FillPinned(opening.value.0, opening.value.1, budget);
    if pinned.Err? {
      return Err(pinned.error), m, files, blocks, layout, residentIds;
    }
    layout := pinned.value;
    OrderInTable(m, blocks, layout);
    SizesInTable(layout);
    ghost var places := OrderListsBlocks(blocks);
    var engine, ids := BuildEngine(pinned.value, vramSlots, residentBudget);
    return Ok(engine), m, files, blocks, layout, ids;
  }

  // ------------------------------------------------------ and what it serves

  lemma MetaNamesOnce(blocks: seq<B.Block>, k: nat)
    requires k < |blocks| && NoNameTwice(blocks[k].tensors)
    ensures NamesDistinct(MetaOf(blocks, k).tensors)
  {
    var tensors, base := blocks[k].tensors, Extent(blocks[..k]);
    var metas := MetaTensors(tensors, base);
    forall i, j | 0 <= i < j < |metas| ensures metas[i].name != metas[j].name {
      assert metas[i] == MetaAt(tensors, base, i) && metas[j] == MetaAt(tensors, base, j);
    }
  }

  lemma MetaExportable(blocks: seq<B.Block>, k: nat)
    requires k < |blocks| && AllSupported(blocks)
    ensures Exportable(MetaOf(blocks, k))
  {
    var tensors, base := blocks[k].tensors, Extent(blocks[..k]);
    var metas := MetaTensors(tensors, base);
    assert BlockSupported(blocks[k]);
    forall i | 0 <= i < |metas| ensures Supported(metas[i].dtype) {
      assert metas[i] == MetaAt(tensors, base, i);
    }
  }

  /** Every pinned block can be handed out: its tensor names are distinct and all
      its types have a descriptor. */
  lemma PinnedIsServable(m: M.Model, config: B.BlockConfig, blocks: seq<B.Block>, layout: Layout, id: Id)
    requires M.Readable(m) && AllOf(m, blocks) && Pins(m, blocks, layout) && Arranged(m, config, blocks)
    requires id in layout.blocks && AllSupported(blocks)
    ensures NamesDistinct(layout.blocks[id].tensors) && Exportable(layout.blocks[id])
  {
    assert HasId(blocks, |blocks|, id);
    var j: nat :| LastWithId(blocks, |blocks|, j) && blocks[j].id == id;
    assert Entered(blocks, j, layout.blocks);
    NamesOnce(m, config, blocks, blocks[j]);
    MetaNamesOnce(blocks, j);
    MetaExportable(blocks, j);
  }

  /** From files to kernels: on a started engine every pinned block can be handed
      out, and under the installed hooks a running kernel that reads through the
      views it was handed finds the payloads of the checkpoint's files. */
  lemma StartedReadsTheCheckpoint(
      engine: RustEngine, m: M.Model, files: seq<S.File>, maxHeaderBytes: nat, config: B.BlockConfig,
      blocks: seq<B.Block>, layout: Layout, residentIds: seq<Id>, vramSlots: nat, residentBudget: nat,
      ahead: nat, steps: nat, run: seq<Cursors>, k: nat, loc: Loc, id: Id, base: Loc -> nat, views: map<string, View>)
    requires Started(engine, m, blocks, layout, residentIds, vramSlots, residentBudget)
    requires M.Built(m, files, maxHeaderBytes) && Arranged(m, config, blocks) && AllSupported(blocks)
    requires engine.cfg.order != [] && ahead > 0 && Rehearsed(engine.cfg, ahead, steps)
    requires var log := Run(engine.cfg, Session(engine.Model(), map[]), AttachCalls(engine.cfg, ahead, steps)).host.log;
      && Execution(log, engine.cfg.start, run) && k < |run|
      && (InRange(log, run[k]) ==> KernelInFlight(log, run[k].compute, loc, id))
    requires id in layout.blocks ==> HandedOut(layout, id, base(loc), views)
    ensures forall b :: b in layout.blocks ==> NamesDistinct(layout.blocks[b].tensors) && Exportable(layout.blocks[b])
    ensures
      var log := Run(engine.cfg, Session(engine.Model(), map[]), AttachCalls(engine.cfg, ahead, steps)).host.log;
      && CopiesFit(engine.cfg, log) && InRange(log, run[k]) && !WriteInFlight(log, run[k].transfer, loc)
      && id in layout.blocks
      && ViewsReadFiles(m, files, layout, ContentAt(log, run[k].transfer, loc), base(loc), views)
  {
    forall b | b in layout.blocks ensures NamesDistinct(layout.blocks[b].tensors) && Exportable(layout.blocks[b]) {
      PinnedIsServable(m, config, blocks, layout, b);
    }
    AttachReadsTheCheckpoint(m, files, maxHeaderBytes, blocks, layout, engine.cfg, layout.sharedBytes > 0, residentIds,
      ahead, steps, run, k, loc, id, base, views);
  }
}
