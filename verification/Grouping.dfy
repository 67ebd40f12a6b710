/** Partitioning a list of tensors into blocks. */
module Grouping {
  import opened Common
  import opened Checkpoint
  import opened Blocks

  /** What a tensor is filed under: a family and index, or nothing. */
  type Key = Option<(string, nat)>

  function KeyOf(b: Block): Key {
    if b.index.None? then None else Some((b.family, b.index.value))
  }

  /** The tensors with a given key, in input order. */
  function Members(descs: seq<Descriptor>, config: BlockConfig, key: Key): seq<Descriptor> {
    if descs == [] then []
    else
      var last := descs[|descs| - 1];
      Members(descs[..|descs| - 1], config, key) + if MatchName(config, last.name) == key then [last] else []
  }

  /** A block of the grouping: all the tensors with its key and nothing else. */
  ghost predicate Filed(descs: seq<Descriptor>, config: BlockConfig, b: Block) {
    && b.tensors == Members(descs, config, KeyOf(b)) && b.tensors != [] && b.modelId == 0
    && (if b.index.None? then b.id == UNASSIGNED && b.family == UNASSIGNED
        else b.id == BlockId(b.family, b.index.value) && b.family in config.families)
  }

  /** Families in configured order, indices ascending in a family, unassigned last. */
  ghost predicate Precedes(families: seq<string>, b: Block, c: Block) {
    && b.index.Some?
    && (|| c.index.None?
        || (b.family == c.family && b.index.value < c.index.value)
        || exists p, q :: 0 <= p < q < |families| && families[p] == b.family && families[q] == c.family)
  }

  ghost predicate Ordered(families: seq<string>, out: seq<Block>) {
    forall i, j :: 0 <= i < j < |out| ==> Precedes(families, out[i], out[j])
  }

  ghost predicate HasKey(out: seq<Block>, key: Key) {
    exists k :: 0 <= k < |out| && KeyOf(out[k]) == key
  }

  ghost predicate AllFiled(descs: seq<Descriptor>, config: BlockConfig, out: seq<Block>) {
    forall b :: b in out ==> Filed(descs, config, b)
  }

  ghost predicate Grouped(descs: seq<Descriptor>, config: BlockConfig, out: seq<Block>) {
    && AllFiled(descs, config, out)
    && Ordered(config.families, out)
    && forall key :: Members(descs, config, key) != [] ==> HasKey(out, key)
  }

  // -------------------------------------------------------------- grouping

  type ByIndex = map<nat, seq<Descriptor>>

  ghost predicate IndexTable(byIndex: ByIndex, family: string, descs: seq<Descriptor>, config: BlockConfig) {
    && (forall i :: i in byIndex <==> Members(descs, config, Some((family, i))) != [])
    && forall i :: i in byIndex ==> byIndex[i] == Members(descs, config, Some((family, i)))
  }

  ghost predicate FamilyTable(byFamily: map<string, ByIndex>, descs: seq<Descriptor>, config: BlockConfig) {
    && (forall f :: f in byFamily <==> f in config.families)
    && forall f :: f in byFamily ==> IndexTable(byFamily[f], f, descs, config)
  }

  lemma MembersStep(descs: seq<Descriptor>, d: Descriptor, config: BlockConfig, key: Key)
    ensures Members(descs + [d], config, key)
      == if MatchName(config, d.name) == key then Members(descs, config, key) + [d] else Members(descs, config, key)
  {
    assert (descs + [d])[..|descs|] == descs;
  }

  /** `entry(idx).or_default().push(d)`. */
  function Pushed(byIndex: ByIndex, idx: nat, d: Descriptor): ByIndex {
    byIndex[idx := (if idx in byIndex then byIndex[idx] else []) + [d]]
  }

  lemma IndexTableStep(byIndex: ByIndex, family: string, descs: seq<Descriptor>, config: BlockConfig, d: Descriptor)
    requires IndexTable(byIndex, family, descs, config)
    ensures match MatchName(config, d.name)
      case Some((f, idx)) =>
        IndexTable(if f == family then Pushed(byIndex, idx, d) else byIndex, family, descs + [d], config)
      case None => IndexTable(byIndex, family, descs + [d], config)
  {
    var key := MatchName(config, d.name);
    forall i: nat
      ensures key == Some((family, i)) ==>
        Members(descs + [d], config, Some((family, i))) == Members(descs, config, Some((family, i))) + [d]
      ensures key != Some((family, i)) ==>
        Members(descs + [d], config, Some((family, i))) == Members(descs, config, Some((family, i)))
    {
      MembersStep(descs, d, config, Some((family, i)));
    }
  }

  lemma FamilyTableStep(byFamily: map<string, ByIndex>, descs: seq<Descriptor>, config: BlockConfig, d: Descriptor,
                        byFamily': map<string, ByIndex>)
    requires FamilyTable(byFamily, descs, config)
    requires match MatchName(config, d.name)
      case Some((f, idx)) => f in byFamily && byFamily' == byFamily[f := Pushed(byFamily[f], idx, d)]
      case None => byFamily' == byFamily
    ensures FamilyTable(byFamily', descs + [d], config)
  {
    forall f | f in byFamily' ensures IndexTable(byFamily'[f], f, descs + [d], config) {
      IndexTableStep(byFamily[f], f, descs, config, d);
    }
  }

  /** Filing every tensor under its family and index, or as unassigned. */
  method FileAll(descs: seq<Descriptor>, config: BlockConfig)
    returns (byFamily: map<string, ByIndex>, unassigned: seq<Descriptor>)
    ensures FamilyTable(byFamily, descs, config) && unassigned == Members(descs, config, None)
  {
    byFamily, unassigned := map[], [];
    for p := 0 to |config.families|
      invariant forall f :: f in byFamily <==> f in config.families[..p]
      invariant forall f :: f in byFamily ==> byFamily[f] == map[]
    {
      if config.families[p] !in byFamily {
        byFamily := byFamily[config.families[p] := map[]];
      }
    }
    for k := 0 to |descs|
      invariant FamilyTable(byFamily, descs[..k], config)
      invariant unassigned == Members(descs[..k], config, None)
    {
      var d := descs[k];
      assert descs[..k + 1] == descs[..k] + [d];
      MembersStep(descs[..k], d, config, None);
      ghost var before := byFamily;
      match MatchName(config, d.name) {
        case Some((family, idx)) =>
          MatchedInFamilies(config, d.name);
          byFamily := byFamily[family := Pushed(byFamily[family], idx, d)];
        case None =>
          unassigned := unassigned + [d];
      }
      FamilyTableStep(before, descs[..k], config, d, byFamily);
    }
    assert descs[..|descs|] == descs;
  }

  ghost predicate Ascending(r: seq<nat>, s: set<nat>) {
    && (forall x :: x in r <==> x in s)
    && forall i, j :: 0 <= i < j < |r| ==> r[i] < r[j]
  }

  lemma AscendingGrows(r: seq<nat>, left: set<nat>, s: set<nat>, m: nat)
    requires left <= s && Ascending(r, s - left) && m in left
    requires forall x, y :: x in r && y in left ==> x < y
    ensures Ascending(r + [m], s - (left - {m}))
  {
    forall i, j | 0 <= i < j < |r + [m]| ensures (r + [m])[i] < (r + [m])[j] {
      assert r[i] in r;
    }
  }

  method SortIndices(s: set<nat>) returns (r: seq<nat>)
    ensures Ascending(r, s)
  {
    var left := s;
    r := [];
    while left != {}
      invariant left <= s && Ascending(r, s - left)
      invariant forall x, y :: x in r && y in left ==> x < y
      decreases |left|
    {
      var least := FindLeast(left);
      AscendingGrows(r, left, s, least);
      r := r + [least];
      left := left - {least};
    }
    assert s - left == s;
  }

  method FindLeast(s: set<nat>) returns (m: nat)
    requires s != {}
    ensures m in s && forall x :: x in s ==> m <= x
  {
    m :| m in s;
    var left := s - {m};
    while left != {}
      invariant left <= s && m in s
      invariant forall x :: x in s ==> x in left || m <= x
      decreases |left|
    {
      var x :| x in left;
      left := left - {x};
      if x < m {
        m := x;
      }
    }
  }

  /** The blocks of one family: every index in use, ascending. */
  ghost predicate FamilyBlocks(family: string, descs: seq<Descriptor>, config: BlockConfig, out: seq<Block>) {
    && AllFiled(descs, config, out)
    && (forall k :: 0 <= k < |out| ==> out[k].index.Some? && out[k].family == family)
    && (forall i, j :: 0 <= i < j < |out| ==> out[i].index.value < out[j].index.value)
    && forall i :: Members(descs, config, Some((family, i))) != [] ==> HasKey(out, Some((family, i)))
  }

  ghost predicate OnePerIndex(family: string, indices: seq<nat>, descs: seq<Descriptor>, config: BlockConfig,
                              out: seq<Block>, n: nat)
  {
    && |out| == n <= |indices|
    && forall j :: 0 <= j < n ==>
      && out[j] == Block(BlockId(family, indices[j]), family, Some(indices[j]),
                         Members(descs, config, Some((family, indices[j]))), 0)
      && out[j].tensors != []
  }

  lemma AllIndicesListed(family: string, byIndex: ByIndex, indices: seq<nat>, descs: seq<Descriptor>,
                         config: BlockConfig, out: seq<Block>)
    requires family in config.families && IndexTable(byIndex, family, descs, config)
    requires forall i :: i in indices <==> i in byIndex.Keys
    requires OnePerIndex(family, indices, descs, config, out, |indices|)
    ensures forall i :: Members(descs, config, Some((family, i))) != [] ==> HasKey(out, Some((family, i)))
  {
    forall i | Members(descs, config, Some((family, i))) != [] ensures HasKey(out, Some((family, i))) {
      assert i in byIndex.Keys;
      var k :| 0 <= k < |indices| && indices[k] == i;
      assert KeyOf(out[k]) == Some((family, i));
    }
  }

  lemma OnePerIndexIsFamily(family: string, byIndex: ByIndex, indices: seq<nat>, descs: seq<Descriptor>,
                            config: BlockConfig, out: seq<Block>)
    requires family in config.families && IndexTable(byIndex, family, descs, config)
    requires forall i :: i in indices <==> i in byIndex.Keys
    requires forall i, j :: 0 <= i < j < |indices| ==> indices[i] < indices[j]
    requires OnePerIndex(family, indices, descs, config, out, |indices|)
    ensures FamilyBlocks(family, descs, config, out)
  {
    AllIndicesListed(family, byIndex, indices, descs, config, out);
    forall b | b in out ensures Filed(descs, config, b) {
      var k :| 0 <= k < |out| && out[k] == b;
    }
  }

  lemma OneMoreIndex(family: string, byIndex: ByIndex, indices: seq<nat>, descs: seq<Descriptor>, config: BlockConfig,
                     out: seq<Block>, k: nat)
    requires IndexTable(byIndex, family, descs, config) && OnePerIndex(family, indices, descs, config, out, k)
    requires k < |indices| && indices[k] in byIndex
    ensures var b := Block(BlockId(family, indices[k]), family, Some(indices[k]), byIndex[indices[k]], 0);
      OnePerIndex(family, indices, descs, config, out + [b], k + 1)
  {
  }

  method BlocksOf(family: string, byIndex: ByIndex, ghost descs: seq<Descriptor>, ghost config: BlockConfig)
    returns (out: seq<Block>)
    requires family in config.families && IndexTable(byIndex, family, descs, config)
    ensures FamilyBlocks(family, descs, config, out)
  {
    var indices := SortIndices(byIndex.Keys);
    out := [];
    for k := 0 to |indices|
      invariant OnePerIndex(family, indices, descs, config, out, k)
    {
      var idx := indices[k];
      assert idx in byIndex.Keys;
      OneMoreIndex(family, byIndex, indices, descs, config, out, k);
      out := out + [Block(BlockId(family, idx), family, Some(idx), byIndex[idx], 0)];
    }
    OnePerIndexIsFamily(family, byIndex, indices, descs, config, out);
  }

  /** The blocks of the first families. */
  ghost predicate GroupedUpTo(descs: seq<Descriptor>, config: BlockConfig, p: nat, out: seq<Block>)
    requires p <= |config.families|
  {
    && AllFiled(descs, config, out)
    && Ordered(config.families, out)
    && (forall b :: b in out ==> b.index.Some? && b.family in config.families[..p])
    && forall f, i :: f in config.families[..p] && Members(descs, config, Some((f, i))) != [] ==>
      HasKey(out, Some((f, i)))
  }

  lemma HasKeyGrows(out: seq<Block>, more: seq<Block>, key: Key)
    requires HasKey(out, key) || HasKey(more, key)
    ensures HasKey(out + more, key)
  {
    if HasKey(out, key) {
      var k :| 0 <= k < |out| && KeyOf(out[k]) == key;
      assert KeyOf((out + more)[k]) == key;
    } else {
      var k :| 0 <= k < |more| && KeyOf(more[k]) == key;
      assert KeyOf((out + more)[|out| + k]) == key;
    }
  }

  lemma GroupedStep(descs: seq<Descriptor>, config: BlockConfig, p: nat, out: seq<Block>, more: seq<Block>)
    requires p < |config.families| && GroupedUpTo(descs, config, p, out)
    requires FamilyBlocks(config.families[p], descs, config, more)
    ensures GroupedUpTo(descs, config, p + 1, out + more)
  {
    var families := config.families;
    var all := out + more;
    assert families[..p + 1] == families[..p] + [families[p]];
    forall i, j | 0 <= i < j < |all| ensures Precedes(families, all[i], all[j]) {
      if i < |out| <= j {
        assert out[i] in out && more[j - |out|] in more;
        var q :| 0 <= q < p && families[..p][q] == out[i].family;
        assert families[q] == all[i].family && families[p] == all[j].family;
      } else if |out| <= i {
        assert more[i - |out|].index.value < more[j - |out|].index.value;
      }
    }
    forall f, i | f in families[..p + 1] && Members(descs, config, Some((f, i))) != []
      ensures HasKey(all, Some((f, i)))
    {
      HasKeyGrows(out, more, Some((f, i)));
    }
  }

  lemma MembersMatch(descs: seq<Descriptor>, config: BlockConfig, key: Key)
    requires key.Some? && Members(descs, config, key) != []
    ensures key.value.0 in config.families && key.value.1 < U64_LIMIT
  {
    var last := descs[|descs| - 1];
    if MatchName(config, last.name) == key {
      MatchedInFamilies(config, last.name);
    } else {
      MembersMatch(descs[..|descs| - 1], config, key);
    }
  }

  lemma GroupedEnds(descs: seq<Descriptor>, config: BlockConfig, out: seq<Block>, more: seq<Block>)
    requires GroupedUpTo(descs, config, |config.families|, out)
    requires more == if Members(descs, config, None) == [] then []
                     else [Block(UNASSIGNED, UNASSIGNED, None, Members(descs, config, None), 0)]
    ensures Grouped(descs, config, out + more)
  {
    var families := config.families;
    assert families[..|families|] == families;
    forall key | Members(descs, config, key) != [] ensures HasKey(out + more, key) {
      if key.Some? {
        MembersMatch(descs, config, key);
      } else {
        assert KeyOf(more[0]) == None;
      }
      HasKeyGrows(out, more, key);
    }
    forall i, j | 0 <= i < j < |out + more| ensures Precedes(families, (out + more)[i], (out + more)[j]) {
      if j == |out| {
        assert out[i] in out;
      }
    }
  }

  function Joined(parts: seq<seq<Block>>): seq<Block> {
    if parts == [] then [] else Joined(parts[..|parts| - 1]) + parts[|parts| - 1]
  }

  function UnassignedPart(descs: seq<Descriptor>, config: BlockConfig): seq<Block> {
    var rest := Members(descs, config, None);
    if rest == [] then [] else [Block(UNASSIGNED, UNASSIGNED, None, rest, 0)]
  }

  ghost predicate Sections(descs: seq<Descriptor>, config: BlockConfig, parts: seq<seq<Block>>, k: nat) {
    && |parts| == k <= |config.families|
    && forall p :: 0 <= p < k ==> FamilyBlocks(config.families[p], descs, config, parts[p])
  }

  /** One section per configured family, repeated families included, then the unassigned block. */
  ghost predicate Sectioned(descs: seq<Descriptor>, config: BlockConfig, out: seq<Block>) {
    exists parts :: Sections(descs, config, parts, |config.families|) &&
      out == Joined(parts) + UnassignedPart(descs, config)
  }

  lemma JoinedStep(parts: seq<seq<Block>>, more: seq<Block>)
    ensures Joined(parts + [more]) == Joined(parts) + more
  {
    assert (parts + [more])[..|parts|] == parts;
  }

  method GroupBlocks(descs: seq<Descriptor>, config: BlockConfig) returns (out: seq<Block>)
    ensures Grouped(descs, config, out) && Sectioned(descs, config, out)
  {
    var byFamily, unassigned := FileAll(descs, config);
    out := [];
    ghost var parts: seq<seq<Block>> := [];
    for p := 0 to |config.families|
      invariant GroupedUpTo(descs, config, p, out)
      invariant Sections(descs, config, parts, p) && out == Joined(parts)
    {
      var family := config.families[p];
      var more := BlocksOf(family, byFamily[family], descs, config);
      GroupedStep(descs, config, p, out, more);
      JoinedStep(parts, more);
      parts := parts + [more];
      out := out + more;
    }
    ghost var placed := out;
    if unassigned != [] {
      out := out + [Block(UNASSIGNED, UNASSIGNED, None, unassigned, 0)];
    }
    GroupedEnds(descs, config, placed, out[|placed|..]);
    assert out == placed + out[|placed|..];
    assert out == Joined(parts) + UnassignedPart(descs, config);
  }
}
