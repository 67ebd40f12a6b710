/** What a grouping guarantees, and finding one block without building the others. */
module Lookup {
  import opened Common
  import opened Text
  import opened Checkpoint
  import opened Blocks
  import opened Grouping

  // ---------------------------------------------------------- the partition

  function Flatten(out: seq<Block>): seq<Descriptor> {
    if out == [] then [] else Flatten(out[..|out| - 1]) + out[|out| - 1].tensors
  }

  function Collected(descs: seq<Descriptor>, config: BlockConfig, keys: seq<Key>): seq<Descriptor> {
    if keys == [] then []
    else Collected(descs, config, keys[..|keys| - 1]) + Members(descs, config, keys[|keys| - 1])
  }

  lemma {:induction false} CollectedStep(descs: seq<Descriptor>, d: Descriptor, config: BlockConfig, keys: seq<Key>)
    requires Distinct(keys)
    ensures multiset(Collected(descs + [d], config, keys))
      == multiset(Collected(descs, config, keys)) +
        if MatchName(config, d.name) in keys then multiset{d} else multiset{}
  {
    if keys != [] {
      var front, last := keys[..|keys| - 1], keys[|keys| - 1];
      assert keys == front + [last];
      CollectedStep(descs, d, config, front);
      MembersStep(descs, d, config, last);
    }
  }

  lemma {:induction false} NothingCollected(config: BlockConfig, keys: seq<Key>)
    ensures Collected([], config, keys) == []
  {
    if keys != [] {
      NothingCollected(config, keys[..|keys| - 1]);
    }
  }

  lemma {:induction false} CollectedIsAll(descs: seq<Descriptor>, config: BlockConfig, keys: seq<Key>)
    requires Distinct(keys) && forall d :: d in descs ==> MatchName(config, d.name) in keys
    ensures multiset(Collected(descs, config, keys)) == multiset(descs)
  {
    if descs == [] {
      NothingCollected(config, keys);
    } else {
      var front, last := descs[..|descs| - 1], descs[|descs| - 1];
      assert descs == front + [last];
      CollectedIsAll(front, config, keys);
      CollectedStep(front, last, config, keys);
    }
  }

  function Keys(out: seq<Block>): seq<Key> {
    seq(|out|, k requires 0 <= k < |out| => KeyOf(out[k]))
  }

  lemma {:induction false} FlattenIsCollected(descs: seq<Descriptor>, config: BlockConfig, out: seq<Block>)
    requires AllFiled(descs, config, out)
    ensures Flatten(out) == Collected(descs, config, Keys(out))
  {
    if out != [] {
      var front, last := out[..|out| - 1], out[|out| - 1];
      assert Keys(out)[..|out| - 1] == Keys(front);
      assert Filed(descs, config, last);
      FlattenIsCollected(descs, config, front);
    }
  }

  /** `positions` are exactly the places of the tensors with a key, in order. */
  ghost predicate Places(descs: seq<Descriptor>, config: BlockConfig, key: Key, positions: seq<nat>) {
    && (forall p: nat :: p in positions <==> p < |descs| && MatchName(config, descs[p].name) == key)
    && forall i, j :: 0 <= i < j < |positions| ==> positions[i] < positions[j]
  }

  ghost predicate PickedAt(descs: seq<Descriptor>, positions: seq<nat>, tensors: seq<Descriptor>) {
    |tensors| == |positions| && forall k :: 0 <= k < |tensors| ==>
      positions[k] < |descs| && tensors[k] == descs[positions[k]]
  }

  lemma {:induction false} MembersPlaces(descs: seq<Descriptor>, config: BlockConfig, key: Key)
    returns (positions: seq<nat>)
    ensures Places(descs, config, key, positions) && PickedAt(descs, positions, Members(descs, config, key))
  {
    if descs == [] {
      positions := [];
    } else {
      var front, last := descs[..|descs| - 1], |descs| - 1;
      positions := MembersPlaces(front, config, key);
      var before := positions;
      assert descs == front + [descs[last]];
      if MatchName(config, descs[last].name) == key {
        positions := positions + [last];
      }
      PlacesStep(front, descs[last], config, key, before, positions);
      assert PickedAt(descs, before, Members(front, config, key));
    }
  }

  lemma PlacesStep(front: seq<Descriptor>, d: Descriptor, config: BlockConfig, key: Key, before: seq<nat>,
                   positions: seq<nat>)
    requires Places(front, config, key, before)
    requires positions == before + if MatchName(config, d.name) == key then [|front|] else []
    ensures Places(front + [d], config, key, positions)
  {
    forall i, j | 0 <= i < j < |positions| ensures positions[i] < positions[j] {
      assert before[i] in before;
    }
  }

  lemma MemberHasKey(descs: seq<Descriptor>, config: BlockConfig, key: Key, d: Descriptor)
    ensures d in Members(descs, config, key) <==> d in descs && MatchName(config, d.name) == key
  {
    var positions := MembersPlaces(descs, config, key);
    var members := Members(descs, config, key);
    if d in descs && MatchName(config, d.name) == key {
      var p :| 0 <= p < |descs| && descs[p] == d;
      assert p in positions;
      var k :| 0 <= k < |positions| && positions[k] == p;
      assert members[k] == d;
    }
    if d in members {
      var k :| 0 <= k < |members| && members[k] == d;
      assert positions[k] in positions;
    }
  }

  lemma KeysDistinct(descs: seq<Descriptor>, config: BlockConfig, out: seq<Block>)
    requires Distinct(config.families) && Ordered(config.families, out)
    ensures Distinct(Keys(out))
  {
    forall i, j | 0 <= i < j < |out| ensures KeyOf(out[i]) != KeyOf(out[j]) {
      assert Precedes(config.families, out[i], out[j]);
    }
  }

  lemma KeyIsTaken(descs: seq<Descriptor>, config: BlockConfig, out: seq<Block>, d: Descriptor)
    requires Grouped(descs, config, out) && d in descs
    ensures MatchName(config, d.name) in Keys(out)
  {
    var key := MatchName(config, d.name);
    MemberHasKey(descs, config, key, d);
    assert HasKey(out, key);
    var k :| 0 <= k < |out| && KeyOf(out[k]) == key;
    assert Keys(out)[k] == key;
  }

  /** With distinct families, grouping is a partition: every tensor is in one
      block, as often as it was listed. */
  lemma GroupingPartitions(descs: seq<Descriptor>, config: BlockConfig, out: seq<Block>)
    requires Distinct(config.families) && Grouped(descs, config, out)
    ensures multiset(Flatten(out)) == multiset(descs)
    ensures Distinct(Keys(out))
  {
    KeysDistinct(descs, config, out);
    FlattenIsCollected(descs, config, out);
    forall d | d in descs ensures MatchName(config, d.name) in Keys(out) {
      KeyIsTaken(descs, config, out, d);
    }
    CollectedIsAll(descs, config, Keys(out));
  }

  /** A block holds exactly the tensors whose names carry its key, at least one,
      in input order. */
  lemma BlockKeepsOrder(descs: seq<Descriptor>, config: BlockConfig, out: seq<Block>, b: Block)
    returns (positions: seq<nat>)
    requires Grouped(descs, config, out) && b in out
    ensures Places(descs, config, KeyOf(b), positions) && PickedAt(descs, positions, b.tensors)
    ensures b.tensors != []
    ensures forall d :: d in b.tensors <==> d in descs && MatchName(config, d.name) == KeyOf(b)
  {
    assert Filed(descs, config, b);
    positions := MembersPlaces(descs, config, KeyOf(b));
    forall d ensures d in b.tensors <==> d in descs && MatchName(config, d.name) == KeyOf(b) {
      MemberHasKey(descs, config, KeyOf(b), d);
    }
  }

  /** ... and no two blocks share an id. */
  lemma IdsDistinct(descs: seq<Descriptor>, config: BlockConfig, out: seq<Block>)
    requires Distinct(config.families) && Grouped(descs, config, out)
    ensures forall i, j :: 0 <= i < j < |out| ==> out[i].id != out[j].id
  {
    KeysDistinct(descs, config, out);
    forall i, j | 0 <= i < j < |out| ensures out[i].id != out[j].id {
      assert out[i] in out && out[j] in out;
      assert Keys(out)[i] != Keys(out)[j];
      if out[i].id == out[j].id {
        SameIdSameKey(descs, config, out[i], out[j]);
      }
    }
  }

  lemma SameIdSameKey(descs: seq<Descriptor>, config: BlockConfig, b: Block, c: Block)
    requires Filed(descs, config, b) && Filed(descs, config, c) && b.id == c.id
    ensures b == c
  {
    if b.index.Some? && c.index.Some? {
      BlockIdInjective(b.family, b.index.value, c.family, c.index.value);
    } else if b.index.Some? {
      BlockIdInjective(b.family, b.index.value, b.family, 0);
    } else if c.index.Some? {
      BlockIdInjective(c.family, c.index.value, c.family, 0);
    }
  }

  // ------------------------------------------------- only one grouping exists

  lemma FirstPrecedes(families: seq<string>, a: seq<Block>, x: Block)
    requires Ordered(families, a) && x in a
    ensures x == a[0] || Precedes(families, a[0], x)
  {
  }

  lemma PrecedesOneWay(families: seq<string>, b: Block, c: Block)
    requires Distinct(families)
    ensures !(Precedes(families, b, c) && Precedes(families, c, b))
  {
  }

  lemma {:induction false} SortedUnique(families: seq<string>, a: seq<Block>, b: seq<Block>)
    requires Distinct(families) && Ordered(families, a) && Ordered(families, b)
    requires forall x :: x in a <==> x in b
    ensures a == b
    decreases |a|
  {
    if a == [] || b == [] {
      if a != [] { HasMember(a); }
      if b != [] { HasMember(b); }
    } else {
      FirstPrecedes(families, a, b[0]);
      FirstPrecedes(families, b, a[0]);
      PrecedesOneWay(families, a[0], b[0]);
      forall x ensures x in a[1..] <==> x in b[1..] {
        TailMembers(families, a, x);
        TailMembers(families, b, x);
      }
      SortedUnique(families, a[1..], b[1..]);
      assert a == [a[0]] + a[1..] && b == [b[0]] + b[1..];
    }
  }

  lemma TailMembers(families: seq<string>, a: seq<Block>, x: Block)
    requires Distinct(families) && Ordered(families, a) && a != []
    ensures x in a[1..] <==> x in a && x != a[0]
  {
    if x in a && x != a[0] {
      var i :| 0 <= i < |a| && a[i] == x;
      assert a[1..][i - 1] == x;
    }
    if x in a[1..] {
      var i :| 0 <= i < |a| - 1 && a[1..][i] == x;
      assert Precedes(families, a[0], a[i + 1]);
    }
  }

  lemma SameKeySameBlock(descs: seq<Descriptor>, config: BlockConfig, b: Block, c: Block)
    requires Filed(descs, config, b) && Filed(descs, config, c) && KeyOf(b) == KeyOf(c)
    ensures b == c
  {
  }

  lemma FamilyOrdered(family: string, descs: seq<Descriptor>, config: BlockConfig, out: seq<Block>)
    requires FamilyBlocks(family, descs, config, out)
    ensures Ordered([family], out)
  {
  }

  lemma FamilyMember(family: string, descs: seq<Descriptor>, config: BlockConfig, a: seq<Block>, b: seq<Block>,
                     x: Block)
    requires FamilyBlocks(family, descs, config, a) && FamilyBlocks(family, descs, config, b) && x in a
    ensures x in b
  {
    var i :| 0 <= i < |a| && a[i] == x;
    assert Filed(descs, config, x) && KeyOf(x) == Some((family, x.index.value));
    assert HasKey(b, Some((family, x.index.value)));
    var k :| 0 <= k < |b| && KeyOf(b[k]) == KeyOf(x);
    assert b[k] in b;
    SameKeySameBlock(descs, config, x, b[k]);
  }

  lemma FamilyDetermined(family: string, descs: seq<Descriptor>, config: BlockConfig, a: seq<Block>, b: seq<Block>)
    requires FamilyBlocks(family, descs, config, a) && FamilyBlocks(family, descs, config, b)
    ensures a == b
  {
    FamilyOrdered(family, descs, config, a);
    FamilyOrdered(family, descs, config, b);
    forall x ensures x in a <==> x in b {
      if x in a { FamilyMember(family, descs, config, a, b, x); }
      if x in b { FamilyMember(family, descs, config, b, a, x); }
    }
    SortedUnique([family], a, b);
  }

  /** The guarantees leave no choice: the grouping is determined, whatever families
      are configured. */
  lemma GroupingDetermined(descs: seq<Descriptor>, config: BlockConfig, out: seq<Block>, out': seq<Block>)
    requires Sectioned(descs, config, out) && Sectioned(descs, config, out')
    ensures out == out'
  {
    var n := |config.families|;
    var parts :| Sections(descs, config, parts, n) && out == Joined(parts) + UnassignedPart(descs, config);
    var parts' :| Sections(descs, config, parts', n) && out' == Joined(parts') + UnassignedPart(descs, config);
    forall p | 0 <= p < n ensures parts[p] == parts'[p] {
      FamilyDetermined(config.families[p], descs, config, parts[p], parts'[p]);
    }
    assert parts == parts';
  }

  lemma {:induction false} PartIsJoined(parts: seq<seq<Block>>, p: nat, k: nat) returns (at: nat)
    requires p < |parts| && k < |parts[p]|
    ensures at < |Joined(parts)| && Joined(parts)[at] == parts[p][k]
    ensures |Joined(parts[..p])| <= at < |Joined(parts[..p])| + |parts[p]|
  {
    var n := |parts| - 1;
    if p == n {
      at := |Joined(parts[..n])| + k;
    } else {
      at := PartIsJoined(parts[..n], p, k);
      assert parts[..n][..p] == parts[..p];
    }
  }

  lemma {:induction false} JoinedGrows(parts: seq<seq<Block>>, p: nat, q: nat)
    requires p < q <= |parts|
    ensures |Joined(parts[..p])| + |parts[p]| <= |Joined(parts[..q])|
    decreases q
  {
    assert parts[..q][..q - 1] == parts[..q - 1];
    if p < q - 1 {
      JoinedGrows(parts, p, q - 1);
    }
  }

  lemma SharedKeyRepeats(descs: seq<Descriptor>, config: BlockConfig, parts: seq<seq<Block>>, p: nat, q: nat, key: Key)
    requires p < q < |parts| && AllFiled(descs, config, parts[p]) && AllFiled(descs, config, parts[q])
    requires HasKey(parts[p], key) && HasKey(parts[q], key)
    ensures IdRepeats(Joined(parts))
  {
    var a :| 0 <= a < |parts[p]| && KeyOf(parts[p][a]) == key;
    var b :| 0 <= b < |parts[q]| && KeyOf(parts[q][b]) == key;
    assert parts[p][a] in parts[p] && parts[q][b] in parts[q];
    SameKeySameBlock(descs, config, parts[p][a], parts[q][b]);
    var at := PartIsJoined(parts, p, a);
    var at' := PartIsJoined(parts, q, b);
    JoinedGrows(parts, p, q);
    assert Joined(parts)[at].id == Joined(parts)[at'].id;
  }

  /** Families `p` and `q` are the same and match a tensor with index `i`. */
  ghost predicate RepeatedKey(descs: seq<Descriptor>, config: BlockConfig, p: nat, q: nat, i: nat) {
    && p < q < |config.families| && config.families[p] == config.families[q]
    && Members(descs, config, Some((config.families[p], i))) != []
  }

  /** A family that is configured twice and matches a tensor. */
  ghost predicate RepeatedMatch(descs: seq<Descriptor>, config: BlockConfig) {
    exists p: nat, q: nat, i: nat :: RepeatedKey(descs, config, p, q, i)
  }

  lemma PartHasKey(descs: seq<Descriptor>, config: BlockConfig, parts: seq<seq<Block>>, p: nat, i: nat)
    requires Sections(descs, config, parts, |config.families|) && p < |config.families|
    requires Members(descs, config, Some((config.families[p], i))) != []
    ensures p < |parts| && AllFiled(descs, config, parts[p]) && HasKey(parts[p], Some((config.families[p], i)))
  {
  }

  ghost predicate IdRepeats(out: seq<Block>) {
    exists i, j :: 0 <= i < j < |out| && out[i].id == out[j].id
  }

  lemma IdStillRepeats(out: seq<Block>, more: seq<Block>)
    requires IdRepeats(out)
    ensures IdRepeats(out + more)
  {
    var i, j :| 0 <= i < j < |out| && out[i].id == out[j].id;
    assert (out + more)[i].id == (out + more)[j].id;
  }

  lemma RepeatedMatchRepeatsBlock(descs: seq<Descriptor>, config: BlockConfig, out: seq<Block>)
    requires Sectioned(descs, config, out) && RepeatedMatch(descs, config)
    ensures IdRepeats(out)
  {
    var parts :| Sections(descs, config, parts, |config.families|) &&
      out == Joined(parts) + UnassignedPart(descs, config);
    var p: nat, q: nat, i: nat :| RepeatedKey(descs, config, p, q, i);
    PartHasKey(descs, config, parts, p, i);
    PartHasKey(descs, config, parts, q, i);
    SharedKeyRepeats(descs, config, parts, p, q, Some((config.families[p], i)));
    IdStillRepeats(Joined(parts), UnassignedPart(descs, config));
  }

  /** Block ids are distinct if and only if no family that matches a tensor is
      configured twice. */
  lemma IdsDistinctExactly(descs: seq<Descriptor>, config: BlockConfig, out: seq<Block>)
    requires Grouped(descs, config, out) && Sectioned(descs, config, out)
    ensures (forall i, j :: 0 <= i < j < |out| ==> out[i].id != out[j].id) <==> !RepeatedMatch(descs, config)
  {
    if RepeatedMatch(descs, config) {
      RepeatedMatchRepeatsBlock(descs, config, out);
    } else {
      forall i, j | 0 <= i < j < |out| ensures out[i].id != out[j].id {
        NoRepeatNoClash(descs, config, out, i, j);
      }
    }
  }

  lemma NoSharedKey(descs: seq<Descriptor>, config: BlockConfig, out: seq<Block>, i: nat, j: nat)
    requires Grouped(descs, config, out) && i < j < |out| && KeyOf(out[i]) == KeyOf(out[j])
    ensures RepeatedMatch(descs, config)
  {
    assert out[i] in out;
    assert Filed(descs, config, out[i]);
    assert Precedes(config.families, out[i], out[j]);
    var p: nat, q: nat :|
      p < q < |config.families| && config.families[p] == out[i].family && config.families[q] == out[j].family;
    assert RepeatedKey(descs, config, p, q, out[i].index.value);
  }

  lemma NoRepeatNoClash(descs: seq<Descriptor>, config: BlockConfig, out: seq<Block>, i: nat, j: nat)
    requires Grouped(descs, config, out) && !RepeatedMatch(descs, config) && i < j < |out|
    ensures out[i].id != out[j].id
  {
    assert out[i] in out && out[j] in out;
    assert Filed(descs, config, out[i]) && Filed(descs, config, out[j]);
    assert Precedes(config.families, out[i], out[j]);
    if KeyOf(out[i]) == KeyOf(out[j]) {
      NoSharedKey(descs, config, out, i, j);
    } else if out[i].id == out[j].id {
      SameIdSameKey(descs, config, out[i], out[j]);
    }
  }

  // ------------------------------------------------------------------ lookup

  /** The index an id gives for a family: what follows the family and a dot. */
  function IndexIn(family: string, id: string): Option<nat> {
    if family + "." <= id then ParseU64(id[|family| + 1..]) else None
  }

  function FindInFamilies(descs: seq<Descriptor>, config: BlockConfig, families: seq<string>,
                          id: string): Option<Block> {
    if families == [] then None
    else
      var idx := IndexIn(families[0], id);
      if idx.Some? && Members(descs, config, Some((families[0], idx.value))) != [] then
        Some(Block(id, families[0], idx, Members(descs, config, Some((families[0], idx.value))), 0))
      else FindInFamilies(descs, config, families[1..], id)
  }

  function FindBlock(descs: seq<Descriptor>, config: BlockConfig, id: string): Option<Block> {
    if id == UNASSIGNED then
      var tensors := Members(descs, config, None);
      if tensors == [] then None else Some(Block(UNASSIGNED, UNASSIGNED, None, tensors, 0))
    else FindInFamilies(descs, config, config.families, id)
  }

  /** Building every block and searching by id. */
  function Search(out: seq<Block>, id: string): (r: Option<Block>)
    ensures r.Some? ==> r.value in out && r.value.id == id
    ensures r.None? ==> forall b :: b in out ==> b.id != id
  {
    if out == [] then None
    else if out[0].id == id then Some(out[0])
    else Search(out[1..], id)
  }

  /** The id reads as `(family, index)` and some tensor is filed there. */
  ghost predicate Hit(descs: seq<Descriptor>, config: BlockConfig, id: string, family: string, index: nat) {
    && family in config.families && IndexIn(family, id) == Some(index)
    && Members(descs, config, Some((family, index))) != []
  }

  lemma ReadsAs(family: string, id: string)
    requires IndexIn(family, id).Some?
    ensures id == family + "." + id[|family| + 1..] && Dotless(id[|family| + 1..])
  {
    ParsesDotless(id[|family| + 1..]);
  }

  lemma ReadsOneWay(family: string, family': string, id: string)
    requires IndexIn(family, id).Some? && IndexIn(family', id).Some?
    ensures family == family'
  {
    ReadsAs(family, id);
    ReadsAs(family', id);
    LastDot(family, id[|family| + 1..], family', id[|family'| + 1..]);
  }

  lemma {:induction false} FindsTheHit(descs: seq<Descriptor>, config: BlockConfig, families: seq<string>, id: string,
                                       family: string, index: nat)
    requires family in families && IndexIn(family, id) == Some(index)
    requires Members(descs, config, Some((family, index))) != []
    ensures FindInFamilies(descs, config, families, id)
      == Some(Block(id, family, Some(index), Members(descs, config, Some((family, index))), 0))
  {
    if IndexIn(families[0], id).Some? {
      ReadsOneWay(family, families[0], id);
    } else {
      FindsTheHit(descs, config, families[1..], id, family, index);
    }
  }

  lemma {:induction false} FoundIsHit(descs: seq<Descriptor>, config: BlockConfig, families: seq<string>, id: string)
    requires FindInFamilies(descs, config, families, id).Some?
    requires forall f :: f in families ==> f in config.families
    ensures exists f: string, n: nat :: Hit(descs, config, id, f, n)
  {
    var idx := IndexIn(families[0], id);
    if idx.Some? && Members(descs, config, Some((families[0], idx.value))) != [] {
      assert Hit(descs, config, id, families[0], idx.value);
    } else {
      FoundIsHit(descs, config, families[1..], id);
    }
  }

  /** The index an id gives for a family, in terms of the text alone. */
  lemma IndexInMeans(family: string, id: string, index: nat)
    ensures IndexIn(family, id) == Some(index) <==>
      exists s :: id == family + "." + s && ParseU64(s) == Some(index)
  {
    if family + "." <= id {
      assert id == family + "." + id[|family| + 1..];
    }
    forall s | id == family + "." + s ensures family + "." <= id && id[|family| + 1..] == s {
    }
  }

  /** What the lookup returns, for every id: all tensors filed under the family and
      index it reads as, in a block that keeps the id as it was asked for. */
  lemma FindMeans(descs: seq<Descriptor>, config: BlockConfig, id: string, b: Block)
    ensures FindBlock(descs, config, id) == Some(b) <==>
      if id == UNASSIGNED then b == Block(id, UNASSIGNED, None, Members(descs, config, None), 0) && b.tensors != []
      else exists f: string, n: nat ::
        && Hit(descs, config, id, f, n)
        && b == Block(id, f, Some(n), Members(descs, config, Some((f, n))), 0)
  {
    if id != UNASSIGNED {
      if FindBlock(descs, config, id).Some? {
        FoundIsHit(descs, config, config.families, id);
      }
      forall f: string, n: nat | Hit(descs, config, id, f, n)
        ensures FindBlock(descs, config, id) == Some(Block(id, f, Some(n), Members(descs, config, Some((f, n))), 0))
      {
        FindsTheHit(descs, config, config.families, id, f, n);
      }
    }
  }

  lemma PrintedIdReads(family: string, index: nat)
    requires index < U64_LIMIT
    ensures IndexIn(family, BlockId(family, index)) == Some(index)
  {
    ParseOfDecimal(index);
    assert BlockId(family, index)[|family| + 1..] == Decimal(index);
  }

  lemma UnassignedReadsNowhere(family: string)
    ensures IndexIn(family, UNASSIGNED).None?
  {
    UnassignedIsDotless();
    assert (family + ".")[|family|] == '.';
  }

  /** A listed block is what the lookup finds under its id. */
  lemma ListedIsFound(descs: seq<Descriptor>, config: BlockConfig, out: seq<Block>, b: Block)
    requires Grouped(descs, config, out) && b in out
    ensures FindBlock(descs, config, b.id) == Some(b)
    ensures b.index.Some? ==> Hit(descs, config, b.id, b.family, b.index.value)
  {
    assert Filed(descs, config, b);
    if b.index.Some? {
      MembersMatch(descs, config, KeyOf(b));
      PrintedIdReads(b.family, b.index.value);
      BlockIdInjective(b.family, b.index.value, b.family, 0);
      FindsTheHit(descs, config, config.families, b.id, b.family, b.index.value);
    }
  }

  /** The id reads as a block that exists but is printed otherwise. */
  ghost predicate Alias(descs: seq<Descriptor>, config: BlockConfig, id: string) {
    exists f: string, n: nat :: Hit(descs, config, id, f, n) && id != BlockId(f, n)
  }

  lemma AliasIsUnlisted(descs: seq<Descriptor>, config: BlockConfig, out: seq<Block>, id: string)
    requires Grouped(descs, config, out) && Alias(descs, config, id)
    ensures FindBlock(descs, config, id).Some? && forall b :: b in out ==> b.id != id
  {
    var f: string, n: nat :| Hit(descs, config, id, f, n) && id != BlockId(f, n);
    UnassignedReadsNowhere(f);
    FindsTheHit(descs, config, config.families, id, f, n);
    forall b | b in out ensures b.id != id {
      assert Filed(descs, config, b);
      ListedIsFound(descs, config, out, b);
      if b.id == id && b.index.Some? {
        ReadsOneWay(f, b.family, id);
      }
    }
  }

  lemma KeyIsListed(descs: seq<Descriptor>, config: BlockConfig, out: seq<Block>, key: Key, id: string)
    requires Grouped(descs, config, out) && Members(descs, config, key) != []
    requires id == match key case None => UNASSIGNED case Some((f, n)) => BlockId(f, n)
    ensures exists b :: b in out && b.id == id
  {
    assert HasKey(out, key);
    var k :| 0 <= k < |out| && KeyOf(out[k]) == key;
    assert Filed(descs, config, out[k]);
  }

  lemma FoundIsListed(descs: seq<Descriptor>, config: BlockConfig, out: seq<Block>, id: string)
    requires Grouped(descs, config, out) && FindBlock(descs, config, id).Some? && !Alias(descs, config, id)
    ensures exists b :: b in out && b.id == id
  {
    if id == UNASSIGNED {
      KeyIsListed(descs, config, out, None, id);
    } else {
      FoundIsHit(descs, config, config.families, id);
      var f: string, n: nat :| Hit(descs, config, id, f, n);
      KeyIsListed(descs, config, out, Some((f, n)), id);
    }
  }

  /** Finding one block agrees with searching all of them exactly when the id is
      not an alias: a form such as "01" or "+1" of the index of a block that exists. */
  lemma FindAgrees(descs: seq<Descriptor>, config: BlockConfig, out: seq<Block>, id: string)
    requires Grouped(descs, config, out)
    ensures FindBlock(descs, config, id) == Search(out, id) <==> !Alias(descs, config, id)
  {
    if Alias(descs, config, id) {
      AliasIsUnlisted(descs, config, out, id);
    } else if FindBlock(descs, config, id).Some? {
      FoundIsListed(descs, config, out, id);
    }
    if Search(out, id).Some? {
      ListedIsFound(descs, config, out, Search(out, id).value);
    }
  }

  /** So it agrees on every printed id, of any family and index, and on the unassigned one. */
  lemma PrintedIdsAgree(descs: seq<Descriptor>, config: BlockConfig, out: seq<Block>, family: string, index: nat)
    requires Grouped(descs, config, out) && index < U64_LIMIT
    ensures FindBlock(descs, config, BlockId(family, index)) == Search(out, BlockId(family, index))
    ensures FindBlock(descs, config, UNASSIGNED) == Search(out, UNASSIGNED)
  {
    var id := BlockId(family, index);
    PrintedIdReads(family, index);
    forall f: string, n: nat | Hit(descs, config, id, f, n) ensures id == BlockId(f, n) {
      ReadsOneWay(f, family, id);
    }
    FindAgrees(descs, config, out, id);
    forall f: string, n: nat ensures !Hit(descs, config, UNASSIGNED, f, n) {
      UnassignedReadsNowhere(f);
    }
    FindAgrees(descs, config, out, UNASSIGNED);
  }

  lemma ReadsOne()
    ensures Decimal(1) == "1" && IndexIn("layers", "layers.01") == Some(1)
  {
    var t := "01";
    assert "layers.01"[|"layers"| + 1..] == t;
    assert t[..1] == "0" && "0"[..0] == "";
    assert Value("0") == 0 && Value(t) == 1;
  }

  /** "layers.01" finds the block that is listed only as "layers.1". */
  lemma LeadingZeroIsAnAlias(d: Descriptor, config: BlockConfig, out: seq<Block>)
    requires d.name == "layers.1.weight" && config == BlockConfig(None, ["layers"])
    requires Grouped([d], config, out)
    ensures FindBlock([d], config, "layers.01").Some? && Search(out, "layers.01").None?
  {
    ReadsOne();
    assert BlockId("layers", 1) + "." + "weight" == d.name;
    NamedAfterBlock(config, 0, 1, "weight", d.name);
    MemberHasKey([d], config, Some(("layers", 1)), d);
    assert Hit([d], config, "layers.01", "layers", 1);
    assert |BlockId("layers", 1)| == 8;
    AliasIsUnlisted([d], config, out, "layers.01");
  }
}
