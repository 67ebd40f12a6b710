/** The resident selection on the engine's own blocks and sizes. */
module Selection {
  import opened Common
  import opened Device
  import opened Residents

  ghost predicate HaveBytes(order: seq<Id>, bytes: map<Id, nat>) {
    forall id :: id in order ==> id in bytes
  }

  /** The bytes of the listed blocks together. */
  function Bytes(bytes: map<Id, nat>, ids: seq<Id>): nat
    requires HaveBytes(ids, bytes)
  {
    if ids == [] then 0 else bytes[ids[0]] + Bytes(bytes, ids[1..])
  }

  /** Block `i` of the order is looked at before block `j`: it is larger, or of the
      same size and executed earlier. */
  ghost predicate Before(order: seq<Id>, bytes: map<Id, nat>, i: nat, j: nat)
    requires HaveBytes(order, bytes)
  {
    && i < |order| && j < |order|
    && (bytes[order[i]] > bytes[order[j]] || (bytes[order[i]] == bytes[order[j]] && i < j))
  }

  /** `positions` are places of the order, those looked at first in front. */
  ghost predicate Ranked(order: seq<Id>, bytes: map<Id, nat>, positions: seq<nat>)
    requires HaveBytes(order, bytes)
  {
    && (forall k :: 0 <= k < |positions| ==> positions[k] < |order|)
    && forall k, l :: 0 <= k < l < |positions| ==> Before(order, bytes, positions[k], positions[l])
  }

  function ItemAt(order: seq<Id>, bytes: map<Id, nat>, p: nat): Item
    requires HaveBytes(order, bytes) && p < |order|
  {
    Item(order[p], bytes[order[p]])
  }

  /** `items` are the blocks at `positions`. */
  ghost predicate ListedAt(order: seq<Id>, bytes: map<Id, nat>, positions: seq<nat>, items: seq<Item>)
    requires HaveBytes(order, bytes)
  {
    && |items| == |positions|
    && forall k :: 0 <= k < |items| ==> positions[k] < |order| && items[k] == ItemAt(order, bytes, positions[k])
  }

  // ---------------------------------------------------------- the size order

  /** Where an item goes: behind everything at least as large, before the rest. */
  lemma {:induction false} InsertSplits(item: Item, items: seq<Item>) returns (k: nat)
    requires Descending(items)
    ensures k <= |items| && Insert(item, items) == items[..k] + [item] + items[k..]
    ensures forall i :: 0 <= i < k ==> items[i].size >= item.size
    ensures forall i :: k <= i < |items| ==> items[i].size < item.size
  {
    if items == [] || items[0].size < item.size {
      k := 0;
    } else {
      var rest := InsertSplits(item, items[1..]);
      k := rest + 1;
      assert items == [items[0]] + items[1..];
      assert items[..k] == [items[0]] + items[1..][..rest];
    }
  }

  lemma RankedInsert(order: seq<Id>, bytes: map<Id, nat>, positions: seq<nat>, items: seq<Item>, n: nat, k: nat)
    requires HaveBytes(order, bytes) && n < |order|
    requires Ranked(order, bytes, positions) && ListedAt(order, bytes, positions, items)
    requires forall p :: p in positions ==> p < n
    requires k <= |items|
    requires forall i :: 0 <= i < k ==> items[i].size >= bytes[order[n]]
    requires forall i :: k <= i < |items| ==> items[i].size < bytes[order[n]]
    ensures var positions' := positions[..k] + [n] + positions[k..];
      && Ranked(order, bytes, positions')
      && ListedAt(order, bytes, positions', items[..k] + [ItemAt(order, bytes, n)] + items[k..])
  {
    var positions' := positions[..k] + [n] + positions[k..];
    forall i | 0 <= i < k ensures Before(order, bytes, positions[i], n) {
      assert positions[i] in positions;
    }
    forall i | k <= i < |positions| ensures Before(order, bytes, n, positions[i]) {
    }
    forall i, j | 0 <= i < j < |positions'| ensures Before(order, bytes, positions'[i], positions'[j]) {
      var i', j' := if i < k then i else i - 1, if j < k then j else j - 1;
      assert i != k ==> positions'[i] == positions[i'];
      assert j != k ==> positions'[j] == positions[j'];
    }
  }

  /** `positions` are the places of the first `n` blocks, in the order in which they
      are looked at, and `items` those blocks. */
  ghost predicate Sorted(order: seq<Id>, bytes: map<Id, nat>, n: nat, positions: seq<nat>, items: seq<Item>)
    requires HaveBytes(order, bytes)
  {
    && Ranked(order, bytes, positions) && ListedAt(order, bytes, positions, items)
    && forall p: nat :: p in positions <==> p < n
  }

  lemma SortedNext(order: seq<Id>, bytes: map<Id, nat>, n: nat, positions: seq<nat>, items: seq<Item>)
    returns (positions': seq<nat>)
    requires HaveBytes(order, bytes) && n < |order| && Sorted(order, bytes, n, positions, items) && Descending(items)
    ensures Sorted(order, bytes, n + 1, positions', Insert(ItemAt(order, bytes, n), items))
  {
    var k := InsertSplits(ItemAt(order, bytes, n), items);
    RankedInsert(order, bytes, positions, items, n, k);
    positions' := positions[..k] + [n] + positions[k..];
    Among(positions, k, n, positions');
  }

  lemma {:induction false} SortedPlaces(order: seq<Id>, bytes: map<Id, nat>, n: nat) returns (positions: seq<nat>)
    requires HaveBytes(order, bytes) && n <= |order|
    ensures Sorted(order, bytes, n, positions, SortedBySize(BlockItems(order, bytes)[..n]))
  {
    var all := BlockItems(order, bytes);
    if n == 0 {
      positions := [];
    } else {
      var before := SortedPlaces(order, bytes, n - 1);
      SortIsPermutation(all[..n - 1]);
      assert all[..n][..n - 1] == all[..n - 1] && all[..n][n - 1] == ItemAt(order, bytes, n - 1);
      positions := SortedNext(order, bytes, n - 1, before, SortedBySize(all[..n - 1]));
    }
  }

  lemma Among(before: seq<nat>, k: nat, n: nat, positions: seq<nat>)
    requires k <= |before| && positions == before[..k] + [n] + before[k..]
    ensures forall p: nat :: p in positions <==> p in before || p == n
  {
    assert before == before[..k] + before[k..];
  }

  // ------------------------------------------------------------- what is kept

  predicate InOrder(order: seq<Id>, places: seq<nat>) {
    forall k :: 0 <= k < |places| ==> places[k] < |order|
  }

  function IdsAt(order: seq<Id>, places: seq<nat>): seq<Id>
    requires InOrder(order, places)
  {
    seq(|places|, k requires 0 <= k < |places| => order[places[k]])
  }

  function Kept(positions: seq<nat>, mask: Mask): (kept: seq<nat>)
    requires |mask| == |positions|
    ensures forall p :: p in kept ==> p in positions
  {
    if positions == [] then [] else (if mask[0] then [positions[0]] else []) + Kept(positions[1..], mask[1..])
  }

  lemma {:induction false} KeptRanked(order: seq<Id>, bytes: map<Id, nat>, positions: seq<nat>, mask: Mask)
    requires HaveBytes(order, bytes) && Ranked(order, bytes, positions) && |mask| == |positions|
    ensures Ranked(order, bytes, Kept(positions, mask))
  {
    if positions != [] {
      var rest := Kept(positions[1..], mask[1..]);
      KeptRanked(order, bytes, positions[1..], mask[1..]);
      forall l | 0 <= l < |rest| ensures Before(order, bytes, positions[0], rest[l]) {
        assert rest[l] in positions[1..];
      }
    }
  }

  lemma IdsAtCons(order: seq<Id>, p: nat, rest: seq<nat>)
    requires p < |order| && InOrder(order, rest)
    ensures InOrder(order, [p] + rest) && IdsAt(order, [p] + rest) == [order[p]] + IdsAt(order, rest)
  {
  }

  lemma KeptHead(order: seq<Id>, positions: seq<nat>, items: seq<Item>, mask: Mask, rest: seq<nat>)
    requires |mask| == |items| == |positions| > 0 && rest == Kept(positions[1..], mask[1..])
    requires positions[0] < |order| && items[0].id == order[positions[0]]
    requires InOrder(order, rest) && Picked(items[1..], mask[1..]) == IdsAt(order, rest)
    ensures InOrder(order, Kept(positions, mask)) && Picked(items, mask) == IdsAt(order, Kept(positions, mask))
  {
    if mask[0] {
      IdsAtCons(order, positions[0], rest);
      assert Kept(positions, mask) == [positions[0]] + rest;
      assert Picked(items, mask) == [items[0].id] + Picked(items[1..], mask[1..]);
    } else {
      assert Kept(positions, mask) == rest;
      assert Picked(items, mask) == Picked(items[1..], mask[1..]);
    }
  }

  lemma PickedHead(bytes: map<Id, nat>, items: seq<Item>, mask: Mask)
    requires |mask| == |items| > 0 && items[0].id in bytes && bytes[items[0].id] == items[0].size
    requires HaveBytes(Picked(items[1..], mask[1..]), bytes)
    requires Total(items[1..], mask[1..]) == Bytes(bytes, Picked(items[1..], mask[1..]))
    ensures HaveBytes(Picked(items, mask), bytes) && Total(items, mask) == Bytes(bytes, Picked(items, mask))
  {
    assert mask[0] ==> Picked(items, mask)[1..] == Picked(items[1..], mask[1..]);
    assert !mask[0] ==> Picked(items, mask) == Picked(items[1..], mask[1..]);
  }

  lemma {:induction false} KeptArePicked(order: seq<Id>, bytes: map<Id, nat>, positions: seq<nat>, items: seq<Item>,
                                         mask: Mask)
    requires HaveBytes(order, bytes) && ListedAt(order, bytes, positions, items) && |mask| == |items|
    ensures InOrder(order, Kept(positions, mask)) && Picked(items, mask) == IdsAt(order, Kept(positions, mask))
    ensures HaveBytes(Picked(items, mask), bytes) && Total(items, mask) == Bytes(bytes, Picked(items, mask))
  {
    if items != [] {
      KeptArePicked(order, bytes, positions[1..], items[1..], mask[1..]);
      assert items[0] == ItemAt(order, bytes, positions[0]);
      KeptHead(order, positions, items, mask, Kept(positions[1..], mask[1..]));
      PickedHead(bytes, items, mask);
    }
  }

  lemma {:induction false} KeptConcat(a: seq<nat>, ma: Mask, b: seq<nat>, mb: Mask)
    requires |a| == |ma| && |b| == |mb|
    ensures Kept(a + b, ma + mb) == Kept(a, ma) + Kept(b, mb)
  {
    if a == [] {
      assert a + b == b && ma + mb == mb;
    } else {
      assert (a + b)[0] == a[0] && (ma + mb)[0] == ma[0];
      assert (a + b)[1..] == a[1..] + b && (ma + mb)[1..] == ma[1..] + mb;
      KeptConcat(a[1..], ma[1..], b, mb);
      assert Kept(a + b, ma + mb) == (if ma[0] then [a[0]] else []) + Kept(a[1..] + b, ma[1..] + mb);
    }
  }

  /** The first `n` of the kept blocks are those looked at before block `p`. */
  ghost predicate KeptBefore(order: seq<Id>, bytes: map<Id, nat>, kept: seq<nat>, p: nat, n: nat)
    requires HaveBytes(order, bytes)
  {
    && n <= |kept|
    && (forall i :: 0 <= i < n ==> Before(order, bytes, kept[i], p))
    && (forall i :: n <= i < |kept| ==> !Before(order, bytes, kept[i], p))
  }

  /** Block `p` is kept exactly if it still fits behind the kept blocks looked at before it. */
  ghost predicate KeptIfFits(order: seq<Id>, bytes: map<Id, nat>, budget: nat, kept: seq<nat>, p: nat)
    requires HaveBytes(order, bytes) && p < |order| && InOrder(order, kept)
  {
    exists n: nat ::
      && KeptBefore(order, bytes, kept, p, n)
      && (p in kept <==> Bytes(bytes, IdsAt(order, kept[..n])) + bytes[order[p]] <= budget)
  }

  /** The selection: largest first, equal sizes in execution order, each block
      exactly if it still fits the budget. */
  ghost predicate GreedyChoice(order: seq<Id>, bytes: map<Id, nat>, budget: nat, ids: seq<Id>)
    requires HaveBytes(order, bytes)
  {
    exists kept: seq<nat> ::
      && Ranked(order, bytes, kept) && ids == IdsAt(order, kept)
      && forall p: nat :: p < |order| ==> KeptIfFits(order, bytes, budget, kept, p)
  }

  lemma GreedyAt(items: seq<Item>, budget: nat, k: nat)
    requires k < |items|
    ensures var first, rest := Greedy(items[..k], budget), items[k..];
      && Total(items[..k], first) <= budget
      && Greedy(items, budget) == first + Greedy(rest, budget - Total(items[..k], first))
      && (Greedy(rest, budget - Total(items[..k], first))[0] <==> Total(items[..k], first) + items[k].size <= budget)
  {
    GreedySplit(items, k, budget);
  }

  lemma AtParts(order: seq<Id>, bytes: map<Id, nat>, positions: seq<nat>, items: seq<Item>, k: nat)
    requires HaveBytes(order, bytes) && ListedAt(order, bytes, positions, items) && k <= |items|
    ensures ListedAt(order, bytes, positions[..k], items[..k]) && ListedAt(order, bytes, positions[k..], items[k..])
  {
  }

  lemma FitsExactly(order: seq<Id>, bytes: map<Id, nat>, budget: nat, positions: seq<nat>, items: seq<Item>, k: nat)
    requires HaveBytes(order, bytes) && Ranked(order, bytes, positions) && ListedAt(order, bytes, positions, items)
    requires k < |positions|
    ensures var kept := Kept(positions, Greedy(items, budget));
      && InOrder(order, kept)
      && KeptIfFits(order, bytes, budget, kept, positions[k])
  {
    var mask, p := Greedy(items, budget), positions[k];
    var m1 := Greedy(items[..k], budget);
    GreedyAt(items, budget, k);
    var m2 := Greedy(items[k..], budget - Total(items[..k], m1));
    AtParts(order, bytes, positions, items, k);
    assert positions == positions[..k] + positions[k..];
    KeptConcat(positions[..k], m1, positions[k..], m2);
    var front, back := Kept(positions[..k], m1), Kept(positions[k..], m2);
    KeptArePicked(order, bytes, positions, items, mask);
    KeptArePicked(order, bytes, positions[..k], items[..k], m1);
    KeptSplitAt(order, bytes, positions, k, front, back, m2);
    var kept := front + back;
    assert kept[..|front|] == front;
    assert KeptBefore(order, bytes, kept, p, |front|);
  }

  lemma KeptSplitAt(order: seq<Id>, bytes: map<Id, nat>, positions: seq<nat>, k: nat, front: seq<nat>, back: seq<nat>,
                    m2: Mask)
    requires HaveBytes(order, bytes) && Ranked(order, bytes, positions) && k < |positions| && |m2| == |positions| - k
    requires (forall p :: p in front ==> p in positions[..k]) && back == Kept(positions[k..], m2)
    ensures KeptBefore(order, bytes, front + back, positions[k], |front|)
    ensures positions[k] in front + back <==> m2[0]
  {
    var p, rest := positions[k], Kept(positions[k..][1..], m2[1..]);
    forall i | 0 <= i < |front| ensures Before(order, bytes, front[i], p) {
      assert front[i] in positions[..k];
    }
    forall i | 0 <= i < |rest| ensures Before(order, bytes, p, rest[i]) {
      assert rest[i] in positions[k..][1..];
    }
  }

  /** The selection loop makes that choice. */
  lemma GreedyIdsAreTheChoice(order: seq<Id>, bytes: map<Id, nat>, budget: nat)
    requires HaveBytes(order, bytes)
    ensures GreedyChoice(order, bytes, budget, GreedyIds(order, bytes, budget))
  {
    var all := BlockItems(order, bytes);
    assert all[..|order|] == all;
    var positions := SortedPlaces(order, bytes, |order|);
    var items := SortedBySize(all);
    var kept := Kept(positions, Greedy(items, budget));
    KeptRanked(order, bytes, positions, Greedy(items, budget));
    KeptArePicked(order, bytes, positions, items, Greedy(items, budget));
    forall p: nat | p < |order| ensures KeptIfFits(order, bytes, budget, kept, p) {
      assert p in positions;
      var k :| 0 <= k < |positions| && positions[k] == p;
      FitsExactly(order, bytes, budget, positions, items, k);
    }
  }

  // ---------------------------------------------------------- what that gives

  lemma {:induction false} BytesConcat(bytes: map<Id, nat>, a: seq<Id>, b: seq<Id>)
    requires HaveBytes(a, bytes) && HaveBytes(b, bytes)
    ensures HaveBytes(a + b, bytes) && Bytes(bytes, a + b) == Bytes(bytes, a) + Bytes(bytes, b)
  {
    if a == [] {
      assert a + b == b;
    } else {
      assert (a + b)[1..] == a[1..] + b;
      BytesConcat(bytes, a[1..], b);
    }
  }

  lemma BytesWithout(bytes: map<Id, nat>, ids: seq<Id>, j: nat)
    requires HaveBytes(ids, bytes) && j < |ids|
    ensures HaveBytes(ids[..j] + ids[j + 1..], bytes)
    ensures Bytes(bytes, ids) == bytes[ids[j]] + Bytes(bytes, ids[..j] + ids[j + 1..])
  {
    assert ids == ids[..j] + ([ids[j]] + ids[j + 1..]);
    BytesConcat(bytes, ids[..j], [ids[j]] + ids[j + 1..]);
    BytesConcat(bytes, [ids[j]], ids[j + 1..]);
    BytesConcat(bytes, ids[..j], ids[j + 1..]);
    assert Bytes(bytes, [ids[j]]) == bytes[ids[j]];
  }

  lemma WithoutOne(a: seq<Id>, b: seq<Id>, j: nat)
    requires Distinct(a) && Distinct(b) && a != [] && j < |b| && b[j] == a[0]
    requires forall id :: id in a <==> id in b
    ensures var b' := b[..j] + b[j + 1..];
      Distinct(a[1..]) && Distinct(b') && forall id :: id in a[1..] <==> id in b'
  {
    var b' := b[..j] + b[j + 1..];
    assert a == [a[0]] + a[1..] && b == b[..j] + [b[j]] + b[j + 1..];
    forall i | 0 <= i < |b'| ensures b'[i] == b[if i < j then i else i + 1] != b[j] {
    }
    forall id ensures id in a[1..] <==> id in b' {
      if id in b' {
        assert id in b && id in a;
      }
      if id in a[1..] {
        var i :| 0 <= i < |a| - 1 && a[1..][i] == id;
        assert a[i + 1] != a[0] && id in a;
      }
    }
  }

  /** The same blocks in another order have the same bytes. */
  lemma {:induction false} SameBytes(bytes: map<Id, nat>, a: seq<Id>, b: seq<Id>)
    requires HaveBytes(a, bytes) && HaveBytes(b, bytes) && Distinct(a) && Distinct(b)
    requires forall id :: id in a <==> id in b
    ensures Bytes(bytes, a) == Bytes(bytes, b)
    decreases |a|
  {
    if a == [] {
      if b != [] {
        HasMember(b);
      }
    } else {
      assert a[0] in b;
      var j :| 0 <= j < |b| && b[j] == a[0];
      WithoutOne(a, b, j);
      BytesWithout(bytes, b, j);
      SameBytes(bytes, a[1..], b[..j] + b[j + 1..]);
    }
  }

  ghost predicate FromOrder(order: seq<Id>, ids: seq<Id>) {
    forall id :: id in ids ==> id in order
  }

  /** Distinct blocks of the order that fit the budget together. */
  ghost predicate Selects(order: seq<Id>, bytes: map<Id, nat>, budget: nat, ids: seq<Id>) {
    Distinct(ids) && FromOrder(order, ids) && HaveBytes(ids, bytes) && Bytes(bytes, ids) <= budget
  }

  /** Within the budget, with no room for another block, and at least half of what
      any distinct blocks within the budget amount to. */
  ghost predicate FillsBudget(order: seq<Id>, bytes: map<Id, nat>, budget: nat, ids: seq<Id>)
    requires HaveBytes(order, bytes)
  {
    && HaveBytes(ids, bytes) && Bytes(bytes, ids) <= budget
    && (forall id :: id in order && id !in ids ==> Bytes(bytes, ids) + bytes[id] > budget)
    && forall other :: Selects(order, bytes, budget, other) ==> Bytes(bytes, other) <= 2 * Bytes(bytes, ids)
  }

  function MaskOf(items: seq<Item>, ids: seq<Id>): Mask {
    seq(|items|, k requires 0 <= k < |items| => items[k].id in ids)
  }

  ghost predicate HasItem(items: seq<Item>, id: Id) {
    exists k :: 0 <= k < |items| && items[k].id == id
  }

  lemma {:induction false} MaskPicks(items: seq<Item>, ids: seq<Id>)
    ensures forall id :: id in Picked(items, MaskOf(items, ids)) <==> id in ids && HasItem(items, id)
  {
    if items != [] {
      MaskPicks(items[1..], ids);
      assert MaskOf(items, ids)[1..] == MaskOf(items[1..], ids);
      forall id | id in ids && HasItem(items, id)
        ensures id in Picked(items, MaskOf(items, ids))
      {
        var k :| 0 <= k < |items| && items[k].id == id;
        if k > 0 {
          assert items[1..][k - 1].id == id;
        }
      }
      forall id | id in Picked(items[1..], MaskOf(items[1..], ids)) ensures HasItem(items, id) {
        var k :| 0 <= k < |items| - 1 && items[1..][k].id == id;
        assert items[k + 1].id == id;
      }
    }
  }

  lemma UniqueItems(order: seq<Id>, bytes: map<Id, nat>, positions: seq<nat>, items: seq<Item>)
    requires HaveBytes(order, bytes) && Distinct(order)
    requires Ranked(order, bytes, positions) && ListedAt(order, bytes, positions, items)
    ensures IdsUnique(items)
  {
    forall i, j | 0 <= i < j < |items| ensures items[i].id != items[j].id {
      assert Before(order, bytes, positions[i], positions[j]);
    }
  }

  /** Any distinct blocks are a selection from the sorted list, of the same bytes. */
  lemma OtherAsMask(order: seq<Id>, bytes: map<Id, nat>, positions: seq<nat>, items: seq<Item>, other: seq<Id>)
    requires HaveBytes(order, bytes) && Distinct(order)
    requires Ranked(order, bytes, positions) && ListedAt(order, bytes, positions, items)
    requires forall p: nat :: p in positions <==> p < |order|
    requires Distinct(other) && FromOrder(order, other) && HaveBytes(other, bytes)
    ensures Total(items, MaskOf(items, other)) == Bytes(bytes, other)
  {
    var mask := MaskOf(items, other);
    KeptArePicked(order, bytes, positions, items, mask);
    UniqueItems(order, bytes, positions, items);
    PickedAreBlocks(items, mask);
    MaskPicks(items, other);
    forall id | id in other ensures HasItem(items, id) {
      var p: nat :| p < |order| && order[p] == id;
      assert p in positions;
      var k :| 0 <= k < |positions| && positions[k] == p;
      assert items[k].id == id;
    }
    SameBytes(bytes, Picked(items, mask), other);
  }

  lemma {:induction false} NotPicked(items: seq<Item>, mask: Mask, k: nat)
    requires |mask| == |items| && k < |items| && items[k].id !in Picked(items, mask)
    ensures !mask[k]
  {
    if k > 0 {
      NotPicked(items[1..], mask[1..], k - 1);
    }
  }

  lemma NoRoomLeft(order: seq<Id>, bytes: map<Id, nat>, budget: nat, positions: seq<nat>, items: seq<Item>, id: Id)
    requires HaveBytes(order, bytes) && ListedAt(order, bytes, positions, items)
    requires forall p: nat :: p in positions <==> p < |order|
    requires id in order && id !in Picked(items, Greedy(items, budget))
    ensures Total(items, Greedy(items, budget)) + bytes[id] > budget
  {
    var p: nat :| p < |order| && order[p] == id;
    assert p in positions;
    var k :| 0 <= k < |positions| && positions[k] == p;
    NotPicked(items, Greedy(items, budget), k);
    GreedyFitsAndIsMaximal(items, budget);
  }

  /** The residents the engine selects, in its own bytes. */
  lemma SelectionFillsBudget(order: seq<Id>, bytes: map<Id, nat>, budget: nat)
    requires HaveBytes(order, bytes) && Distinct(order)
    ensures FillsBudget(order, bytes, budget, GreedyIds(order, bytes, budget))
  {
    var all := BlockItems(order, bytes);
    assert all[..|order|] == all;
    var positions := SortedPlaces(order, bytes, |order|);
    var items := SortedBySize(all);
    var mask := Greedy(items, budget);
    SortIsPermutation(all);
    KeptArePicked(order, bytes, positions, items, mask);
    GreedyFitsAndIsMaximal(items, budget);
    forall id | id in order && id !in Picked(items, mask) ensures Total(items, mask) + bytes[id] > budget {
      NoRoomLeft(order, bytes, budget, positions, items, id);
    }
    forall other | Selects(order, bytes, budget, other)
      ensures Bytes(bytes, other) <= 2 * Total(items, mask)
    {
      OtherAsMask(order, bytes, positions, items, other);
      GreedyIsHalfOptimal(items, budget, MaskOf(items, other));
    }
  }
}
