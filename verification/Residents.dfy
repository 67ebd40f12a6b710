/** Choosing the resident pool: largest blocks first, each taken if it still fits.
    A selection is a mask over the blocks in that order. */
module Residents {
  import opened Common
  import opened Arithmetic
  import opened Device
  import opened Blocks

  datatype Item = Item(id: Id, size: nat)

  type Mask = seq<bool>

  ghost predicate Descending(items: seq<Item>) {
    forall i, j :: 0 <= i < j < |items| ==> items[i].size >= items[j].size
  }

  function Total(items: seq<Item>, mask: Mask): nat
    requires |mask| == |items|
  {
    if items == [] then 0 else (if mask[0] then items[0].size else 0) + Total(items[1..], mask[1..])
  }

  function Picked(items: seq<Item>, mask: Mask): seq<Id>
    requires |mask| == |items|
  {
    if items == [] then [] else (if mask[0] then [items[0].id] else []) + Picked(items[1..], mask[1..])
  }

  /** What the greedy pass keeps with `budget` bytes left. */
  function Greedy(items: seq<Item>, budget: nat): (mask: Mask)
    ensures |mask| == |items|
  {
    if items == [] then []
    else if items[0].size <= budget then [true] + Greedy(items[1..], budget - items[0].size)
    else [false] + Greedy(items[1..], budget)
  }

  // -------------------------------------------------------- stable size order

  /** Insert before the first strictly smaller item: equal sizes keep their order. */
  function Insert(item: Item, items: seq<Item>): seq<Item> {
    if items == [] then [item]
    else if items[0].size < item.size then [item] + items
    else [items[0]] + Insert(item, items[1..])
  }

  function SortedBySize(items: seq<Item>): seq<Item> {
    if items == [] then [] else Insert(items[|items| - 1], SortedBySize(items[..|items| - 1]))
  }

  lemma {:induction false} InsertAdds(item: Item, items: seq<Item>)
    ensures multiset(Insert(item, items)) == multiset(items) + multiset{item}
  {
    if items != [] && items[0].size >= item.size {
      InsertAdds(item, items[1..]);
      assert items == [items[0]] + items[1..];
    }
  }

  lemma BehindLargest(first: Item, rest: seq<Item>)
    requires Descending(rest) && forall x :: x in multiset(rest) ==> x.size <= first.size
    ensures Descending([first] + rest)
  {
    forall i | 0 <= i < |rest| ensures rest[i].size <= first.size {
      assert rest[i] in multiset(rest);
    }
  }

  lemma {:induction false} InsertDescends(item: Item, items: seq<Item>)
    requires Descending(items)
    ensures Descending(Insert(item, items))
  {
    if items != [] && items[0].size >= item.size {
      InsertDescends(item, items[1..]);
      InsertAdds(item, items[1..]);
      BehindLargest(items[0], Insert(item, items[1..]));
    }
  }

  /** The size order is a permutation, largest first. */
  lemma {:induction false} SortIsPermutation(items: seq<Item>)
    ensures Descending(SortedBySize(items)) && multiset(SortedBySize(items)) == multiset(items)
  {
    if items != [] {
      SortIsPermutation(items[..|items| - 1]);
      InsertDescends(items[|items| - 1], SortedBySize(items[..|items| - 1]));
      InsertAdds(items[|items| - 1], SortedBySize(items[..|items| - 1]));
      assert items == items[..|items| - 1] + [items[|items| - 1]];
    }
  }

  function OfSize(items: seq<Item>, size: nat): seq<Item> {
    if items == [] then []
    else (if items[0].size == size then [items[0]] else []) + OfSize(items[1..], size)
  }

  lemma {:induction false} OfSizeConcat(a: seq<Item>, b: seq<Item>, size: nat)
    ensures OfSize(a + b, size) == OfSize(a, size) + OfSize(b, size)
  {
    if a == [] {
      assert a + b == b;
    } else {
      assert (a + b)[1..] == a[1..] + b;
      OfSizeConcat(a[1..], b, size);
    }
  }

  lemma {:induction false} NoneOfSize(items: seq<Item>, size: nat)
    requires forall i :: 0 <= i < |items| ==> items[i].size != size
    ensures OfSize(items, size) == []
  {
    if items != [] {
      NoneOfSize(items[1..], size);
    }
  }

  lemma {:induction false} InsertBehindEquals(item: Item, items: seq<Item>, size: nat)
    requires Descending(items)
    ensures OfSize(Insert(item, items), size) == OfSize(items, size) + (if item.size == size then [item] else [])
  {
    if items != [] && items[0].size >= item.size {
      InsertBehindEquals(item, items[1..], size);
      assert Insert(item, items)[1..] == Insert(item, items[1..]);
    } else if items != [] {
      assert Insert(item, items)[1..] == items;
      if item.size == size {
        NoneOfSize(items, size);
      }
    }
  }

  /** Blocks of one size stay in their order. */
  lemma {:induction false} SortIsStable(items: seq<Item>, size: nat)
    ensures OfSize(SortedBySize(items), size) == OfSize(items, size)
  {
    if items != [] {
      var front, last := items[..|items| - 1], items[|items| - 1];
      SortIsStable(front, size);
      SortIsPermutation(front);
      InsertBehindEquals(last, SortedBySize(front), size);
      OfSizeConcat(front, [last], size);
      assert items == front + [last];
    }
  }

  ghost predicate IdsUnique(items: seq<Item>) {
    forall i, j :: 0 <= i < j < |items| ==> items[i].id != items[j].id
  }

  /** Whatever is picked are ids of blocks, each at most once if no two blocks share one. */
  lemma {:induction false} PickedAreBlocks(items: seq<Item>, mask: Mask)
    requires |mask| == |items|
    ensures IdsUnique(items) ==> Distinct(Picked(items, mask))
    ensures forall id :: id in Picked(items, mask) ==> exists i :: 0 <= i < |items| && mask[i] && items[i].id == id
  {
    if items != [] {
      var rest := Picked(items[1..], mask[1..]);
      PickedAreBlocks(items[1..], mask[1..]);
      forall id | id in rest ensures exists i :: 1 <= i < |items| && mask[i] && items[i].id == id {
        var i :| 0 <= i < |items[1..]| && mask[1..][i] && items[1..][i].id == id;
        assert mask[i + 1] && items[i + 1].id == id;
      }
      assert mask[0] ==> Picked(items, mask) == [items[0].id] + rest;
      assert !mask[0] ==> Picked(items, mask) == rest;
      assert IdsUnique(items) ==> items[0].id !in rest;
    }
  }

  // --------------------------------------------------------------- the loop

  lemma {:induction false} GreedySplit(items: seq<Item>, k: nat, budget: nat)
    requires k <= |items|
    ensures Total(items[..k], Greedy(items[..k], budget)) <= budget
    ensures Greedy(items, budget) == Greedy(items[..k], budget) +
      Greedy(items[k..], budget - Total(items[..k], Greedy(items[..k], budget)))
  {
    if k > 0 {
      var rest := items[1..];
      assert items[..k][1..] == rest[..k - 1] && rest[k - 1..] == items[k..];
      GreedySplit(rest, k - 1, if items[0].size <= budget then budget - items[0].size else budget);
    } else {
      assert items[..0] == [] && items[0..] == items;
    }
  }

  lemma {:induction false} PickedConcat(a: seq<Item>, ma: Mask, b: seq<Item>, mb: Mask)
    requires |a| == |ma| && |b| == |mb|
    ensures Picked(a + b, ma + mb) == Picked(a, ma) + Picked(b, mb)
    ensures Total(a + b, ma + mb) == Total(a, ma) + Total(b, mb)
  {
    if a == [] {
      assert a + b == b && ma + mb == mb;
    } else {
      assert (a + b)[1..] == a[1..] + b && (ma + mb)[1..] == ma[1..] + mb;
      PickedConcat(a[1..], ma[1..], b, mb);
    }
  }

  lemma GreedyStep(items: seq<Item>, k: nat, budget: nat)
    requires k < |items|
    ensures var mask, mask' := Greedy(items[..k], budget), Greedy(items[..k + 1], budget);
      var fits := Total(items[..k], mask) + items[k].size <= budget;
      && Picked(items[..k + 1], mask') == Picked(items[..k], mask) + (if fits then [items[k].id] else [])
      && Total(items[..k + 1], mask') == Total(items[..k], mask) + (if fits then items[k].size else 0)
  {
    var all := items[..k + 1];
    GreedySplit(all, k, budget);
    assert all[..k] == items[..k] && all[k..] == [items[k]];
    var left := budget - Total(items[..k], Greedy(items[..k], budget));
    var last := Greedy([items[k]], left);
    assert [items[k]][1..] == [] && Greedy([], left) == [];
    PickedConcat(items[..k], Greedy(items[..k], budget), [items[k]], last);
    assert items[..k] + [items[k]] == all;
  }

  /** The init-time selection loop. */
  method ChooseResident(blocks: seq<Item>, budget: nat) returns (ids: seq<Id>, total: nat)
    ensures var items := SortedBySize(blocks);
      ids == Picked(items, Greedy(items, budget)) && total == Total(items, Greedy(items, budget))
  {
    var items := SortedBySize(blocks);
    ids, total := [], 0;
    assert items[..0] == [];
    for k := 0 to |items|
      invariant ids == Picked(items[..k], Greedy(items[..k], budget))
      invariant total == Total(items[..k], Greedy(items[..k], budget))
    {
      GreedyStep(items, k, budget);
      if total + items[k].size <= budget {
        ids := ids + [items[k].id];
        total := total + items[k].size;
      }
    }
    assert items[..|items|] == items;
  }

  // -------------------------------------------------------- from the engine's table

  function BlockItems(order: seq<Id>, bytes: map<Id, nat>): seq<Item>
    requires forall id :: id in order ==> id in bytes
  {
    seq(|order|, k requires 0 <= k < |order| => Item(order[k], bytes[order[k]]))
  }

  /** The resident ids for these blocks and this budget. */
  function GreedyIds(order: seq<Id>, bytes: map<Id, nat>, budget: nat): seq<Id>
    requires forall id :: id in order ==> id in bytes
  {
    var items := SortedBySize(BlockItems(order, bytes));
    Picked(items, Greedy(items, budget))
  }

  lemma {:induction false} NothingFits(items: seq<Item>)
    requires forall i :: 0 <= i < |items| ==> items[i].size > 0
    ensures Picked(items, Greedy(items, 0)) == []
  {
    if items != [] {
      NothingFits(items[1..]);
      assert Greedy(items, 0)[1..] == Greedy(items[1..], 0);
    }
  }

  /** Without a budget no block of positive size is resident. */
  lemma NoBudgetNoResidents(order: seq<Id>, bytes: map<Id, nat>)
    requires forall id :: id in order ==> id in bytes && bytes[id] > 0
    ensures GreedyIds(order, bytes, 0) == []
  {
    var items := SortedBySize(BlockItems(order, bytes));
    SortIsPermutation(BlockItems(order, bytes));
    forall i | 0 <= i < |items| ensures items[i].size > 0 {
      assert items[i] in multiset(items) && items[i] in multiset(BlockItems(order, bytes));
      assert items[i] in BlockItems(order, bytes);
    }
    NothingFits(items);
  }

  lemma {:induction false} AllOfSize(items: seq<Item>, size: nat)
    requires forall i :: 0 <= i < |items| ==> items[i].size == size
    ensures OfSize(items, size) == items
  {
    if items != [] {
      AllOfSize(items[1..], size);
    }
  }

  /** Blocks of sizes 2 and 1, largest first: the twos, then the ones. */
  lemma {:induction false} TwosThenOnes(items: seq<Item>)
    requires Descending(items) && forall i :: 0 <= i < |items| ==> items[i].size == 2 || items[i].size == 1
    ensures items == OfSize(items, 2) + OfSize(items, 1)
  {
    if items != [] {
      if items[0].size == 2 {
        TwosThenOnes(items[1..]);
      } else {
        NoneOfSize(items, 2);
        AllOfSize(items, 1);
      }
    }
  }

  lemma {:induction false} TakesTheTwos(twos: seq<Item>, ones: seq<Item>)
    requires forall i :: 0 <= i < |twos| ==> twos[i].size == 2
    requires forall i :: 0 <= i < |ones| ==> ones[i].size == 1
    ensures Picked(twos + ones, Greedy(twos + ones, 2 * |twos|)) ==
      seq(|twos|, i requires 0 <= i < |twos| => twos[i].id)
  {
    if twos == [] {
      assert twos + ones == ones;
      NothingFits(ones);
    } else {
      var rest := twos[1..];
      assert (twos + ones)[1..] == rest + ones && (twos + ones)[0] == twos[0];
      TakesTheTwos(rest, ones);
      var budget := 2 * |twos|;
      assert budget - 2 == 2 * |rest|;
      assert Greedy(twos + ones, budget)[1..] == Greedy(rest + ones, 2 * |rest|);
    }
  }

  ghost predicate TwosAndOnes(items: seq<Item>) {
    forall i :: 0 <= i < |items| ==> items[i].size == 2 || items[i].size == 1
  }

  lemma SortedTwosAndOnes(items: seq<Item>)
    requires TwosAndOnes(items)
    ensures TwosAndOnes(SortedBySize(items)) && Descending(SortedBySize(items))
  {
    var sorted := SortedBySize(items);
    SortIsPermutation(items);
    forall i | 0 <= i < |sorted| ensures sorted[i].size == 2 || sorted[i].size == 1 {
      assert sorted[i] in multiset(sorted) && sorted[i] in multiset(items);
      assert sorted[i] in items;
    }
  }

  lemma SelectsTheTwos(items: seq<Item>, twos: seq<Item>)
    requires TwosAndOnes(items) && OfSize(items, 2) == twos && forall i :: 0 <= i < |twos| ==> twos[i].size == 2
    ensures var sorted := SortedBySize(items);
      Picked(sorted, Greedy(sorted, 2 * |twos|)) == seq(|twos|, i requires 0 <= i < |twos| => twos[i].id)
  {
    SortedTwosAndOnes(items);
    TwosThenOnes(SortedBySize(items));
    SortIsStable(items, 2);
    SortIsStable(items, 1);
    OnesAreOnes(items);
    TakesTheTwos(twos, OfSize(items, 1));
  }

  lemma MiddleIsTwos(a: seq<Item>, b: seq<Item>, c: seq<Item>)
    requires forall i :: 0 <= i < |a| ==> a[i].size != 2
    requires forall i :: 0 <= i < |b| ==> b[i].size == 2
    requires forall i :: 0 <= i < |c| ==> c[i].size != 2
    ensures OfSize(a + b + c, 2) == b
  {
    NoneOfSize(a, 2);
    AllOfSize(b, 2);
    NoneOfSize(c, 2);
    OfSizeConcat(a, b, 2);
    OfSizeConcat(a + b, c, 2);
  }

  /** If exactly the consecutive blocks from `lo` to `hi` have size 2, the others
      size 1, and the budget is just enough for them, greedy selects them in order. */
  lemma TwoAreSelected(order: seq<Id>, bytes: map<Id, nat>, lo: nat, hi: nat)
    requires lo <= hi <= |order| && forall id :: id in order ==> id in bytes
    requires forall k :: 0 <= k < |order| ==> bytes[order[k]] == if lo <= k < hi then 2 else 1
    ensures GreedyIds(order, bytes, 2 * (hi - lo)) == order[lo..hi]
  {
    var items := BlockItems(order, bytes);
    var a, b, c := items[..lo], items[lo..hi], items[hi..];
    assert items == a + b + c;
    MiddleIsTwos(a, b, c);
    SelectsTheTwos(items, b);
    var ids := seq(|b|, i requires 0 <= i < |b| => b[i].id);
    forall i | 0 <= i < hi - lo ensures ids[i] == order[lo..hi][i] {
      assert b[i] == items[lo + i];
    }
    assert ids == order[lo..hi];
  }

  lemma {:induction false} OnesAreOnes(items: seq<Item>)
    ensures forall i :: 0 <= i < |OfSize(items, 1)| ==> OfSize(items, 1)[i].size == 1
  {
    if items != [] {
      OnesAreOnes(items[1..]);
    }
  }

  // ---------------------------------------------------------------- guarantees

  /** Within budget, and no block left out would still fit. */
  lemma {:induction false} GreedyFitsAndIsMaximal(items: seq<Item>, budget: nat)
    ensures Total(items, Greedy(items, budget)) <= budget
    ensures forall i :: 0 <= i < |items| && !Greedy(items, budget)[i] ==>
      Total(items, Greedy(items, budget)) + items[i].size > budget
  {
    if items != [] {
      var left := if items[0].size <= budget then budget - items[0].size else budget;
      GreedyFitsAndIsMaximal(items[1..], left);
      forall i | 0 <= i < |items| && !Greedy(items, budget)[i]
        ensures Total(items, Greedy(items, budget)) + items[i].size > budget
      {
        if i > 0 {
          assert items[1..][i - 1] == items[i];
        }
      }
    }
  }

  lemma {:induction false} MaskBound(items: seq<Item>, mask: Mask, other: Mask)
    requires |mask| == |items| == |other|
    requires forall i :: 0 <= i < |items| && other[i] ==> mask[i]
    ensures Total(items, other) <= Total(items, mask)
  {
    if items != [] {
      assert other[0] ==> mask[0];
      MaskBound(items[1..], mask[1..], other[1..]);
    }
  }

  lemma {:induction false} ChosenIsCounted(items: seq<Item>, mask: Mask, i: nat)
    requires |mask| == |items| && i < |items| && mask[i]
    ensures items[i].size <= Total(items, mask)
  {
    if i > 0 {
      ChosenIsCounted(items[1..], mask[1..], i - 1);
    }
  }

  lemma {:induction false} FirstFitIsTaken(items: seq<Item>, budget: nat, i: nat)
    requires i < |items| && items[i].size <= budget
    requires Descending(items)
    ensures exists k :: 0 <= k <= i && Greedy(items, budget)[k] && items[k].size >= items[i].size
  {
    if items[0].size <= budget {
      assert Greedy(items, budget)[0];
    } else {
      FirstFitIsTaken(items[1..], budget, i - 1);
      var k :| 0 <= k <= i - 1 && Greedy(items[1..], budget)[k] && items[1..][k].size >= items[1..][i - 1].size;
      assert Greedy(items, budget)[k + 1];
    }
  }

  /** At least half of what any selection within the budget could keep. */
  lemma GreedyIsHalfOptimal(items: seq<Item>, budget: nat, other: Mask)
    requires Descending(items) && |other| == |items| && Total(items, other) <= budget
    ensures Total(items, other) <= 2 * Total(items, Greedy(items, budget))
  {
    var mask := Greedy(items, budget);
    if i :| 0 <= i < |items| && other[i] && !mask[i] {
      ChosenIsCounted(items, other, i);
      FirstFitIsTaken(items, budget, i);
      var k :| 0 <= k <= i && mask[k] && items[k].size >= items[i].size;
      ChosenIsCounted(items, mask, k);
      GreedyFitsAndIsMaximal(items, budget);
    } else {
      MaskBound(items, mask, other);
    }
  }

  // ------------------------------------------------- when greedy is exact

  /** Positive sizes, each a multiple of the next. */
  ghost predicate Chain(items: seq<Item>) {
    && (forall i :: 0 <= i < |items| ==> items[i].size > 0)
    && (forall i, j :: 0 <= i < j < |items| ==> items[i].size % items[j].size == 0)
  }

  /** From a selection worth at least `t`, a multiple of every size, items worth
      exactly `t` can be dropped. */
  lemma {:induction false} Carve(items: seq<Item>, mask: Mask, t: nat) returns (less: Mask)
    requires |mask| == |items| && Chain(items) && Total(items, mask) >= t
    requires forall i :: 0 <= i < |items| ==> t % items[i].size == 0
    ensures |less| == |items| && Total(items, less) == Total(items, mask) - t
  {
    if t == 0 || items == [] {
      less := mask;
    } else {
      var h := items[0].size;
      var rest := items[1..];
      if mask[0] {
        MultipleIsLarge(t, h);
        forall i | 0 <= i < |rest| ensures (t - h) % rest[i].size == 0 {
          assert items[0].size % items[i + 1].size == 0;
          MultipleOfMultiple(t, h, rest[i].size);
        }
        var sub := Carve(rest, mask[1..], t - h);
        less := [false] + sub;
      } else {
        var sub := Carve(rest, mask[1..], t);
        less := [false] + sub;
      }
    }
  }

  /** When every size divides every larger one, greedy is optimal. */
  lemma {:induction false} GreedyIsOptimalOnChains(items: seq<Item>, budget: nat, other: Mask)
    requires Chain(items) && |other| == |items| && Total(items, other) <= budget
    ensures Total(items, other) <= Total(items, Greedy(items, budget))
  {
    if items != [] {
      var a, rest := items[0].size, items[1..];
      assert Chain(rest);
      if a > budget {
        GreedyIsOptimalOnChains(rest, budget, other[1..]);
      } else if other[0] {
        GreedyIsOptimalOnChains(rest, budget - a, other[1..]);
      } else if Total(rest, other[1..]) > a {
        forall i | 0 <= i < |rest| ensures a % rest[i].size == 0 {
          assert rest[i] == items[i + 1];
        }
        var less := Carve(rest, other[1..], a);
        GreedyIsOptimalOnChains(rest, budget - a, less);
      }
    }
  }

  // ------------------------------------------------------------- two sizes

  ghost predicate TwoSized(items: seq<Item>, big: nat, small: nat) {
    forall i :: 0 <= i < |items| ==> items[i].size == big || items[i].size == small
  }

  /** Distinct blocks of these two sizes, largest first, and a selection within the budget. */
  ghost predicate TwoSizedChoice(items: seq<Item>, big: nat, small: nat, budget: nat, other: Mask) {
    && IdsUnique(items) && Descending(items) && TwoSized(items, big, small)
    && |other| == |items| && Total(items, other) <= budget
  }

  /** Greedy keeps the most bytes possible, whatever the budget, for every model
      made of blocks of these two sizes. */
  ghost predicate ExactForTwoSizes(big: nat, small: nat) {
    forall items, budget: nat, other: Mask :: TwoSizedChoice(items, big, small, budget, other) ==>
      Total(items, other) <= Total(items, Greedy(items, budget))
  }

  lemma SelfDivides(x: nat)
    requires x > 0
    ensures x % x == 0
  {
    ModZero(1, x);
  }

  lemma TwoSizesAreAChain(items: seq<Item>, big: nat, small: nat)
    requires Descending(items) && TwoSized(items, big, small) && 0 < small < big && big % small == 0
    ensures Chain(items)
  {
    SelfDivides(big);
    SelfDivides(small);
    forall i, j | 0 <= i < j < |items| ensures items[i].size % items[j].size == 0 {
      assert items[i].size >= items[j].size;
      var a, b := items[i].size, items[j].size;
      assert (a == big && b == big) || (a == big && b == small) || (a == small && b == small);
    }
  }

  /** Small blocks of one family, their indices counting up from `first`. */
  function Crowd(small: nat, first: nat, k: nat): (items: seq<Item>)
    ensures |items| == k
    decreases k
  {
    if k == 0 then [] else [Item(BlockId("blocks", first), small)] + Crowd(small, first + 1, k - 1)
  }

  lemma {:induction false} CrowdIds(small: nat, first: nat, k: nat, i: nat)
    requires i < k
    ensures Crowd(small, first, k)[i] == Item(BlockId("blocks", first + i), small)
    decreases k
  {
    if i > 0 {
      CrowdIds(small, first + 1, k - 1, i - 1);
    }
  }

  function Repeat(b: bool, k: nat): (mask: Mask)
    ensures |mask| == k
  {
    if k == 0 then [] else [b] + Repeat(b, k - 1)
  }

  lemma {:induction false} CrowdTotals(small: nat, first: nat, k: nat, left: nat)
    requires left < small
    ensures Total(Crowd(small, first, k), Repeat(true, k)) == k * small
    ensures Total(Crowd(small, first, k), Greedy(Crowd(small, first, k), left)) == 0
    decreases k
  {
    if k > 0 {
      var crowd := Crowd(small, first, k);
      CrowdTotals(small, first + 1, k - 1, left);
      assert crowd[1..] == Crowd(small, first + 1, k - 1) && Repeat(true, k)[1..] == Repeat(true, k - 1);
      assert k * small == (k - 1) * small + small;
    }
  }

  /** One big block and small ones of the same family, in the model's order. */
  function Crowded(big: nat, small: nat, k: nat): seq<Item> {
    [Item(BlockId("blocks", 0), big)] + Crowd(small, 1, k)
  }

  lemma CrowdedBlocks(big: nat, small: nat, k: nat)
    requires small < big
    ensures IdsUnique(Crowded(big, small, k)) && Descending(Crowded(big, small, k)) &&
      TwoSized(Crowded(big, small, k), big, small)
  {
    var items := Crowded(big, small, k);
    forall i | 0 < i < |items| ensures items[i] == Item(BlockId("blocks", i), small) {
      CrowdIds(small, 1, k, i - 1);
    }
    forall i, j | 0 <= i < j < |items| ensures items[i].id != items[j].id {
      BlockIdInjective("blocks", i, "blocks", j);
    }
  }

  /** One big block, and just enough small ones to beat it. */
  lemma TwoSizesCounterexample(big: nat, small: nat) returns (items: seq<Item>, budget: nat, other: Mask)
    requires 0 < small < big && big % small != 0
    ensures TwoSizedChoice(items, big, small, budget, other)
    ensures Total(items, other) > Total(items, Greedy(items, budget))
  {
    var k := big / small + 1;
    assert big == (big / small) * small + big % small;
    assert k * small == (big / small) * small + small;
    budget := k * small;
    items := Crowded(big, small, k);
    other := [false] + Repeat(true, k);
    CrowdedBlocks(big, small, k);
    CrowdTotals(small, 1, k, budget - big);
    assert items[1..] == Crowd(small, 1, k) && other[1..] == Repeat(true, k);
    assert Total(items, other) == k * small;
    assert Total(items, Greedy(items, budget)) == big;
  }

  /** With two block sizes greedy is exact if and only if the smaller divides the larger. */
  lemma TwoSizesExactly(big: nat, small: nat)
    requires 0 < small < big
    ensures ExactForTwoSizes(big, small) <==> big % small == 0
  {
    if big % small == 0 {
      forall items, budget: nat, other: Mask
        | TwoSizedChoice(items, big, small, budget, other)
        ensures Total(items, other) <= Total(items, Greedy(items, budget))
      {
        TwoSizesAreAChain(items, big, small);
        GreedyIsOptimalOnChains(items, budget, other);
      }
    } else {
      var items, budget, other := TwoSizesCounterexample(big, small);
    }
  }
}
