/** Cyclic next-use distances over the execution order. */
module NextUse {
  import opened Common
  import opened Errors
  import opened Arithmetic
  import opened Device

  function Distance(n: nat, first: nat, idx: nat): nat
    requires first < n && idx < n
  {
    (idx + n - first) % n
  }

  ghost predicate FirstAt(order: seq<Id>, id: Id, k: nat) {
    k < |order| && order[k] == id && id !in order[..k]
  }

  ghost predicate Distances(order: seq<Id>, first: nat, table: seq<(Id, nat)>)
    requires first < |order|
  {
    |table| == |order| && forall k :: 0 <= k < |order| ==> table[k] == (order[k], Distance(|order|, first, k))
  }

  method NextUseDistances(order: seq<Id>, id: Id) returns (r: Result<seq<(Id, nat)>, EngineError>)
    ensures r.Err? <==> id !in order
    ensures r.Err? ==> r.error == UnknownBlock(id)
    ensures r.Ok? ==> exists first :: FirstAt(order, id, first) && Distances(order, first, r.value)
  {
    var n := |order|;
    for first := 0 to n
      invariant id !in order[..first]
    {
      if order[first] == id {
        r := Ok(seq(n, k requires 0 <= k < n => (order[k], Distance(n, first, k))));
        assert FirstAt(order, id, first);
        return;
      }
    }
    assert order[..n] == order;
    return Err(UnknownBlock(id));
  }

  lemma DistanceValue(n: nat, first: nat, idx: nat)
    requires first < n && idx < n
    ensures Distance(n, first, idx) == if idx >= first then idx - first else idx + n - first
  {
    if idx >= first {
      ModOf(1, n, idx - first);
    } else {
      ModOf(0, n, idx + n - first);
    }
  }

  /** The distance is the number of steps until the block runs next: the order,
      run in a cycle from `first`, reaches `idx` after exactly the distance and
      then once per cycle, never in between. */
  lemma DistanceIsNextUse(n: nat, first: nat, idx: nat, steps: nat)
    requires first < n && idx < n
    ensures Distance(n, first, idx) < n
    ensures (first + steps) % n == idx
      <==> steps >= Distance(n, first, idx) && (steps - Distance(n, first, idx)) % n == 0
  {
    DistanceValue(n, first, idx);
    var d, c := Distance(n, first, idx), if idx >= first then 0 else 1;
    if (first + steps) % n == idx {
      ReachedLater(n, first, idx, steps, d, c);
    }
    if steps >= d && (steps - d) % n == 0 {
      LaterReached(n, first, idx, steps, d, c);
    }
  }

  lemma ReachedLater(n: nat, first: nat, idx: nat, steps: nat, d: nat, c: nat)
    requires first < n && idx < n && d < n && d == idx - first + c * n
    requires (first + steps) % n == idx
    ensures steps >= d && (steps - d) % n == 0
  {
    var q := (first + steps) / n;
    assert first + steps == q * n + idx;
    assert steps - d == (q - c) * n;
    if q < c {
      MulMonotone(q - c, -1, n);
    }
    ModZero(q - c, n);
  }

  lemma LaterReached(n: nat, first: nat, idx: nat, steps: nat, d: nat, c: nat)
    requires first < n && idx < n && d == idx - first + c * n
    requires steps >= d && (steps - d) % n == 0
    ensures (first + steps) % n == idx
  {
    var p := (steps - d) / n;
    assert steps == d + p * n;
    assert first + steps == (c + p) * n + idx;
    ModOf(c + p, n, idx);
  }

  /** The distances of all blocks are 0, .., n - 1, each once. */
  lemma DistancesAreAPermutation(n: nat, first: nat, d: nat) returns (idx: nat)
    requires first < n && d < n
    ensures idx < n && Distance(n, first, idx) == d
    ensures forall i: nat :: i < n && Distance(n, first, i) == d ==> i == idx
  {
    idx := if first + d < n then first + d else first + d - n;
    forall i: nat | i < n ensures Distance(n, first, i) == if i >= first then i - first else i + n - first {
      DistanceValue(n, first, i);
    }
  }
}
