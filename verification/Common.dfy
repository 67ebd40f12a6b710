/** Small datatypes and sequence facts shared by the other modules. */
module Common {

  datatype Option<+T> = None | Some(value: T)

  datatype Result<+T, +E> = Ok(value: T) | Err(error: E)

  newtype byte = x: int | 0 <= x < 256

  /** The id of the block of tensors no family claims. */
  const UNASSIGNED := "shared/unassigned"

  const U64_LIMIT := 0x1_0000_0000_0000_0000

  /** `u64::checked_add`. */
  function CheckedAdd(a: nat, b: nat): Option<nat> {
    if a + b < U64_LIMIT then Some(a + b) else None
  }

  ghost predicate Distinct<T>(s: seq<T>) {
    forall i, j :: 0 <= i < j < |s| ==> s[i] != s[j]
  }

  lemma HasMember<T>(s: seq<T>)
    requires s != []
    ensures exists x :: x in s
  {
    assert s[0] in s;
  }

  function Sum(s: seq<nat>): nat {
    if s == [] then 0 else Sum(s[..|s| - 1]) + s[|s| - 1]
  }
}
