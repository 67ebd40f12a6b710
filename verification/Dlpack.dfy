/** DLPack exports: who frees a tensor's descriptor and its shape array.

    A capsule is born named "dltensor".  Importing it renames it and hands the
    descriptor to the new tensor; a capsule destroyed under its first name was
    never imported and frees the descriptor itself. */
module Dlpack {
  import opened Common

  const UNCLAIMED := "dltensor"
  const CLAIMED := "used_dltensor"

  datatype Capsule = Capsule(name: string, pointer: nat)

  /** `managed` maps each live descriptor to the shape box it owns, `tensors` each
      live imported tensor to its descriptor.  `boxes` are all boxes ever made,
      `freed` the frees in order. */
  datatype Memory = Memory(
    managed: map<nat, nat>, shapes: set<nat>, capsules: map<nat, Capsule>, tensors: map<nat, nat>,
    next: nat, boxes: set<nat>, freed: seq<nat>)

  datatype Event =
    | MakeCapsule(created: bool)
    | Import(capsule: nat)
    | DropCapsule(capsule: nat)
    | CollectTensor(tensor: nat)

  const NOTHING := Memory(map[], {}, map[], map[], 0, {}, [])

  // ------------------------------------------------------------- transitions

  /** Freeing a descriptor frees the shape it owns first; of a descriptor already
      gone only the second free is left. */
  function Delete(mem: Memory, managed: nat): Memory {
    if managed in mem.managed then
      var shape := mem.managed[managed];
      mem.(managed := mem.managed - {managed}, shapes := mem.shapes - {shape}, freed := mem.freed + [shape, managed])
    else mem.(freed := mem.freed + [managed])
  }

  function Boxed(mem: Memory): Memory {
    var shape, managed := mem.next, mem.next + 1;
    mem.(managed := mem.managed[managed := shape], shapes := mem.shapes + {shape},
         next := mem.next + 2, boxes := mem.boxes + {shape, managed})
  }

  function Make(mem: Memory, created: bool): Memory {
    var boxed := Boxed(mem);
    if created then
      boxed.(capsules := boxed.capsules[boxed.next := Capsule(UNCLAIMED, mem.next + 1)], next := boxed.next + 1)
    else Delete(boxed, mem.next + 1)
  }

  /** `from_dlpack` takes a capsule only under its first name. */
  function Imported(mem: Memory, c: nat): Memory {
    if c in mem.capsules && mem.capsules[c].name == UNCLAIMED then
      mem.(capsules := mem.capsules[c := mem.capsules[c].(name := CLAIMED)],
           tensors := mem.tensors[mem.next := mem.capsules[c].pointer], next := mem.next + 1)
    else mem
  }

  function Destroyed(mem: Memory, c: nat): Memory {
    if c !in mem.capsules then mem
    else
      var cleaned := if mem.capsules[c].name == UNCLAIMED then Delete(mem, mem.capsules[c].pointer) else mem;
      cleaned.(capsules := cleaned.capsules - {c})
  }

  function Collected(mem: Memory, t: nat): Memory {
    if t !in mem.tensors then mem
    else
      var cleaned := Delete(mem, mem.tensors[t]);
      cleaned.(tensors := cleaned.tensors - {t})
  }

  function Apply(mem: Memory, event: Event): Memory {
    match event
    case MakeCapsule(created) => Make(mem, created)
    case Import(c) => Imported(mem, c)
    case DropCapsule(c) => Destroyed(mem, c)
    case CollectTensor(t) => Collected(mem, t)
  }

  function Run(mem: Memory, events: seq<Event>): Memory {
    if events == [] then mem else Apply(Run(mem, events[..|events| - 1]), events[|events| - 1])
  }

  // --------------------------------------------------------------- invariant

  /** `h`, an unclaimed capsule or a tensor, will free the descriptor `p`. */
  ghost predicate Holds(mem: Memory, h: nat, p: nat) {
    || (h in mem.capsules && mem.capsules[h].name == UNCLAIMED && mem.capsules[h].pointer == p)
    || (h in mem.tensors && mem.tensors[h] == p)
  }

  ghost predicate Held(mem: Memory, p: nat) {
    exists h: nat :: Holds(mem, h, p)
  }

  /** Descriptors and shapes are paired off, apart, and numbered below `next`. */
  ghost predicate Paired(mem: Memory) {
    && (forall p :: p in mem.managed ==> p < mem.next && mem.managed[p] in mem.shapes && p !in mem.shapes)
    && (forall p, q :: p in mem.managed && q in mem.managed && p != q ==> mem.managed[p] != mem.managed[q])
    && (forall s :: s in mem.shapes ==> s < mem.next && exists p :: p in mem.managed && mem.managed[p] == s)
  }

  /** A box is live or was freed once, never both. */
  ghost predicate FreedOnce(mem: Memory) {
    && Distinct(mem.freed)
    && (forall b :: b in mem.freed ==> b < mem.next && b !in mem.managed && b !in mem.shapes)
    && (forall b :: b in mem.boxes <==> b in mem.managed || b in mem.shapes || b in mem.freed)
  }

  ghost predicate Numbered(mem: Memory) {
    && (forall c :: c in mem.capsules ==> c < mem.next && c !in mem.tensors)
    && (forall t :: t in mem.tensors ==> t < mem.next)
  }

  /** Every live descriptor has exactly one holder, and holders hold only live ones. */
  ghost predicate OneHolder(mem: Memory) {
    && (forall h: nat, p: nat :: Holds(mem, h, p) ==> p in mem.managed)
    && (forall h: nat, h': nat, p: nat :: Holds(mem, h, p) && Holds(mem, h', p) ==> h == h')
    && (forall p :: p in mem.managed ==> Held(mem, p))
  }

  ghost predicate Inv(mem: Memory) {
    Paired(mem) && FreedOnce(mem) && Numbered(mem) && OneHolder(mem)
  }

  // ------------------------------------------------------------- preservation

  lemma DeleteKeepsBoxes(mem: Memory, p: nat)
    requires Paired(mem) && FreedOnce(mem) && p in mem.managed
    ensures Paired(Delete(mem, p)) && FreedOnce(Delete(mem, p))
  {
    var shape, after := mem.managed[p], Delete(mem, p);
    forall s | s in after.shapes ensures exists q :: q in after.managed && after.managed[q] == s {
      var q :| q in mem.managed && mem.managed[q] == s;
      assert q in after.managed && after.managed[q] == s;
    }
    assert p != shape;
  }

  lemma BoxedKeepsBoxes(mem: Memory)
    requires Paired(mem) && FreedOnce(mem)
    ensures Paired(Boxed(mem)) && FreedOnce(Boxed(mem))
  {
    var after := Boxed(mem);
    forall s | s in after.shapes ensures exists q :: q in after.managed && after.managed[q] == s {
      if s == mem.next {
        assert after.managed[mem.next + 1] == s;
      } else {
        var q :| q in mem.managed && mem.managed[q] == s;
        assert q in after.managed && after.managed[q] == s;
      }
    }
  }

  /** The same descriptors, one of them passed on from holder `h` to a new holder `h'`. */
  ghost predicate PassedOn(mem: Memory, after: Memory, h: nat, h': nat, p: nat) {
    && after.managed == mem.managed
    && forall g: nat, q: nat :: Holds(after, g, q) <==> (g == h' && q == p) || (g != h && Holds(mem, g, q))
  }

  lemma PassOnKeeps(mem: Memory, after: Memory, h: nat, h': nat, p: nat)
    requires OneHolder(mem) && Numbered(mem) && Holds(mem, h, p) && PassedOn(mem, after, h, h', p)
    ensures OneHolder(after)
  {
    forall q | q in after.managed ensures Held(after, q) {
      var g: nat :| Holds(mem, g, q);
      assert if g == h then Holds(after, h', q) else Holds(after, g, q);
    }
  }

  /** A holder is gone, with its descriptor if it held one. */
  ghost predicate LetGo(mem: Memory, after: Memory, h: nat) {
    && (forall g: nat, q: nat :: Holds(after, g, q) <==> g != h && Holds(mem, g, q))
    && (forall q :: q in after.managed <==> q in mem.managed && !Holds(mem, h, q))
  }

  lemma LetGoKeeps(mem: Memory, after: Memory, h: nat)
    requires OneHolder(mem) && LetGo(mem, after, h)
    ensures OneHolder(after)
  {
    forall q | q in after.managed ensures Held(after, q) {
      var g: nat :| Holds(mem, g, q);
      assert Holds(after, g, q);
    }
  }

  lemma SameHolders(mem: Memory, after: Memory)
    requires OneHolder(mem) && after.managed.Keys == mem.managed.Keys
    requires after.capsules == mem.capsules && after.tensors == mem.tensors
    ensures OneHolder(after)
  {
    assert forall g: nat, q: nat :: Holds(after, g, q) <==> Holds(mem, g, q);
    forall q | q in after.managed ensures Held(after, q) {
      var g: nat :| Holds(mem, g, q);
      assert Holds(after, g, q);
    }
  }

  lemma FailedMakeKeeps(mem: Memory)
    requires Inv(mem)
    ensures Inv(Make(mem, false))
  {
    BoxedKeepsBoxes(mem);
    DeleteKeepsBoxes(Boxed(mem), mem.next + 1);
    assert mem.next + 1 !in mem.managed;
    SameHolders(mem, Make(mem, false));
  }

  lemma HolderOfNew(mem: Memory)
    requires Inv(mem)
    ensures var after := Make(mem, true);
      forall g: nat, q: nat :: Holds(after, g, q) <==> (g == mem.next + 2 && q == mem.next + 1) || Holds(mem, g, q)
  {
  }

  lemma MadeInv(mem: Memory, created: bool)
    requires Inv(mem)
    ensures Inv(Make(mem, created))
  {
    if created {
      BoxedKeepsBoxes(mem);
      HolderOfNew(mem);
      NewHolderKeeps(mem, Make(mem, true), mem.next + 2, mem.next + 1);
    } else {
      FailedMakeKeeps(mem);
    }
  }

  lemma FailedMakeLeaves(mem: Memory)
    requires Inv(mem)
    ensures var after := Make(mem, false);
      && after.managed == mem.managed && after.shapes == mem.shapes
      && after.capsules == mem.capsules && after.tensors == mem.tensors
      && after.boxes - mem.boxes == {mem.next, mem.next + 1} && after.freed == mem.freed + [mem.next, mem.next + 1]
  {
    assert mem.next + 1 !in mem.managed && mem.next !in mem.shapes;
    assert mem.next !in mem.boxes && mem.next + 1 !in mem.boxes;
  }

  /** A new export is held by its capsule alone; a failed one leaves every holder
      and every live box as they were, its own two boxes made and freed. */
  lemma MakeKeeps(mem: Memory, created: bool)
    requires Inv(mem)
    ensures Inv(Make(mem, created))
    ensures created ==> Holds(Make(mem, created), mem.next + 2, mem.next + 1) && Make(mem, created).freed == mem.freed
    ensures !created ==> var after := Make(mem, created);
      && after.managed == mem.managed && after.shapes == mem.shapes
      && (forall h: nat, p: nat :: Holds(after, h, p) <==> Holds(mem, h, p))
      && after.boxes - mem.boxes == {mem.next, mem.next + 1} && after.freed == mem.freed + [mem.next, mem.next + 1]
  {
    MadeInv(mem, created);
    if !created {
      FailedMakeLeaves(mem);
    }
  }

  lemma NewHolderKeeps(mem: Memory, after: Memory, h: nat, p: nat)
    requires OneHolder(mem) && p !in mem.managed
    requires forall q :: q in after.managed <==> q in mem.managed || q == p
    requires forall g: nat, q: nat :: Holds(after, g, q) <==> (g == h && q == p) || Holds(mem, g, q)
    ensures OneHolder(after)
  {
    assert Holds(after, h, p);
    forall q | q in mem.managed ensures Held(after, q) {
      var g: nat :| Holds(mem, g, q);
      assert Holds(after, g, q);
    }
  }

  /** Importing an unclaimed capsule passes its descriptor on to the new tensor and
      frees nothing; any other capsule is left as it is. */
  lemma ImportKeeps(mem: Memory, c: nat)
    requires Inv(mem)
    ensures Inv(Imported(mem, c)) && Imported(mem, c).freed == mem.freed
    ensures forall p: nat :: Holds(mem, c, p) && c in mem.capsules ==>
      Holds(Imported(mem, c), mem.next, p) && !Holds(Imported(mem, c), c, p)
    ensures (c in mem.capsules ==> mem.capsules[c].name != UNCLAIMED) ==> Imported(mem, c) == mem
  {
    if c in mem.capsules && mem.capsules[c].name == UNCLAIMED {
      assert Holds(mem, c, mem.capsules[c].pointer);
      PassOnKeeps(mem, Imported(mem, c), c, mem.next, mem.capsules[c].pointer);
    }
  }

  lemma DestroyLetsGo(mem: Memory, c: nat)
    requires Inv(mem) && c in mem.capsules && mem.capsules[c].name == UNCLAIMED
    ensures LetGo(mem, Destroyed(mem, c), c)
  {
    assert Holds(mem, c, mem.capsules[c].pointer);
  }

  lemma DestroyUnclaimedKeeps(mem: Memory, c: nat)
    requires Inv(mem) && c in mem.capsules && mem.capsules[c].name == UNCLAIMED
    ensures Inv(Destroyed(mem, c))
  {
    assert Holds(mem, c, mem.capsules[c].pointer);
    DeleteKeepsBoxes(mem, mem.capsules[c].pointer);
    DestroyLetsGo(mem, c);
    LetGoKeeps(mem, Destroyed(mem, c), c);
  }

  lemma DestroyedInv(mem: Memory, c: nat)
    requires Inv(mem)
    ensures Inv(Destroyed(mem, c))
  {
    if c in mem.capsules {
      if mem.capsules[c].name == UNCLAIMED {
        DestroyUnclaimedKeeps(mem, c);
      } else {
        LetGoKeeps(mem, Destroyed(mem, c), c);
      }
    }
  }

  /** Destroying a capsule frees exactly the descriptor it holds, with its shape,
      and nothing if it was imported before. */
  lemma DestroyKeeps(mem: Memory, c: nat)
    requires Inv(mem)
    ensures Inv(Destroyed(mem, c)) && c !in Destroyed(mem, c).capsules
    ensures forall p: nat :: Holds(mem, c, p) && c in mem.capsules ==>
      p in mem.managed && Destroyed(mem, c).freed == mem.freed + [mem.managed[p], p]
    ensures c in mem.capsules && (forall p: nat :: !Holds(mem, c, p)) ==> Destroyed(mem, c).freed == mem.freed
  {
    DestroyedInv(mem, c);
  }

  lemma CollectLetsGo(mem: Memory, t: nat)
    requires Inv(mem) && t in mem.tensors
    ensures LetGo(mem, Collected(mem, t), t)
  {
    assert Holds(mem, t, mem.tensors[t]);
  }

  /** Collecting a tensor frees its descriptor and its shape together. */
  lemma CollectKeeps(mem: Memory, t: nat)
    requires Inv(mem)
    ensures Inv(Collected(mem, t)) && t !in Collected(mem, t).tensors
    ensures forall p: nat :: Holds(mem, t, p) && t in mem.tensors ==>
      p in mem.managed && Collected(mem, t).freed == mem.freed + [mem.managed[p], p]
  {
    if t in mem.tensors {
      assert Holds(mem, t, mem.tensors[t]);
      DeleteKeepsBoxes(mem, mem.tensors[t]);
      CollectLetsGo(mem, t);
      LetGoKeeps(mem, Collected(mem, t), t);
    }
  }

  lemma ApplyKeeps(mem: Memory, event: Event)
    requires Inv(mem)
    ensures Inv(Apply(mem, event))
  {
    match event
    case MakeCapsule(created) => MakeKeeps(mem, created);
    case Import(c) => ImportKeeps(mem, c);
    case DropCapsule(c) => DestroyKeeps(mem, c);
    case CollectTensor(t) => CollectKeeps(mem, t);
  }

  lemma {:induction false} RunKeeps(events: seq<Event>)
    ensures Inv(Run(NOTHING, events))
  {
    if events != [] {
      RunKeeps(events[..|events| - 1]);
      ApplyKeeps(Run(NOTHING, events[..|events| - 1]), events[|events| - 1]);
    }
  }

  // ----------------------------------------------------------------- theorems

  /** In every order of creation (failing or not), import, capsule destruction
      and collection: no box is freed twice, only boxes that were made are freed,
      and whatever a holder can still reach has not been. */
  lemma NeverFreedTwice(events: seq<Event>)
    ensures var mem := Run(NOTHING, events);
      && Distinct(mem.freed)
      && (forall b :: b in mem.freed ==> b in mem.boxes)
      && (forall p :: Held(mem, p) ==> p in mem.managed && p !in mem.freed && mem.managed[p] !in mem.freed)
  {
    RunKeeps(events);
  }

  /** The box is a held descriptor or the shape of one. */
  ghost predicate Kept(mem: Memory, b: nat) {
    exists p: nat :: Held(mem, p) && p in mem.managed && (b == p || b == mem.managed[p])
  }

  lemma LiveIsKept(mem: Memory, b: nat)
    requires Inv(mem)
    ensures Kept(mem, b) <==> b in mem.managed || b in mem.shapes
  {
    if b in mem.managed {
      assert Held(mem, b);
    } else if b in mem.shapes {
      var p :| p in mem.managed && mem.managed[p] == b;
      assert Held(mem, p);
    }
  }

  /** Box by box, in every order of events: a box that was ever made has been freed
      if and only if no holder keeps it. */
  lemma FreedWhenUnheld(events: seq<Event>, b: nat)
    ensures var mem := Run(NOTHING, events);
      b in mem.boxes ==> (b in mem.freed <==> !Kept(mem, b))
  {
    RunKeeps(events);
    LiveIsKept(Run(NOTHING, events), b);
  }

  // -------------------------------------------------------------- the exporter

  /** The heap as the exporter's functions and the interpreter change it. */
  class Exporter {
    var managed: map<nat, nat>
    var shapes: set<nat>
    var capsules: map<nat, Capsule>
    var tensors: map<nat, nat>
    var next: nat
    var boxes: set<nat>
    var freed: seq<nat>

    function Model(): Memory
      reads this
    {
      Memory(managed, shapes, capsules, tensors, next, boxes, freed)
    }

    constructor ()
      ensures Model() == NOTHING
    {
      managed, shapes, capsules, tensors, next, boxes, freed := map[], {}, map[], map[], 0, {}, [];
    }

    method Deleter(pointer: Option<nat>)
      modifies this
      ensures Model() == if pointer.None? then old(Model()) else Delete(old(Model()), pointer.value)
    {
      if pointer.None? {
        return;
      }
      var p := pointer.value;
      if p in managed {
        var shape := managed[p];
        managed := managed - {p};
        shapes := shapes - {shape};
        freed := freed + [shape];
      }
      freed := freed + [p];
      assert p in old(managed) ==> old(freed) + [old(managed)[p]] + [p] == old(freed) + [old(managed)[p], p];
    }

    /** `created` is whether the interpreter could make the capsule object. */
    method MakeCudaCapsule(created: bool) returns (capsule: Option<nat>)
      modifies this
      ensures Model() == Make(old(Model()), created)
      ensures capsule == if created then Some(old(next) + 2) else None
    {
      var shape := next;
      shapes := shapes + {shape};
      var p := next + 1;
      managed := managed[p := shape];
      boxes := boxes + {shape, p};
      next := next + 2;
      if !created {
        Deleter(Some(p));
        return None;
      }
      capsule := Some(next);
      capsules := capsules[next := Capsule(UNCLAIMED, p)];
      next := next + 1;
    }

    /** The consumer's side: take the descriptor and rename the capsule. */
    method FromDlpack(capsule: nat) returns (tensor: Option<nat>)
      modifies this
      ensures Model() == Imported(old(Model()), capsule)
      ensures tensor ==
        if capsule in old(capsules) && old(capsules)[capsule].name == UNCLAIMED then Some(old(next)) else None
    {
      if capsule !in capsules || capsules[capsule].name != UNCLAIMED {
        return None;
      }
      tensor := Some(next);
      tensors := tensors[next := capsules[capsule].pointer];
      next := next + 1;
      capsules := capsules[capsule := capsules[capsule].(name := CLAIMED)];
    }

    /** The interpreter drops a capsule: its destructor runs, then it is gone. */
    method DropCapsule(capsule: nat)
      modifies this
      ensures Model() == Destroyed(old(Model()), capsule)
    {
      if capsule in capsules {
        CapsuleDestructor(capsule);
        capsules := capsules - {capsule};
      }
    }

    method CapsuleDestructor(capsule: nat)
      requires capsule in capsules
      modifies this
      ensures Model() == if old(capsules)[capsule].name == UNCLAIMED
                         then Delete(old(Model()), old(capsules)[capsule].pointer) else old(Model())
    {
      if capsules[capsule].name == UNCLAIMED {
        Deleter(Some(capsules[capsule].pointer));
      }
    }

    /** The consumer collects an imported tensor and calls the deleter. */
    method CollectTensor(tensor: nat)
      modifies this
      ensures Model() == Collected(old(Model()), tensor)
    {
      if tensor in tensors {
        Deleter(Some(tensors[tensor]));
        tensors := tensors - {tensor};
      }
    }
  }
}
