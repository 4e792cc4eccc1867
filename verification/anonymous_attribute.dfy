/** The owning handle to an anonymous attribute id,
    `OwnedAnonymousAttributeID<IsStrong>`: a pointer that may be null and a
    kind, strong or weak, fixed by the handle's type. Every handle that holds
    an id owns one reference of its kind to it.

    The reference counters live behind foreign calls; here they are a map
    from id to the pair (strong, weak). The handles live in memory; here
    memory is a sequence of slots, one per handle object, and a slot is freed
    when its handle is destroyed. References owned outside any handle (a
    pointer about to be adopted, or one handed out by `extract`) are kept as
    a multiset. The model proves that every operation keeps the counters
    balanced: each id's strong (weak) counter equals the number of live
    strong (weak) handles holding it plus the strong (weak) references owned
    outside handles. */
module AnonymousAttribute {
  import opened Wrappers

  /** An anonymous attribute id, standing for its address. */
  type Id = nat

  datatype Kind = Strong | Weak

  datatype Handle = Handle(kind: Kind, data: Option<Id>)

  datatype Counts = Counts(strong: int, weak: int)

  /** A reference to `id` of kind `kind` owned outside every handle. */
  datatype Ref = Ref(id: Id, kind: Kind)

  /** The memory one handle object occupies. */
  datatype Slot = Free | Live(handle: Handle)

  datatype World = World(counters: map<Id, Counts>, slots: seq<Slot>, raw: multiset<Ref>)

  /** The counter of `kind` for `id`; an id never counted reads as zero. */
  function Counter(counters: map<Id, Counts>, id: Id, kind: Kind): int {
    if id !in counters then 0
    else if kind == Strong then counters[id].strong
    else counters[id].weak
  }

  /** Add `delta` to the counter of `kind` for `id`. */
  function Bump(counters: map<Id, Counts>, id: Id, kind: Kind, delta: int): (r: map<Id, Counts>)
    ensures forall i, k :: Counter(r, i, k) == Counter(counters, i, k) + (if i == id && k == kind then delta else 0)
  {
    var c := if id in counters then counters[id] else Counts(0, 0);
    counters[id := if kind == Strong then c.(strong := c.strong + delta) else c.(weak := c.weak + delta)]
  }

  /** One for the id and kind a held pointer references, zero otherwise. */
  function Holds(data: Option<Id>, kind: Kind, id: Id, k: Kind): nat {
    if data == Some(id) && kind == k then 1 else 0
  }

  /** `incref`: a null pointer changes nothing; otherwise the counter of the
      handle's kind goes up by one. */
  function Incref(counters: map<Id, Counts>, h: Handle): (r: map<Id, Counts>)
    ensures h.data.None? ==> r == counters
    ensures forall i, k :: Counter(r, i, k) == Counter(counters, i, k) + Holds(h.data, h.kind, i, k)
  {
    match h.data
    case None => counters
    case Some(id) => Bump(counters, id, h.kind, 1)
  }

  /** `decref`: a null pointer changes nothing; otherwise the counter of the
      handle's kind goes down by one. */
  function Decref(counters: map<Id, Counts>, h: Handle): (r: map<Id, Counts>)
    ensures h.data.None? ==> r == counters
    ensures forall i, k :: Counter(r, i, k) == Counter(counters, i, k) - Holds(h.data, h.kind, i, k)
  {
    match h.data
    case None => counters
    case Some(id) => Bump(counters, id, h.kind, -1)
  }

  /** `operator bool`: whether the handle holds an id. */
  predicate IsSet(h: Handle) {
    h.data.Some?
  }

  // ---------------------------------------------------------------------
  // Balance

  /** One if the slot is a live handle of kind `k` holding `id`. */
  function SlotHolds(s: Slot, id: Id, k: Kind): nat {
    if s.Live? then Holds(s.handle.data, s.handle.kind, id, k) else 0
  }

  /** The number of live handles of kind `k` holding `id`. */
  function Holders(slots: seq<Slot>, id: Id, k: Kind): nat {
    if |slots| == 0 then 0 else SlotHolds(slots[0], id, k) + Holders(slots[1..], id, k)
  }

  /** Every counter equals the references of its kind that handles and
      outside owners hold. */
  ghost predicate Balanced(w: World) {
    forall id, k :: Counter(w.counters, id, k) == Holders(w.slots, id, k) + w.raw[Ref(id, k)]
  }

  /** A handle object that is alive at slot `i`. */
  predicate LiveAt(w: World, i: nat) {
    i < |w.slots| && w.slots[i].Live?
  }

  /** A handle object placed after the others adds what it holds. */
  lemma {:induction false} HoldersAppend(slots: seq<Slot>, s: Slot, id: Id, k: Kind)
    ensures Holders(slots + [s], id, k) == Holders(slots, id, k) + SlotHolds(s, id, k)
  {
    if |slots| > 0 {
      assert (slots + [s])[1..] == slots[1..] + [s];
      HoldersAppend(slots[1..], s, id, k);
    }
  }

  /** Replacing one slot changes the holder count by what that slot held. */
  lemma {:induction false} HoldersUpdate(slots: seq<Slot>, i: nat, s: Slot, id: Id, k: Kind)
    requires i < |slots|
    ensures Holders(slots[i := s], id, k) == Holders(slots, id, k) - SlotHolds(slots[i], id, k) + SlotHolds(s, id, k)
  {
    if i > 0 {
      assert slots[i := s][1..] == slots[1..][i - 1 := s];
      HoldersUpdate(slots[1..], i - 1, s, id, k);
    }
  }

  /** In a balanced world no counter is negative. */
  lemma BalancedCountersNonNegative(w: World, id: Id, k: Kind)
    requires Balanced(w)
    ensures Counter(w.counters, id, k) >= 0
  {
  }

  // ---------------------------------------------------------------------
  // Construction

  /** The default constructor: a new handle holding null; no counter moves. */
  function DefaultConstruct(w: World, kind: Kind): (r: World)
    ensures r.slots == w.slots + [Live(Handle(kind, None))]
    ensures !IsSet(r.slots[|w.slots|].handle)
    ensures r.counters == w.counters && r.raw == w.raw
  {
    w.(slots := w.slots + [Live(Handle(kind, None))])
  }

  /** The constructor from a debug name: the foreign `new_strong` or
      `new_weak` allocates `newId`, an id no counter has seen, with one
      reference of the handle's kind, which the new handle owns. */
  function NamedConstruct(w: World, kind: Kind, newId: Id): (r: World)
    requires newId !in w.counters
    ensures r.slots == w.slots + [Live(Handle(kind, Some(newId)))]
    ensures IsSet(r.slots[|w.slots|].handle)
    ensures Counter(r.counters, newId, kind) == 1
    ensures forall i, k :: i != newId || k != kind ==> Counter(r.counters, i, k) == Counter(w.counters, i, k)
    ensures r.raw == w.raw
  {
    w.(counters := Bump(w.counters, newId, kind, 1), slots := w.slots + [Live(Handle(kind, Some(newId)))])
  }

  /** The constructor from a raw pointer: the handle adopts the reference
      its caller owned, so no counter moves. */
  function Adopt(w: World, kind: Kind, ptr: Option<Id>): (r: World)
    requires ptr.Some? ==> Ref(ptr.value, kind) in w.raw
    ensures r.slots == w.slots + [Live(Handle(kind, ptr))]
    ensures r.counters == w.counters
    ensures ptr.Some? ==> r.raw == w.raw - multiset{Ref(ptr.value, kind)}
    ensures ptr.None? ==> r.raw == w.raw
  {
    var raw := if ptr.Some? then w.raw - multiset{Ref(ptr.value, kind)} else w.raw;
    World(w.counters, w.slots + [Live(Handle(kind, ptr))], raw)
  }

  /** The converting copy constructor template: the new handle shares the
      source's pointer and takes one reference of its own kind; the source
      is untouched. This is what a copy is meant to do; a copy between
      handles of the same kind does not run it (see `MemberwiseCopy`). */
  function CopyConstruct(w: World, kind: Kind, src: nat): (r: World)
    requires LiveAt(w, src)
    ensures r.slots == w.slots + [Live(Handle(kind, w.slots[src].handle.data))]
    ensures forall i, k :: Counter(r.counters, i, k)
              == Counter(w.counters, i, k) + Holds(w.slots[src].handle.data, kind, i, k)
    ensures r.raw == w.raw
  {
    var h := Handle(kind, w.slots[src].handle.data);
    w.(counters := Incref(w.counters, h), slots := w.slots + [Live(h)])
  }

  /** The move constructor: the new handle takes the source's pointer and
      one reference of its own kind, the source gives up one reference of
      its kind and is left null. */
  function MoveConstruct(w: World, kind: Kind, src: nat): (r: World)
    requires LiveAt(w, src)
    ensures |r.slots| == |w.slots| + 1
    ensures r.slots[|w.slots|] == Live(Handle(kind, w.slots[src].handle.data))
    ensures r.slots[src] == Live(Handle(w.slots[src].handle.kind, None)) && !IsSet(r.slots[src].handle)
    ensures IsSet(r.slots[|w.slots|].handle) <==> IsSet(w.slots[src].handle)
    ensures forall j :: 0 <= j < |w.slots| && j != src ==> r.slots[j] == w.slots[j]
    ensures forall i, k :: Counter(r.counters, i, k)
              == Counter(w.counters, i, k) + Holds(w.slots[src].handle.data, kind, i, k)
                 - Holds(w.slots[src].handle.data, w.slots[src].handle.kind, i, k)
    ensures r.raw == w.raw
  {
    var old_ := w.slots[src].handle;
    var h := Handle(kind, old_.data);
    var counters := Decref(Incref(w.counters, h), old_);
    World(counters, w.slots[src := Live(old_.(data := None))] + [Live(h)], w.raw)
  }

  // ---------------------------------------------------------------------
  // Destruction, extraction, assignment

  /** The destructor: a handle holding an id gives up one reference of its
      kind; a null handle changes no counter. Its memory is freed. */
  function Destroy(w: World, i: nat): (r: World)
    requires LiveAt(w, i)
    ensures |r.slots| == |w.slots| && r.slots[i] == Free
    ensures forall j :: 0 <= j < |w.slots| && j != i ==> r.slots[j] == w.slots[j]
    ensures forall id, k :: Counter(r.counters, id, k)
              == Counter(w.counters, id, k) - Holds(w.slots[i].handle.data, w.slots[i].handle.kind, id, k)
    ensures w.slots[i].handle.data.None? ==> r.counters == w.counters
    ensures r.raw == w.raw
  {
    World(Decref(w.counters, w.slots[i].handle), w.slots[i := Free], w.raw)
  }

  /** `extract`: the handle hands its pointer, and the reference it owned,
      to the caller and is left null; no counter moves. */
  function Extract(w: World, i: nat): (r: (World, Option<Id>))
    requires LiveAt(w, i)
    ensures r.1 == w.slots[i].handle.data
    ensures r.1.Some? <==> IsSet(w.slots[i].handle)
    ensures r.0.slots == w.slots[i := Live(w.slots[i].handle.(data := None))]
    ensures !IsSet(r.0.slots[i].handle)
    ensures r.0.counters == w.counters
    ensures r.1.Some? ==> r.0.raw == w.raw + multiset{Ref(r.1.value, w.slots[i].handle.kind)}
    ensures r.1.None? ==> r.0.raw == w.raw
  {
    var h := w.slots[i].handle;
    var raw := if h.data.Some? then w.raw + multiset{Ref(h.data.value, h.kind)} else w.raw;
    (World(w.counters, w.slots[i := Live(h.(data := None))], raw), h.data)
  }

  /** The intended copy assignment. Assigning a handle to itself does
      nothing; otherwise the target first releases what it held, then shares
      the source's pointer with one reference of its own kind. The template
      `operator=` does not compute this: an assignment between handles of
      the same kind runs `MemberwiseAssign` instead, and the template's own
      body, where it can be instantiated, runs `AssignTemplateBody`. */
  function CopyAssign(w: World, dst: nat, src: nat): (r: World)
    requires LiveAt(w, dst) && LiveAt(w, src)
    ensures dst == src ==> r == w
    ensures dst != src ==> r.slots == w.slots[dst := Live(w.slots[dst].handle.(data := w.slots[src].handle.data))]
    ensures dst != src ==>
              (forall i, k :: Counter(r.counters, i, k)
                 == Counter(w.counters, i, k) - Holds(w.slots[dst].handle.data, w.slots[dst].handle.kind, i, k)
                    + Holds(w.slots[src].handle.data, w.slots[dst].handle.kind, i, k))
    ensures r.raw == w.raw
  {
    if dst == src then w
    else
      var target := w.slots[dst].handle;
      var h := target.(data := w.slots[src].handle.data);
      World(Incref(Decref(w.counters, target), h), w.slots[dst := Live(h)], w.raw)
  }

  /** Move assignment. Assigning a handle to itself does nothing; otherwise
      the target first releases what it held, then takes the source's
      pointer as the move constructor would, leaving the source null. */
  function MoveAssign(w: World, dst: nat, src: nat): (r: World)
    requires LiveAt(w, dst) && LiveAt(w, src)
    ensures dst == src ==> r == w
    ensures dst != src ==> r.slots == w.slots[dst := Live(w.slots[dst].handle.(data := w.slots[src].handle.data))]
                                             [src := Live(w.slots[src].handle.(data := None))]
    ensures dst != src ==>
              (forall i, k :: Counter(r.counters, i, k)
                 == Counter(w.counters, i, k) - Holds(w.slots[dst].handle.data, w.slots[dst].handle.kind, i, k)
                    + Holds(w.slots[src].handle.data, w.slots[dst].handle.kind, i, k)
                    - Holds(w.slots[src].handle.data, w.slots[src].handle.kind, i, k))
    ensures r.raw == w.raw
  {
    if dst == src then w
    else
      var target := w.slots[dst].handle;
      var source := w.slots[src].handle;
      var h := target.(data := source.data);
      var counters := Decref(Incref(Decref(w.counters, target), h), source);
      World(counters, w.slots[dst := Live(h)][src := Live(source.(data := None))], w.raw)
  }

  // ---------------------------------------------------------------------
  // The copies the compiler actually selects

  /* A constructor template is never a copy constructor and an `operator=`
     template is never a copy assignment operator, so the class still gets
     the implicitly declared copy constructor and copy assignment, which
     copy `data_` member by member. For an lvalue of the same kind the
     implicit non-template functions win overload resolution over the
     templates, whose parameter types are then identical. (The move
     templates do run: an rvalue binds `&&` better than `const &`, and the
     user-declared destructor suppresses the implicit move operations.) */

  /** The implicit copy constructor: the new handle of the source's kind
      copies its pointer, and no counter moves. */
  function MemberwiseCopy(w: World, src: nat): (r: World)
    requires LiveAt(w, src)
    ensures r.slots == w.slots + [w.slots[src]]
    ensures r.counters == w.counters && r.raw == w.raw
  {
    w.(slots := w.slots + [w.slots[src]])
  }

  /** The implicit copy assignment: the target's pointer is overwritten by
      the source's, nothing is released or acquired, and assigning a handle
      to itself therefore changes nothing either. Both handles have the
      same kind, as the implicit operator's parameter type demands. */
  function MemberwiseAssign(w: World, dst: nat, src: nat): (r: World)
    requires LiveAt(w, dst) && LiveAt(w, src)
    requires w.slots[dst].handle.kind == w.slots[src].handle.kind
    ensures r.slots == w.slots[dst := w.slots[src]]
    ensures dst == src ==> r == w
    ensures r.counters == w.counters && r.raw == w.raw
  {
    w.(slots := w.slots[dst := w.slots[src]])
  }

  /** The body of the copy assignment template as it can be instantiated,
      for a source of the same kind (across kinds it reads another class's
      private `data_` and does not compile). The target is destroyed, then
      rebuilt in place from the source; that placement `new` again selects
      the implicit member-wise copy constructor, so the old reference is
      released and no new one is taken. */
  function AssignTemplateBody(w: World, dst: nat, src: nat): (r: World)
    requires LiveAt(w, dst) && LiveAt(w, src)
    requires w.slots[dst].handle.kind == w.slots[src].handle.kind
    ensures dst == src ==> r == w
    ensures dst != src ==> r.slots == w.slots[dst := w.slots[src]]
    ensures dst != src ==>
              (forall i, k :: Counter(r.counters, i, k)
                 == Counter(w.counters, i, k) - Holds(w.slots[dst].handle.data, w.slots[dst].handle.kind, i, k))
    ensures r.raw == w.raw
  {
    if dst == src then w
    else
      var d := Destroy(w, dst);
      d.(slots := d.slots[dst := w.slots[src]])
  }

  // ---------------------------------------------------------------------
  // Every operation keeps the counters balanced

  lemma DefaultConstructBalanced(w: World, kind: Kind)
    requires Balanced(w)
    ensures Balanced(DefaultConstruct(w, kind))
  {
    var r := DefaultConstruct(w, kind);
    forall id, k ensures Counter(r.counters, id, k) == Holders(r.slots, id, k) + r.raw[Ref(id, k)] {
      HoldersAppend(w.slots, Live(Handle(kind, None)), id, k);
    }
  }

  lemma NamedConstructBalanced(w: World, kind: Kind, newId: Id)
    requires Balanced(w)
    requires newId !in w.counters
    ensures Balanced(NamedConstruct(w, kind, newId))
  {
    var r := NamedConstruct(w, kind, newId);
    forall id, k ensures Counter(r.counters, id, k) == Holders(r.slots, id, k) + r.raw[Ref(id, k)] {
      HoldersAppend(w.slots, Live(Handle(kind, Some(newId))), id, k);
    }
  }

  lemma AdoptBalanced(w: World, kind: Kind, ptr: Option<Id>)
    requires Balanced(w)
    requires ptr.Some? ==> Ref(ptr.value, kind) in w.raw
    ensures Balanced(Adopt(w, kind, ptr))
  {
    var r := Adopt(w, kind, ptr);
    forall id, k ensures Counter(r.counters, id, k) == Holders(r.slots, id, k) + r.raw[Ref(id, k)] {
      HoldersAppend(w.slots, Live(Handle(kind, ptr)), id, k);
    }
  }

  lemma CopyConstructBalanced(w: World, kind: Kind, src: nat)
    requires Balanced(w)
    requires LiveAt(w, src)
    ensures Balanced(CopyConstruct(w, kind, src))
  {
    var r := CopyConstruct(w, kind, src);
    forall id, k ensures Counter(r.counters, id, k) == Holders(r.slots, id, k) + r.raw[Ref(id, k)] {
      HoldersAppend(w.slots, Live(Handle(kind, w.slots[src].handle.data)), id, k);
    }
  }

  lemma MoveConstructBalanced(w: World, kind: Kind, src: nat)
    requires Balanced(w)
    requires LiveAt(w, src)
    ensures Balanced(MoveConstruct(w, kind, src))
  {
    var r := MoveConstruct(w, kind, src);
    var source := w.slots[src].handle;
    var emptied := w.slots[src := Live(source.(data := None))];
    assert r.slots == emptied + [Live(Handle(kind, source.data))];
    forall id, k ensures Counter(r.counters, id, k) == Holders(r.slots, id, k) + r.raw[Ref(id, k)] {
      HoldersUpdate(w.slots, src, Live(source.(data := None)), id, k);
      HoldersAppend(emptied, Live(Handle(kind, source.data)), id, k);
    }
  }

  lemma DestroyBalanced(w: World, i: nat)
    requires Balanced(w)
    requires LiveAt(w, i)
    ensures Balanced(Destroy(w, i))
  {
    var r := Destroy(w, i);
    assert r.slots == w.slots[i := Free];
    forall id, k ensures Counter(r.counters, id, k) == Holders(r.slots, id, k) + r.raw[Ref(id, k)] {
      HoldersUpdate(w.slots, i, Free, id, k);
    }
  }

  lemma ExtractBalanced(w: World, i: nat)
    requires Balanced(w)
    requires LiveAt(w, i)
    ensures Balanced(Extract(w, i).0)
  {
    var r := Extract(w, i).0;
    var h := w.slots[i].handle;
    forall id, k ensures Counter(r.counters, id, k) == Holders(r.slots, id, k) + r.raw[Ref(id, k)] {
      HoldersUpdate(w.slots, i, Live(h.(data := None)), id, k);
    }
  }

  lemma CopyAssignBalanced(w: World, dst: nat, src: nat)
    requires Balanced(w)
    requires LiveAt(w, dst) && LiveAt(w, src)
    ensures Balanced(CopyAssign(w, dst, src))
  {
    if dst != src {
      var r := CopyAssign(w, dst, src);
      var h := w.slots[dst].handle.(data := w.slots[src].handle.data);
      forall id, k ensures Counter(r.counters, id, k) == Holders(r.slots, id, k) + r.raw[Ref(id, k)] {
        HoldersUpdate(w.slots, dst, Live(h), id, k);
      }
    }
  }

  lemma MoveAssignBalanced(w: World, dst: nat, src: nat)
    requires Balanced(w)
    requires LiveAt(w, dst) && LiveAt(w, src)
    ensures Balanced(MoveAssign(w, dst, src))
  {
    if dst != src {
      var r := MoveAssign(w, dst, src);
      var target := w.slots[dst].handle;
      var source := w.slots[src].handle;
      var h := target.(data := source.data);
      var mid := w.slots[dst := Live(h)];
      assert mid[src] == w.slots[src];
      forall id, k ensures Counter(r.counters, id, k) == Holders(r.slots, id, k) + r.raw[Ref(id, k)] {
        HoldersUpdate(w.slots, dst, Live(h), id, k);
        HoldersUpdate(mid, src, Live(source.(data := None)), id, k);
      }
    }
  }

  // ---------------------------------------------------------------------
  // The member-wise copies break the balance

  /** Copying a handle that holds an id leaves one more holder of that id
      than its counter accounts for, so the world is no longer balanced. */
  lemma MemberwiseCopyUnbalanced(w: World, src: nat)
    requires Balanced(w)
    requires LiveAt(w, src) && IsSet(w.slots[src].handle)
    ensures var h := w.slots[src].handle;
            var r := MemberwiseCopy(w, src);
            Counter(r.counters, h.data.value, h.kind)
              == Holders(r.slots, h.data.value, h.kind) + r.raw[Ref(h.data.value, h.kind)] - 1
    ensures !Balanced(MemberwiseCopy(w, src))
  {
    var h := w.slots[src].handle;
    HoldersAppend(w.slots, w.slots[src], h.data.value, h.kind);
  }

  /** Destroying both the original and its member-wise copy takes two
      references from the id, of which only one was ever taken: the counter
      ends one below the references still owned elsewhere. */
  lemma MemberwiseCopyDoubleRelease(w: World, src: nat)
    requires Balanced(w)
    requires LiveAt(w, src) && IsSet(w.slots[src].handle)
    ensures var h := w.slots[src].handle;
            var c := MemberwiseCopy(w, src);
            LiveAt(c, |w.slots|) && LiveAt(Destroy(c, |w.slots|), src)
            && var r := Destroy(Destroy(c, |w.slots|), src);
            Counter(r.counters, h.data.value, h.kind) == Counter(w.counters, h.data.value, h.kind) - 2
            && Holders(r.slots, h.data.value, h.kind) == Holders(w.slots, h.data.value, h.kind) - 1
            && Counter(r.counters, h.data.value, h.kind)
               == Holders(r.slots, h.data.value, h.kind) + r.raw[Ref(h.data.value, h.kind)] - 1
  {
    var h := w.slots[src].handle;
    var id, k := h.data.value, h.kind;
    var c := MemberwiseCopy(w, src);
    var d := Destroy(c, |w.slots|);
    HoldersAppend(w.slots, w.slots[src], id, k);
    HoldersUpdate(c.slots, |w.slots|, Free, id, k);
    HoldersUpdate(d.slots, src, Free, id, k);
  }

  /** Assigning a handle that holds an id to a handle of the same kind that
      holds something else leaves the id with one more holder than its
      counter accounts for, and the target's old id keeps a reference that
      no one owns. */
  lemma MemberwiseAssignUnbalanced(w: World, dst: nat, src: nat)
    requires Balanced(w)
    requires LiveAt(w, dst) && LiveAt(w, src)
    requires w.slots[dst].handle.kind == w.slots[src].handle.kind
    requires IsSet(w.slots[src].handle) && w.slots[dst].handle.data != w.slots[src].handle.data
    ensures var h := w.slots[src].handle;
            var r := MemberwiseAssign(w, dst, src);
            Counter(r.counters, h.data.value, h.kind)
              == Holders(r.slots, h.data.value, h.kind) + r.raw[Ref(h.data.value, h.kind)] - 1
    ensures var t := w.slots[dst].handle;
            var r := MemberwiseAssign(w, dst, src);
            IsSet(t) ==>
              Counter(r.counters, t.data.value, t.kind)
                == Holders(r.slots, t.data.value, t.kind) + r.raw[Ref(t.data.value, t.kind)] + 1
    ensures !Balanced(MemberwiseAssign(w, dst, src))
  {
    var h := w.slots[src].handle;
    var t := w.slots[dst].handle;
    HoldersUpdate(w.slots, dst, w.slots[src], h.data.value, h.kind);
    if IsSet(t) {
      HoldersUpdate(w.slots, dst, w.slots[src], t.data.value, t.kind);
    }
  }

  /** Running the template body on a set source of the same kind leaves the
      source's id with one more holder than its counter accounts for,
      whatever the target held before, so the world is no longer
      balanced. */
  lemma AssignTemplateBodyUnbalanced(w: World, dst: nat, src: nat)
    requires Balanced(w)
    requires LiveAt(w, dst) && LiveAt(w, src) && dst != src
    requires w.slots[dst].handle.kind == w.slots[src].handle.kind
    requires IsSet(w.slots[src].handle)
    ensures var h := w.slots[src].handle;
            var r := AssignTemplateBody(w, dst, src);
            Counter(r.counters, h.data.value, h.kind)
              == Holders(r.slots, h.data.value, h.kind) + r.raw[Ref(h.data.value, h.kind)] - 1
    ensures !Balanced(AssignTemplateBody(w, dst, src))
  {
    var h := w.slots[src].handle;
    HoldersUpdate(w.slots, dst, w.slots[src], h.data.value, h.kind);
  }

  /** After `extract`, destroying the handle moves no counter: the reference
      it owned now belongs to the caller. */
  lemma ExtractThenDestroy(w: World, i: nat)
    requires LiveAt(w, i)
    ensures LiveAt(Extract(w, i).0, i)
    ensures Destroy(Extract(w, i).0, i).counters == w.counters
  {
  }
}
