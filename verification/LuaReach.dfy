/** What the atomic phase will mark, told from the state in which it begins. */
module LuaReach {
  import opened LuaHeap
  import opened LuaMarkSteps
  import opened LuaVisit
  import opened LuaAtomicSteps

  /** A set that no marking from the roots, the running thread `L` and the objects with finalizers can leave. */
  ghost predicate Covers(g: Global, L: Id, S: set<Id>) {
    && Bounded(g, S) && AllMarkable(g, S, [Obj(L)] + g.roots)
    && forall o :: o in g.finobj || o in g.tobefnz ==> Markable(g, S, Obj(o))
  }

  /** The least such set. */
  ghost function FinalMarks(g: Global, L: Id): set<Id> {
    set x | x in g.heap && forall S: set<Id> :: Covers(g, L, S) ==> x in S
  }

  lemma FinalCovers(g: Global, L: Id)
    requires AllAllocated(g) && Covers(g, L, g.heap.Keys)
    ensures Covers(g, L, FinalMarks(g, L))
  {
    hide StrongTo, Points, Lists, Bounded, AllMarkable;
    var M := FinalMarks(g, L);
    FinalBounded(g, L);
    forall v | v in [Obj(L)] + g.roots ensures Markable(g, M, v) {
      assert Markable(g, g.heap.Keys, v) by { InAll(g, g.heap.Keys, [Obj(L)] + g.roots, v); }
      forall S: set<Id> | Covers(g, L, S) && v.Obj? ensures v.id in S { InAll(g, S, [Obj(L)] + g.roots, v); }
    }
    assert AllMarkable(g, M, [Obj(L)] + g.roots) by { AllIn(g, M, [Obj(L)] + g.roots); }
    forall o | o in g.finobj || o in g.tobefnz ensures Markable(g, M, Obj(o)) {
      assert Markable(g, g.heap.Keys, Obj(o));
      forall S: set<Id> | Covers(g, L, S) ensures o in S { assert Markable(g, S, Obj(o)); }
    }
  }

  lemma InAll(g: Global, S: set<Id>, refs: seq<Ref>, v: Ref)
    requires AllMarkable(g, S, refs) && v in refs
    ensures Markable(g, S, v)
  {}

  lemma AllIn(g: Global, S: set<Id>, refs: seq<Ref>)
    requires forall v :: v in refs ==> Markable(g, S, v)
    ensures AllMarkable(g, S, refs)
  {}

  lemma CoversBounded(g: Global, L: Id, S: set<Id>, o: Id)
    requires Covers(g, L, S) && o in g.heap
    ensures BoundedAt(g, S, o)
  {}

  lemma FinalBounded(g: Global, L: Id)
    requires AllAllocated(g)
    ensures Bounded(g, FinalMarks(g, L))
  {
    hide StrongTo, Points, Lists, Covers, AllAllocated;
    var M := FinalMarks(g, L);
    forall o | o in g.heap ensures BoundedAt(g, M, o) {
      forall S: set<Id> | Covers(g, L, S) && (g.heap[o].Str? || NonWhite(g, o)) ensures o in S {
        CoversBounded(g, L, S, o);
      }
      if o in M && o !in g.allweak {
        forall r | StrongTo(g.heap, o, r) ensures r in M {
          StrongAllocated(g, o, r);
          forall S: set<Id> | Covers(g, L, S) ensures r in S { CoversBounded(g, L, S, o); }
        }
        if g.heap[o].Table? && g.heap[o].mode.Ephemerons? {
          forall n, r | n in g.heap[o].nodes && n.val == Val(Obj(r)) && (n.key.NoRef? || n.key.id in M) ensures r in M {
            ValueAllocated(g, o, n, r);
            forall S: set<Id> | Covers(g, L, S) ensures r in S { CoversBounded(g, L, S, o); }
          }
        }
      }
    }
  }

  lemma ValueAllocated(g: Global, o: Id, n: Node, r: Id)
    requires AllAllocated(g) && o in g.heap && g.heap[o].Table? && n in g.heap[o].nodes && n.val == Val(Obj(r))
    ensures r in g.heap
  {
    assert NodeRefs(n, r);
    NodePoints(g, o, n, r);
  }

  // ---------------------------------------------------------------- what clearing leaves alone

  /** Only tables of the list changed. */
  ghost predicate OnlyIn(h0: Heap, h1: Heap, l: seq<Id>) {
    h1.Keys == h0.Keys && forall o :: o in h0 && o !in l ==> h1[o] == h0[o]
  }

  lemma OnlyStart(h: Heap, l: seq<Id>)
    ensures OnlyIn(h, h, l)
  {}

  lemma OnlyPut(h0: Heap, h: Id, b: Body)
    requires h in h0
    ensures OnlyIn(h0, h0[h := b], [h])
  {}

  lemma OnlyChain(h0: Heap, h1: Heap, h2: Heap, l: seq<Id>)
    requires OnlyIn(h0, h1, l) && OnlyIn(h1, h2, l)
    ensures OnlyIn(h0, h2, l)
  {}

  lemma OnlyWider(h0: Heap, h1: Heap, l: seq<Id>, i: nat)
    requires i < |l| && OnlyIn(h0, h1, [l[i]])
    ensures OnlyIn(h0, h1, l)
  {}

  lemma OnlyBoth(h0: Heap, h1: Heap, h2: Heap, l: seq<Id>, m: seq<Id>)
    requires OnlyIn(h0, h1, l) && OnlyIn(h1, h2, m)
    ensures OnlyIn(h0, h2, l + m)
  {}

  // ---------------------------------------------------------------- marks are closed to the end

  /** The marks at the end are closed over an earlier heap, the tables of the weak lists of that time aside. */
  ghost predicate RestClosed(g1: Global, g: Global) {
    forall o :: o in MarkedOrString(g) && o !in g1.weak && o !in g1.allweak ==>
      o in g1.heap && ClosedAt(g1.heap, MarkedOrString(g), o)
  }

  /** What is closed over a heap from which entries of weak tables were taken is closed over the heap before. */
  lemma ClosedBefore(h0: Heap, h1: Heap, l: seq<Id>, S: set<Id>, o: Id)
    requires OnlyIn(h0, h1, l) && o in h0 && o !in l && ClosedAt(h1, S, o)
    requires h0[o].OpenUp? && h0[o].th in h0 ==> h1[h0[o].th] == h0[h0[o].th]
    ensures ClosedAt(h0, S, o)
  {
    forall r | StrongTo(h0, o, r) ensures r in S { assert StrongTo(h1, o, r); }
  }

  lemma SameThread(h0: Heap, h1: Heap, th: Id)
    requires Cleared(h0, h1) && th in h0 && !h0[th].Table?
    ensures h1[th] == h0[th]
  {
    assert BodyCleared(h0[th], h1[th]);
  }

  lemma RestIsClosed(g1: Global, gc: Global, g2: Global, g3: Global)
    requires ClearedMore(g1, gc) && OnlyIn(g1.heap, gc.heap, g1.weak + g1.allweak) && UpvalsOk(g1.heap)
    requires Bounded(gc, MarkedOrString(g2)) && KeysDropped(gc.heap, g2.heap) && ClearedMore(g2, g3)
    ensures RestClosed(g1, g3)
  {
    hide ClosedAt, UpvalsOk, Cleared, Bounded, MarkedOrString;
    var M := MarkedOrString(g2);
    SameMarks(g2, g3);
    forall o | o in M && o !in g1.weak && o !in g1.allweak ensures o in g1.heap && ClosedAt(g1.heap, M, o) {
      InHeap(g2, o);
      assert BoundedAt(gc, M, o) by { AtBound(gc, M, o); }
      if g1.heap[o].OpenUp? {
        UpvalThread(g1.heap, o);
        SameThread(g1.heap, gc.heap, g1.heap[o].th);
      }
      ClosedBefore(g1.heap, gc.heap, g1.weak + g1.allweak, M, o);
    }
  }

  lemma InHeap(g: Global, o: Id)
    requires o in MarkedOrString(g)
    ensures o in g.heap
  {}

  lemma AtBound(g: Global, S: set<Id>, o: Id)
    requires Bounded(g, S) && o in g.heap
    ensures BoundedAt(g, S, o)
  {}

  lemma UpvalThread(h: Heap, uv: Id)
    requires UpvalsOk(h) && uv in h && h[uv].OpenUp?
    ensures h[uv].th in h && !h[h[uv].th].Table?
  {}

  /** Clearing marks strings only. */
  lemma SameMarks(g0: Global, g1: Global)
    requires ClearedMore(g0, g1)
    ensures MarkedOrString(g1) == MarkedOrString(g0)
  {
    forall o | o in g0.heap ensures g1.heap[o].Str? == g0.heap[o].Str?
      && (g0.heap[o].Str? || NonWhite(g1, o) == NonWhite(g0, o)) {
      assert BodyCleared(g0.heap[o], g1.heap[o]);
    }
  }

  /** Everything marked when convergence first ends, in a weak list or not, keeps its strong references marked. */
  lemma WeakClosed(g0: Global, g1: Global, M: set<Id>, o: Id)
    requires MarkInv(g1, {}) && NewAllWeakOk(g0, g1) && o in g1.heap && o !in g0.allweak
          && (o in g1.weak || o in g1.allweak)
    requires MarkedOrString(g1) <= M
    ensures ClosedAt(g1.heap, M, o)
  {
    hide Lists, Points, NewAllWeakOk, MarkedOrString;
    assert ObjOk(g1, {}, o);
    InLists(g1, o);
    forall r | StrongTo(g1.heap, o, r) ensures r in M {
      ConvergedListed(g0, g1, o, r);
    }
    if g1.heap[o].Table? && g1.heap[o].mode.Ephemerons? {
      forall n, r | n in g1.heap[o].nodes && n.val == Val(Obj(r)) ensures r in M { WeakValue(g0, g1, o, n, r); }
    }
  }

  lemma ConvergedListed(g0: Global, g: Global, o: Id, r: Id)
    requires MarkInv(g, {}) && o in g.heap && o in g.color && ListedOk(g, {}, o) && NewAllWeakOk(g0, g)
          && o !in g0.allweak
    requires (o in g.weak || o in g.allweak) && StrongTo(g.heap, o, r)
    ensures r in MarkedOrString(g)
  {
    hide Lists, ListedOk, NewAllWeakOk;
    StrongAllocated(g, o, r);
    ListedStrong(g, g0, o, r);
  }

  lemma WeakValue(g0: Global, g: Global, o: Id, n: Node, r: Id)
    requires MarkInv(g, {}) && o in g.heap && o in g.color && ListedOk(g, {}, o) && NewAllWeakOk(g0, g)
          && o !in g0.allweak
    requires (o in g.weak || o in g.allweak) && g.heap[o].Table? && g.heap[o].mode.Ephemerons? && n in g.heap[o].nodes
          && n.val == Val(Obj(r))
    ensures r in MarkedOrString(g)
  {
    hide Lists;
    ValueAllocated(g, o, n, r);
    assert ValsMarked(g, o);
    assert RefMarked(g, n.val.ref);
  }

  /** The marks at the end bound the marks from the beginning. */
  lemma BoundedThrough(g0: Global, g1: Global, g: Global)
    requires MarkInv(g1, {}) && MarkTrail(g0, g1) && RestClosed(g1, g)
    requires AtomicFrame(g1, g)
    ensures Bounded(g0, MarkedOrString(g))
  {
    hide Lists, ClosedAt, MarkInv, NewAllWeakOk, MarkedOrString, Cleared;
    var M := MarkedOrString(g);
    MarksGrow(g1, g);
    forall o | o in g0.heap ensures BoundedAt(g0, M, o) {
      assert BodyKeysDropped(g0.heap[o], g1.heap[o]);
      StartMarked(g0, g1, o);
      if o in M && o !in g0.allweak {
        if o in g1.weak || o in g1.allweak { WeakClosed(g0, g1, M, o); }
        ClosedBack(g0.heap, g1.heap, M, o);
      }
    }
  }

  lemma StartMarked(g0: Global, g1: Global, o: Id)
    requires KeysDropped(g0.heap, g1.heap) && ColorsGrow(g0, g1) && o in g0.heap
    ensures g0.heap[o].Str? || NonWhite(g0, o) ==> o in MarkedOrString(g1)
  {
    assert BodyKeysDropped(g0.heap[o], g1.heap[o]);
  }

  lemma MarksGrow(g1: Global, g: Global)
    requires AtomicFrame(g1, g)
    ensures MarkedOrString(g1) <= MarkedOrString(g)
  {
    forall o | o in g1.heap ensures g.heap[o].Str? == g1.heap[o].Str? { assert BodyCleared(g1.heap[o], g.heap[o]); }
  }

  /** Objects that only moved between the lists of finalizers leave the bound as it is. */
  lemma BoundSame(g0: Global, g1: Global, S: set<Id>)
    requires Bounded(g1, S) && g1 == g0.(finobj := g1.finobj, tobefnz := g1.tobefnz)
    ensures Bounded(g0, S)
  {
    hide ClosedAt;
    forall o | o in g0.heap ensures BoundedAt(g0, S, o) { assert BoundedAt(g1, S, o); }
  }

  lemma ResurrectBound(g0: Global, g1: Global, g: Global, S: set<Id>)
    requires g1 == g0.(finobj := g1.finobj, tobefnz := g1.tobefnz) && Visited(g1, g, {})
    requires Marking(g, {}, S) && g.gray == [] && AllSettled(g, g.ephemeron)
    ensures Bounded(g0, MarkedOrString(g))
  {
    hide Visited, MarkInv, Bounded, AllSettled, MarkedOrString;
    MarkingParts(g, {}, S);
    VisitedTrail(g1, g, {});
    Converged(g1, g);
    BoundSame(g0, g1, MarkedOrString(g));
  }

  /** What is no string is marked in `g` exactly if it is in the set told from `g0`. */
  ghost predicate ToldExactly(g0: Global, L: Id, g: Global) {
    forall o :: o in g0.heap && !g0.heap[o].Str? ==> (NonWhite(g, o) <==> o in FinalMarks(g0, L))
  }

  /** Marks within that set that no marking can leave are that set. */
  lemma FinalExactly(g0: Global, L: Id, g: Global)
    requires Bounded(g0, MarkedOrString(g)) && Cleared(g0.heap, g.heap) && g0.heap.Keys == g0.color.Keys
    requires forall o :: o in g.heap && NonWhite(g, o) ==> o in FinalMarks(g0, L)
    requires forall v :: v in [Obj(L)] + g0.roots ==> RefMarked(g, v)
    requires Covers(g0, L, g0.heap.Keys) && forall o :: o in g0.finobj || o in g0.tobefnz ==> NonWhite(g, o)
    ensures ToldExactly(g0, L, g)
  {
    hide Bounded, ClosedAt;
    var M := MarkedOrString(g);
    forall v | v in [Obj(L)] + g0.roots ensures Markable(g0, M, v) {
      assert Markable(g0, g0.heap.Keys, v) && RefMarked(g, v);
    }
    forall o | o in g0.finobj || o in g0.tobefnz ensures Markable(g0, M, Obj(o)) {
      assert Markable(g0, g0.heap.Keys, Obj(o));
    }
    assert Covers(g0, L, M);
    forall o | o in g0.heap && !g0.heap[o].Str? ensures NonWhite(g, o) <==> o in FinalMarks(g0, L) {
      assert BodyCleared(g0.heap[o], g.heap[o]);
      if o in FinalMarks(g0, L) { assert o in M; }
    }
  }

  // ---------------------------------------------------------------- which objects are to be finalized

  ghost function NoFinalizers(g: Global): Global {
    g.(finobj := [], tobefnz := [])
  }

  /** What the atomic phase marks before it looks at the objects with finalizers: the least set that no marking from
      the roots and the running thread can leave. */
  ghost function FirstMarks(g: Global, L: Id): set<Id> {
    FinalMarks(NoFinalizers(g), L)
  }

  /** Exactly the objects outside that set, strings aside. */
  ghost predicate Unreached(g: Global, L: Id, W: set<Id>) {
    forall o :: o in g.heap && !g.heap[o].Str? ==> (o in W <==> o !in FirstMarks(g, L))
  }

  /** The objects with finalizers that are not reached, in their order, join those waiting for their finalizer; the
      others stay. */
  ghost predicate Separated(g0: Global, L: Id, g1: Global) {
    exists W :: Unreached(g0, L, W)
      && g1.tobefnz == g0.tobefnz + Picked(g0.finobj, W) && g1.finobj == Unpicked(g0.finobj, W)
  }

  lemma FirstCovers(g: Global, L: Id)
    requires AllAllocated(g) && Covers(g, L, g.heap.Keys)
    ensures Covers(NoFinalizers(g), L, FirstMarks(g, L))
  {
    hide Points, Lists, StrongTo, Bounded, AllMarkable, FinalMarks, UpvalsOk;
    var g1 := NoFinalizers(g);
    assert Lists(g1) == Lists(g) by { SameLists(g, g1); }
    BoundSame(g1, g, g.heap.Keys);
    forall v | v in [Obj(L)] + g1.roots ensures Markable(g1, g.heap.Keys, v) {
      InAll(g, g.heap.Keys, [Obj(L)] + g.roots, v);
    }
    AllIn(g1, g1.heap.Keys, [Obj(L)] + g1.roots);
    FinalCovers(g1, L);
  }

  lemma FirstIn(g: Global, L: Id, S: set<Id>)
    requires Bounded(g, S) && AllMarkable(g, S, [Obj(L)] + g.roots)
    ensures FirstMarks(g, L) <= S
  {
    hide Bounded, AllMarkable;
    var g1 := NoFinalizers(g);
    BoundSame(g1, g, S);
    forall v | v in [Obj(L)] + g1.roots ensures Markable(g1, S, v) { InAll(g, S, [Obj(L)] + g.roots, v); }
    AllIn(g1, S, [Obj(L)] + g1.roots);
    assert Covers(g1, L, S);
  }

  lemma FirstBound(g: Global, L: Id)
    requires Covers(NoFinalizers(g), L, FirstMarks(g, L))
    ensures Bounded(g, FirstMarks(g, L)) && AllMarkable(g, FirstMarks(g, L), [Obj(L)] + g.roots)
  {
    hide Bounded, AllMarkable, FinalMarks;
    var g1, S := NoFinalizers(g), FirstMarks(g, L);
    BoundSame(g, g1, S);
    forall v | v in [Obj(L)] + g.roots ensures Markable(g, S, v) { InAll(g1, S, [Obj(L)] + g1.roots, v); }
    AllIn(g, S, [Obj(L)] + g.roots);
  }

  /** Marking within the smaller set stayed within the larger one. */
  lemma WiderMarking(g0: Global, g1: Global, S: set<Id>, T: set<Id>)
    requires Marking(g1, {}, S) && Bounded(g0, T) && S <= T && KeysDropped(g0.heap, g1.heap)
    requires forall h :: h in g0.allweak ==> h in g1.allweak
    ensures Marking(g1, {}, T)
  {
    hide ClosedAt, MarkInv;
    DropsClear(g0.heap, g1.heap);
    forall o | o in g0.heap && NonWhite(g1, o) ensures o in T { assert BoundedAt(g1, S, o); }
    BoundedKept(g0, g1, T);
  }

  lemma DropsClear(h0: Heap, h1: Heap)
    requires KeysDropped(h0, h1)
    ensures Cleared(h0, h1)
  {
    forall o | o in h0 ensures BodyCleared(h0[o], h1[o]) { assert BodyKeysDropped(h0[o], h1[o]); }
  }

  /** When the first convergence has ended, exactly that set is marked, strings aside. */
  lemma FirstExactly(g0: Global, g1: Global, L: Id)
    requires Covers(NoFinalizers(g0), L, FirstMarks(g0, L)) && Marking(g1, {}, FirstMarks(g0, L))
    requires Bounded(g0, MarkedOrString(g1)) && KeysDropped(g0.heap, g1.heap)
    requires forall v :: v in [Obj(L)] + g0.roots ==> RefMarked(g1, v)
    ensures forall o :: o in g0.heap && !g0.heap[o].Str? ==> (NonWhite(g1, o) <==> o in FirstMarks(g0, L))
  {
    hide Covers, FinalMarks, ClosedAt, MarkInv, AllMarkable, Bounded;
    var S, M := FirstMarks(g0, L), MarkedOrString(g1);
    FirstBound(g0, L);
    MarkingParts(g1, {}, S);
    forall v | v in [Obj(L)] + g0.roots ensures Markable(g0, M, v) {
      InAll(g0, S, [Obj(L)] + g0.roots, v);
      assert RefMarked(g1, v);
    }
    AllIn(g0, M, [Obj(L)] + g0.roots);
    FirstIn(g0, L, M);
    forall o | o in g0.heap && !g0.heap[o].Str? ensures NonWhite(g1, o) <==> o in S {
      assert BodyKeysDropped(g0.heap[o], g1.heap[o]);
      AtBound(g1, S, o);
      if o in S { assert o in M; }
    }
  }

  lemma SeparatedBy(g0: Global, g1: Global, g: Global, L: Id, W: set<Id>)
    requires forall o :: o in g0.heap && !g0.heap[o].Str? ==> (NonWhite(g1, o) <==> o in FirstMarks(g0, L))
    requires forall o :: o in g1.heap && !g1.heap[o].Str? ==> (o in W <==> !NonWhite(g1, o))
    requires KeysDropped(g0.heap, g1.heap)
    requires g.tobefnz == g0.tobefnz + Picked(g0.finobj, W) && g.finobj == Unpicked(g0.finobj, W)
    ensures Separated(g0, L, g)
  {
    hide FirstMarks;
    forall o | o in g0.heap && !g0.heap[o].Str? ensures o in W <==> o !in FirstMarks(g0, L) {
      assert BodyKeysDropped(g0.heap[o], g1.heap[o]);
    }
    assert Unreached(g0, L, W);
  }

  lemma SeparatedFlipped(g0: Global, g1: Global, g: Global, L: Id)
    requires Separated(g0, L, g1) && g.tobefnz == g1.tobefnz && g.finobj == g1.finobj
    ensures Separated(g0, L, g)
  {}
}
