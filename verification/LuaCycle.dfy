/** What the collector achieves when it is left alone: a sweep ends and leaves no dead object, and a whole cycle frees
    exactly the objects that could not be reached when it began. */
module LuaCycle {
  import opened LuaHeap
  import opened LuaMarkSteps
  import opened LuaVisit
  import opened LuaAtomicSteps
  import opened LuaReach
  import opened LuaInvariant
  import opened LuaCollector
  import opened LuaSweep
  import opened LuaStep

  function ListsLeft(p: Phase): nat {
    match p
    case SwpAllGc => 3
    case SwpFinObj => 2
    case SwpToBeFnz => 1
    case _ => 0
  }

  /** After the sweep every object there is is live. */
  lemma AllLeftLive(g: Global)
    requires Inv(g) && g.phase.SwpEnd?
    ensures forall o :: o in g.heap <==> Live(g, o)
  {
    hide LiveClosed, UpvalsOk, RootsLive, TwupsLive, MetasOk, Owned;
  }

  lemma SweepAdvances(g0: Global, g1: Global)
    requires InSweep(g0) && Advances(g0, g1)
    ensures InSweep(g1) || g1.phase.SwpEnd?
    ensures ListsLeft(g1.phase) < ListsLeft(g0.phase)
         || (g1.phase == g0.phase && !g0.sweep.AtEnd? && (g1.sweep.AtEnd? || AheadLen(g1) < AheadLen(g0)))
  {
    hide CurList;
  }

  lemma SweepWithin(g: Global, S: set<Id>)
    requires !InMark(g) && !g.phase.Pause?
    ensures Within(g, S)
  {}

  /** A sweep that is left alone ends, and frees exactly the dead objects; what the others hold stays. */
  method FinishSweep(c: Collector, L: Id)
    requires Inv(c.g) && InSweep(c.g) && Live(c.g, L)
    modifies c
    ensures Inv(c.g) && c.g.phase.SwpEnd? && HeapKept(old(c.g).heap, c.g.heap, false)
    ensures NoneJoin(old(c.g), c.g) && forall o :: o in c.g.heap <==> Live(old(c.g), o)
  {
    hide Inv, HeapKept, Live, Advances, Within, AheadLen;
    KeptSame(c.g.heap, false);
    while InSweep(c.g)
      invariant Inv(c.g) && (InSweep(c.g) || c.g.phase.SwpEnd?) && HeapKept(old(c.g).heap, c.g.heap, false)
      invariant NoneJoin(old(c.g), c.g) && forall o :: Live(c.g, o) <==> Live(old(c.g), o)
      decreases ListsLeft(c.g.phase), !c.g.sweep.AtEnd?, AheadLen(c.g)
    {
      ghost var g0 := c.g;
      SweepWithin(c.g, {});
      var ok := SingleStep(c, L, false, {});
      SweepAdvances(g0, c.g);
      InvUpvals(g0);
      KeptChain(old(c.g).heap, g0.heap, c.g.heap, false, false);
    }
    AllLeftLive(c.g);
  }

  lemma InvUpvals(g: Global)
    requires Inv(g)
    ensures UpvalsOk(g.heap)
  {
    hide UpvalsOk, PhaseOk;
  }

  // ---------------------------------------------------------------- a whole cycle

  /** The state as a cycle that starts now takes it: the gray lists are empty and the main thread is a root. */
  ghost function Afresh(g: Global): Global {
    g.(gray := [], grayagain := [], weak := [], allweak := [], ephemeron := [], roots := [Obj(g.main)] + g.roots)
  }

  /** The least set that holds the main thread, the other roots, the running thread `L`, and the objects that have a
      finalizer or wait for it, and that no strong reference and no entry of an ephemeron table with its key inside
      leads out of. Strings count as values and are always in it. */
  ghost function Reached(g: Global, L: Id): set<Id> {
    FinalMarks(Afresh(g), L)
  }

  lemma AfreshAllocated(g: Global)
    requires Inv(g) && g.phase.Pause?
    ensures AllAllocated(Afresh(g)) && Bounded(Afresh(g), g.heap.Keys)
    ensures AllMarkable(Afresh(g), g.heap.Keys, [Obj(g.main)] + g.roots)
  {
    hide Points, Lists, Bounded, AllMarkable, UpvalsOk, Base;
    CycleStart(g);
    var g1 := g.(gray := [], grayagain := [], weak := [], allweak := [], ephemeron := []);
    SameBound(g1, Afresh(g), g.heap.Keys);
    StaysMarkable(g1, Afresh(g), g.heap.Keys, [Obj(g.main)] + g.roots);
    NoLists(g1);
    NoLists(Afresh(g));
  }

  lemma NoLists(g: Global)
    requires g.gray == [] && g.grayagain == [] && g.weak == [] && g.allweak == [] && g.ephemeron == []
    ensures Lists(g) == multiset{}
  {}

  lemma ReachedCovers(g: Global, L: Id)
    requires Inv(g) && g.phase.Pause? && Live(g, L)
    ensures Covers(Afresh(g), L, Reached(g, L)) && StartCovers(g, Reached(g, L))
    ensures Covers(Afresh(g), L, g.heap.Keys)
  {
    hide Points, Owned, Bounded, LiveClosed, TwupsLive, MetasOk, StrongTo, FinalMarks, UpvalsOk, AllAllocated;
    AfreshAllocated(g);
    OwnedAllocated(g);
    assert Covers(Afresh(g), L, g.heap.Keys);
    FinalCovers(Afresh(g), L);
    StartOf(g, L, Reached(g, L));
  }

  lemma StartOf(g: Global, L: Id, S: set<Id>)
    requires Covers(Afresh(g), L, S)
    ensures StartCovers(g, S)
  {
    hide Bounded, AllMarkable;
    SameBound(Afresh(g), g.(allweak := []), S);
    assert AllMarkable(g, S, [Obj(g.main)] + g.roots) by {
      forall v | v in [Obj(g.main)] + g.roots ensures Markable(g, S, v) {
        assert v in [Obj(L)] + Afresh(g).roots;
        InAll(Afresh(g), S, [Obj(L)] + Afresh(g).roots, v);
      }
      AllIn(g, S, [Obj(g.main)] + g.roots);
    }
    forall o | o in g.tobefnz ensures Markable(g, S, Obj(o)) { assert Markable(Afresh(g), S, Obj(o)); }
  }

  /** The same without the objects that have finalizers, those aside that wait for it. */
  ghost function Plain(g: Global): Global {
    NoFinalizers(Afresh(g)).(roots := Afresh(g).roots + Refs(g.tobefnz))
  }

  function Refs(l: seq<Id>): (r: seq<Ref>)
    ensures forall o :: o in l ==> Obj(o) in r
    ensures forall v :: v in r ==> v.Obj? && v.id in l
  {
    if l == [] then [] else [Obj(l[0])] + Refs(l[1..])
  }

  ghost function Plainly(g: Global, L: Id): set<Id> {
    FinalMarks(Plain(g), L)
  }

  /** Of the objects with finalizers exactly those that could not be reached plainly come to wait for theirs. */
  ghost predicate Finalized(g0: Global, L: Id, g1: Global) {
    && (forall o :: o in g0.tobefnz ==> o in g1.tobefnz)
    && forall o :: o in g0.finobj && o in g0.heap && !g0.heap[o].Str? ==>
         && (o in g1.tobefnz <==> o !in Plainly(g0, L)) && (o in g1.finobj <==> o in Plainly(g0, L))
  }

  lemma PlainMarkable(g: Global, L: Id, S: set<Id>)
    requires Covers(Afresh(g), L, S)
    ensures Covers(Plain(g), L, S)
  {
    hide Bounded, AllMarkable;
    var g1, g2 := Afresh(g), Plain(g);
    SameBound(g1, g2, S);
    forall v | v in [Obj(L)] + g2.roots ensures Markable(g2, S, v) {
      if v in [Obj(L)] + g1.roots {
        InAll(g1, S, [Obj(L)] + g1.roots, v);
      } else {
        assert Markable(g1, S, Obj(v.id));
      }
    }
    AllIn(g2, S, [Obj(L)] + g2.roots);
  }

  lemma PlainlyIn(g: Global, L: Id)
    requires Covers(Afresh(g), L, Reached(g, L))
    ensures Plainly(g, L) <= Reached(g, L)
  {
    hide Covers, FinalMarks;
    PlainMarkable(g, L, Reached(g, L));
    LeastIn(Plain(g), L, Reached(g, L));
  }

  lemma PlainlyCovers(g: Global, L: Id)
    requires Inv(g) && g.phase.Pause? && Live(g, L)
    ensures Covers(Plain(g), L, Plainly(g, L)) && StartCovers(g, Plainly(g, L))
  {
    hide Points, Bounded, StrongTo, FinalMarks, UpvalsOk, Base, Covers, StartCovers;
    ReachedCovers(g, L);
    AfreshAllocated(g);
    PlainMarkable(g, L, g.heap.Keys);
    PlainAllocated(g);
    FinalCovers(Plain(g), L);
    PlainStart(g, L, Plainly(g, L));
  }

  lemma PlainAllocated(g: Global)
    requires AllAllocated(Afresh(g))
    ensures AllAllocated(Plain(g))
  {
    hide Lists, UpvalsOk, Points;
    SameLists(Afresh(g), Plain(g));
  }

  lemma PlainStart(g: Global, L: Id, S: set<Id>)
    requires Covers(Plain(g), L, S)
    ensures StartCovers(g, S)
  {
    hide Bounded, AllMarkable;
    var g1 := Plain(g);
    SameBound(g1, g.(allweak := []), S);
    forall v | v in [Obj(g.main)] + g.roots ensures Markable(g, S, v) {
      assert v in Afresh(g).roots && v in [Obj(L)] + g1.roots;
      InAll(g1, S, [Obj(L)] + g1.roots, v);
    }
    AllIn(g, S, [Obj(g.main)] + g.roots);
    forall o | o in g.tobefnz ensures Markable(g, S, Obj(o)) {
      assert Obj(o) in Refs(g.tobefnz) && Obj(o) in [Obj(L)] + g1.roots;
      InAll(g1, S, [Obj(L)] + g1.roots, Obj(o));
    }
  }

  /** The marking of a cycle, up to the atomic step. */
  method MarkAll(c: Collector, L: Id, ghost S: set<Id>)
    requires Inv(c.g) && c.g.phase.Pause? && Live(c.g, L) && StartCovers(c.g, S)
    modifies c
    ensures Inv(c.g) && c.g.phase.EnterAtomic? && Live(c.g, L) && Bounded(c.g, S) && MarkFrame(old(c.g), c.g)
    ensures KeysDropped(old(c.g).heap, c.g.heap) && OnTrack(c.g)
  {
    hide Inv, Live, Advances, Within, StartCovers, Bounded, OnTrack, KeysDropped, Whites, MarkedOn;
    ghost var g0 := c.g;
    PauseWithin(c.g, S);
    var ok := SingleStep(c, L, false, S);
    FirstMarked(g0, c.g, S);
    while c.g.phase.Propagate?
      invariant Inv(c.g) && Live(c.g, L) && InMark(c.g) && Bounded(c.g, S) && MarkFrame(g0, c.g)
      invariant KeysDropped(g0.heap, c.g.heap) && OnTrack(c.g)
      decreases c.g.phase.Propagate?, Whites(c.g), |c.g.gray|
    {
      ghost var g1 := c.g;
      PropagateWithin(c.g, S);
      ok := SingleStep(c, L, false, S);
      NextMarked(g0, g1, c.g, S);
    }
  }

  lemma PauseWithin(g: Global, S: set<Id>)
    requires g.phase.Pause? && StartCovers(g, S)
    ensures Within(g, S)
  {}

  lemma PropagateWithin(g: Global, S: set<Id>)
    requires g.phase.Propagate? && Bounded(g, S)
    ensures Within(g, S)
  {}

  lemma FirstMarked(g0: Global, g1: Global, S: set<Id>)
    requires g0.phase.Pause? && Advances(g0, g1) && (InMark(g1) ==> MarkedOn(g0, g1, S))
    ensures g1.phase.Propagate? && Bounded(g1, S) && MarkFrame(g0, g1) && KeysDropped(g0.heap, g1.heap)
    ensures OnTrack(g1)
  {
    hide Bounded, KeysDropped, OnTrack;
  }

  lemma NextMarked(g0: Global, g1: Global, g2: Global, S: set<Id>)
    requires g1.phase.Propagate? && Advances(g1, g2) && (InMark(g2) ==> MarkedOn(g1, g2, S))
    requires MarkFrame(g0, g1) && KeysDropped(g0.heap, g1.heap) && OnTrack(g1)
    ensures InMark(g2) && Bounded(g2, S) && MarkFrame(g0, g2) && KeysDropped(g0.heap, g2.heap)
    ensures OnTrack(g2)
    ensures g2.phase.Propagate? ==>
              Whites(g2) < Whites(g1) || (Whites(g2) == Whites(g1) && |g2.gray| < |g1.gray|)
  {
    hide Bounded, Whites, KeysDropped, OnTrack;
    DropChain(g0.heap, g1.heap, g2.heap);
  }

  lemma DropChain(h0: Heap, h1: Heap, h2: Heap)
    requires KeysDropped(h0, h1) && (KeysDropped(h1, h2))
    ensures KeysDropped(h0, h2)
  {
    forall o | o in h0 ensures BodyKeysDropped(h0[o], h2[o]) {
      assert BodyKeysDropped(h0[o], h1[o]) && BodyKeysDropped(h1[o], h2[o]);
    }
  }

  // ---------------------------------------------------------------- what the atomic step will mark then

  /** A table in `allweak` that needs no other visit keeps what it holds strongly marked. */
  lemma SettledClosed(g: Global, M: set<Id>, o: Id)
    requires AllWeakSettled(g) && o in g.allweak && o in g.heap && g.heap[o].Table?
    requires forall r :: NonWhite(g, r) ==> r in M
    ensures ClosedAt(g.heap, M, o)
  {
    var t := g.heap[o];
    if t.mode.Ephemerons? {
      forall n, r | n in t.nodes && n.val == Val(Obj(r)) ensures r in M { assert RefMarked(g, n.val.ref); }
      forall r | Obj(r) in t.arr ensures r in M { assert RefMarked(g, Obj(r)); }
    }
  }

  lemma SettledMetas(g: Global, L: Id)
    requires AllWeakSettled(g) && Covers(g, L, FinalMarks(g, L)) && g.heap.Keys == g.color.Keys
    ensures MetasReached(g, L)
  {
    hide Covers, FinalMarks;
    forall h | h in g.allweak && h in g.heap && g.heap[h].Table? ensures MetaReached(g, L, h) {
      assert RefMarked(g, g.heap[h].mt);
      if g.heap[h].mt.Obj? { MarkedCovered(g, L, g.heap[h].mt.id); }
    }
  }

  lemma MarkedCovered(g: Global, L: Id, r: Id)
    requires Covers(g, L, FinalMarks(g, L)) && g.heap.Keys == g.color.Keys && NonWhite(g, r)
    ensures r in FinalMarks(g, L)
  {
    hide FinalMarks;
    CoversBounded(g, L, FinalMarks(g, L), r);
  }

  /** What marking leaves to the atomic step is bounded as the cycle was from the beginning. */
  lemma StillCovers(g0: Global, g: Global, L: Id, S: set<Id>)
    requires Covers(Afresh(g0), L, S) && Bounded(g, S) && MarkFrame(g0, g)
    requires g.heap.Keys == g0.heap.Keys && g.color.Keys == g0.color.Keys
    ensures Covers(g, L, S)
  {
    hide Bounded, AllMarkable;
    forall v | v in [Obj(L)] + g.roots ensures Markable(g, S, v) {
      assert v in [Obj(L)] + Afresh(g0).roots;
      InAll(Afresh(g0), S, [Obj(L)] + Afresh(g0).roots, v);
    }
    AllIn(g, S, [Obj(L)] + g.roots);
    forall o | o in g.finobj || o in g.tobefnz ensures Markable(g, S, Obj(o)) {
      assert Markable(Afresh(g0), S, Obj(o));
    }
  }

  /** And the other way round: what the atomic step will mark was bounded so when the cycle began. */
  lemma CoversBack(g0: Global, g: Global, L: Id, M: set<Id>)
    requires Covers(g, L, M) && MarkFrame(g0, g) && KeysDropped(g0.heap, g.heap) && AllWhite(g0) && AllWeakSettled(g)
    requires g0.heap.Keys == g0.color.Keys == g.color.Keys && NonWhite(g, g.main)
    requires forall h :: h in g.allweak ==> h in g.heap && g.heap[h].Table?
    ensures Covers(Afresh(g0), L, M)
  {
    hide Bounded, AllMarkable, AllWeakSettled, ClosedAt;
    var g1 := Afresh(g0);
    forall o | NonWhite(g, o) ensures o in M { CoversBounded(g, L, M, o); }
    assert Bounded(g1, M) by {
      forall o | o in g1.heap ensures BoundedAt(g1, M, o) {
        assert BodyKeysDropped(g0.heap[o], g.heap[o]);
        CoversBounded(g, L, M, o);
        if o in M {
          if o in g.allweak { SettledClosed(g, M, o); }
          ClosedBack(g0.heap, g.heap, M, o);
        }
      }
      BoundedAll(g1, M);
    }
    forall v | v in [Obj(L)] + g1.roots ensures Markable(g1, M, v) {
      if v in [Obj(L)] + g.roots { InAll(g, M, [Obj(L)] + g.roots, v); }
    }
    AllIn(g1, M, [Obj(L)] + g1.roots);
    forall o | o in g1.finobj || o in g1.tobefnz ensures Markable(g1, M, Obj(o)) { assert Markable(g, M, Obj(o)); }
  }

  /** Marking that stayed where it could come plainly stayed where it could come at all. */
  lemma WiderBound(g0: Global, g: Global, L: Id)
    requires Covers(Afresh(g0), L, Reached(g0, L)) && Plainly(g0, L) <= Reached(g0, L)
    requires Bounded(g, Plainly(g0, L)) && KeysDropped(g0.heap, g.heap)
    ensures Bounded(g, Reached(g0, L))
  {
    hide ClosedAt, FinalMarks;
    DropsClear(g0.heap, g.heap);
    forall o | o in g0.heap && NonWhite(g, o) ensures o in Reached(g0, L) {
      assert o in g.heap && BoundedAt(g, Plainly(g0, L), o);
    }
    BoundedKept(Afresh(g0), g, Reached(g0, L));
  }

  /** What bounded the cycle bounds the atomic phase before it looks at finalizers. */
  lemma EnclosesOn(g0: Global, g: Global, L: Id, S: set<Id>)
    requires Covers(Plain(g0), L, S) && MarkFrame(g0, g)
    requires g.heap.Keys == g0.heap.Keys && g.color.Keys == g0.color.Keys
    ensures AllMarkable(g, S, [Obj(L)] + g.roots)
  {
    hide Bounded, AllMarkable;
    var g1 := Plain(g0);
    forall v | v in [Obj(L)] + g.roots ensures Markable(g, S, v) {
      assert v in [Obj(L)] + Afresh(g0).roots && v in [Obj(L)] + g1.roots;
      InAll(g1, S, [Obj(L)] + g1.roots, v);
    }
    AllIn(g, S, [Obj(L)] + g.roots);
  }

  lemma WaitingToo(g0: Global, g: Global, L: Id, M: set<Id>)
    requires Covers(Afresh(NoFinalizers(g0)), L, M) && Covers(NoFinalizers(g), L, M) && MarkFrame(g0, g)
    requires g0.heap.Keys == g0.color.Keys == g.color.Keys == g.heap.Keys
    requires forall o :: o in g.tobefnz ==> NonWhite(g, o)
    ensures Covers(Plain(g0), L, M)
  {
    hide Bounded, AllMarkable;
    var g1, g2 := Afresh(NoFinalizers(g0)), Plain(g0);
    SameBound(g1, g2, M);
    forall v | v in [Obj(L)] + g2.roots ensures Markable(g2, M, v) {
      if v in [Obj(L)] + g1.roots {
        InAll(g1, M, [Obj(L)] + g1.roots, v);
      } else {
        CoversBounded(NoFinalizers(g), L, M, v.id);
      }
    }
    AllIn(g2, M, [Obj(L)] + g2.roots);
  }

  lemma {:induction false} PickedIn(l: seq<Id>, W: set<Id>, o: Id)
    ensures o in Picked(l, W) <==> o in l && o in W
    ensures o in Unpicked(l, W) <==> o in l && o !in W
  {
    if l != [] {
      assert l == l[..|l| - 1] + [l[|l| - 1]];
      PickedIn(l[..|l| - 1], W, o);
    }
  }

  /** An object is in one of the lists only. */
  lemma OneList(g: Global, o: Id)
    requires OwnedOk(g)
    ensures o in g.heap <==> o in g.allgc || o in g.finobj || o in g.tobefnz
    ensures !(o in g.allgc && o in g.finobj) && !(o in g.allgc && o in g.tobefnz) && !(o in g.finobj && o in g.tobefnz)
  {
    assert Owned(g)[o] == multiset(g.allgc)[o] + multiset(g.finobj)[o] + multiset(g.tobefnz)[o];
  }

  /** From the atomic step to the end of the sweep. */
  lemma FinalizedAt(g0: Global, g1: Global, g2: Global, g3: Global, L: Id, o: Id)
    requires Separated(g1, L, g2) && FirstMarks(g1, L) == Plainly(g0, L) && MarkFrame(g0, g1)
    requires KeysDropped(g0.heap, g1.heap) && NoneJoin(g2, g3) && OwnedOk(g2) && OwnedOk(g3)
    requires o in g0.heap && o in g3.heap
    ensures o in g0.tobefnz ==> o in g3.tobefnz
    ensures o in g0.finobj && !g0.heap[o].Str? ==>
              && (o in g3.tobefnz <==> o !in Plainly(g0, L)) && (o in g3.finobj <==> o in Plainly(g0, L))
  {
    hide FirstMarks, Plainly, OwnedOk;
    var W :| Unreached(g1, L, W)
      && g2.tobefnz == g1.tobefnz + Picked(g1.finobj, W) && g2.finobj == Unpicked(g1.finobj, W);
    assert BodyKeysDropped(g0.heap[o], g1.heap[o]);
    PickedIn(g1.finobj, W, o);
    OneList(g2, o);
    OneList(g3, o);
  }

  lemma FinalizedAll(g0: Global, g1: Global, g2: Global, g3: Global, L: Id)
    requires Inv(g0) && Separated(g1, L, g2) && FirstMarks(g1, L) == Plainly(g0, L) && MarkFrame(g0, g1)
    requires KeysDropped(g0.heap, g1.heap) && NoneJoin(g2, g3) && Inv(g2) && Inv(g3)
    requires Covers(Afresh(g0), L, Reached(g0, L))
    requires forall o :: o in g3.heap <==> Live(g2, o)
    requires forall o :: o in g0.heap && !g0.heap[o].Str? ==> (o in g3.heap <==> o in Reached(g0, L))
    ensures Finalized(g0, L, g3)
  {
    hide FirstMarks, Plainly, FinalMarks, Separated, MarkFrame, KeysDropped, LiveClosed, UpvalsOk, TwupsLive, MetasOk,
      PhaseOk, Bounded, AllMarkable, NoneJoin;
    OwnedAllocated(g0);
    forall o | o in g0.tobefnz ensures o in g3.tobefnz {
      WaitsOn(g0, g1, g2, L, o);
      FinalizedAt(g0, g1, g2, g3, L, o);
    }
    forall o | o in g0.finobj && !g0.heap[o].Str?
      ensures (o in g3.tobefnz <==> o !in Plainly(g0, L)) && (o in g3.finobj <==> o in Plainly(g0, L))
    {
      assert Markable(Afresh(g0), Reached(g0, L), Obj(o));
      FinalizedAt(g0, g1, g2, g3, L, o);
    }
  }

  lemma WaitsOn(g0: Global, g1: Global, g2: Global, L: Id, o: Id)
    requires Separated(g1, L, g2) && MarkFrame(g0, g1) && RootsLive(g2) && o in g0.tobefnz
    ensures Live(g2, o)
  {
    hide FirstMarks;
  }

  lemma BoundedAll(g: Global, S: set<Id>)
    requires forall o :: o in g.heap ==> BoundedAt(g, S, o)
    ensures Bounded(g, S)
  {}

  /** When nothing came in between, the atomic step marks exactly what could be reached when the cycle began. */
  lemma SameReached(g0: Global, g: Global, L: Id)
    requires Inv(g0) && g0.phase.Pause? && Live(g0, L) && Inv(g) && g.phase.EnterAtomic? && Live(g, L)
    requires MarkFrame(g0, g) && KeysDropped(g0.heap, g.heap) && OnTrack(g) && Bounded(g, Plainly(g0, L))
    ensures FinalMarks(g, L) == Reached(g0, L) && MetasReached(g, L)
  {
    hide Bounded, Covers, AllWeakSettled, FinalMarks, MetasReached, MarkInv, KeysDropped, LiveClosed, UpvalsOk,
      RootsLive, TwupsLive, MetasOk, Owned, StartCovers, Marking, MarkFrame;
    var M, R := FinalMarks(g, L), Reached(g0, L);
    ReachedCovers(g0, L);
    PlainlyIn(g0, L);
    WiderBound(g0, g, L);
    AtomicReady(g, L);
    SettledMetas(g, L);
    DroppedKeys(g0.heap, g.heap);
    StillCovers(g0, g, L, R);
    CoversBack(g0, g, L, M);
    LeastIn(g, L, R);
    LeastIn(Afresh(g0), L, M);
    assert M <= R && R <= M;
  }

  lemma DroppedKeys(h0: Heap, h1: Heap)
    requires KeysDropped(h0, h1)
    ensures h1.Keys == h0.Keys
  {}

  lemma LeastIn(g: Global, L: Id, S: set<Id>)
    requires Covers(g, L, S)
    ensures FinalMarks(g, L) <= S
  {
    hide Covers;
  }

  /** And the objects that then get their finalizer called are exactly those that could not be reached plainly. */
  lemma SamePlainly(g0: Global, g: Global, L: Id)
    requires Inv(g0) && g0.phase.Pause? && Live(g0, L) && Inv(g) && g.phase.EnterAtomic? && Live(g, L)
    requires MarkFrame(g0, g) && KeysDropped(g0.heap, g.heap) && OnTrack(g) && Bounded(g, Plainly(g0, L))
    ensures FirstMarks(g, L) == Plainly(g0, L)
  {
    hide Bounded, Covers, NewAllWeakOk, MarkInv, KeysDropped, LiveClosed, UpvalsOk, RootsLive, TwupsLive, MetasOk,
      Owned, StartCovers, Marking, FinalMarks, AllMarkable;
    var M, P := FirstMarks(g, L), Plainly(g0, L);
    PlainlyCovers(g0, L);
    AtomicReady(g, L);
    DroppedKeys(g0.heap, g.heap);
    EnclosesOn(g0, g, L, P);
    FirstIn(g, L, P);
    SameSettled(g, NoFinalizers(g));
    CoversBack(NoFinalizers(g0), NoFinalizers(g), L, M);
    WaitingToo(g0, g, L, M);
    LeastIn(Plain(g0), L, M);
  }

  /** A cycle that the program does not interrupt: it never fails, and strings aside it leaves exactly the objects that
      could be reached when it began. Threads keep their stacks, upvalues what they hold and tables all entries but the
      cleared ones. */
  method FullCycle(c: Collector, L: Id)
    requires Inv(c.g) && c.g.phase.Pause? && Live(c.g, L)
    modifies c
    ensures Inv(c.g) && c.g.phase.SwpEnd? && HeapKept(old(c.g).heap, c.g.heap, true)
    ensures forall o :: o in old(c.g).heap && !old(c.g).heap[o].Str? ==> (o in c.g.heap <==> o in Reached(old(c.g), L))
    ensures Finalized(old(c.g), L, c.g)
  {
    hide Inv, Live, Advances, Within, StartCovers, Bounded, OnTrack, KeysDropped, Reached, FinalMarks, HeapKept,
      MetasReached, LiveExactly, Covers, StrongReachable, Plainly, Separated, Finalized;
    ghost var g0 := c.g;
    ReachedCovers(c.g, L);
    PlainlyCovers(c.g, L);
    MarkAll(c, L, Plainly(g0, L));
    ghost var g1 := c.g;
    SameReached(g0, g1, L);
    SamePlainly(g0, g1, L);
    AtomicWithin(c.g);
    var ok := SingleStep(c, L, false, {});
    ghost var g2 := c.g;
    RunningReached(g1, L);
    FinishSweep(c, L);
    CycleKept(g0, g1, g2, c.g);
    CycleExactly(g0, g1, g2, c.g, L);
    FinalizedAll(g0, g1, g2, c.g, L);
  }

  lemma RunningReached(g: Global, L: Id)
    ensures StrongReachable(g, L, L)
  {
    assert StrongPath(g, L, [L]);
  }

  lemma AtomicWithin(g: Global)
    requires g.phase.EnterAtomic?
    ensures Within(g, {})
  {}

  lemma CycleKept(g0: Global, g1: Global, g2: Global, g3: Global)
    requires KeysDropped(g0.heap, g1.heap) && HeapKept(g1.heap, g2.heap, true) && HeapKept(g2.heap, g3.heap, false)
    requires Inv(g1) && Inv(g2)
    ensures HeapKept(g0.heap, g3.heap, true)
  {
    hide Inv, KeysDropped, HeapKept;
    DroppedIsKept(g0.heap, g1.heap);
    InvUpvals(g1);
    InvUpvals(g2);
    KeptChain(g0.heap, g1.heap, g2.heap, false, true);
    KeptChain(g0.heap, g2.heap, g3.heap, true, false);
  }

  lemma CycleExactly(g0: Global, g1: Global, g2: Global, g3: Global, L: Id)
    requires KeysDropped(g0.heap, g1.heap) && FinalMarks(g1, L) == Reached(g0, L) && LiveExactly(g1, L, g2)
    requires forall o :: o in g3.heap <==> Live(g2, o)
    ensures forall o :: o in g0.heap && !g0.heap[o].Str? ==> (o in g3.heap <==> o in Reached(g0, L))
  {
    hide FinalMarks, Reached, Live;
    forall o | o in g0.heap && !g0.heap[o].Str? ensures o in g3.heap <==> o in Reached(g0, L) {
      assert BodyKeysDropped(g0.heap[o], g1.heap[o]);
    }
  }
}
