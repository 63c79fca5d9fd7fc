/** `singlestep`: one step of the collector in each of its phases, and what the step keeps alive. */
module LuaStep {
  import opened LuaHeap
  import opened LuaMarkSteps
  import opened LuaVisit
  import opened LuaAtomicSteps
  import opened LuaReach
  import opened LuaExact
  import opened LuaInvariant
  import opened LuaCollector
  import opened LuaSweep

  /** With no finer bound at hand, all allocated objects bound the marks. */
  lemma UniversalBound(g: Global, pend: set<Id>)
    requires MarkInv(g, pend)
    ensures Marking(g, pend, g.heap.Keys)
  {
    hide Lists, ObjOk, UpvalsOk, StrongTo;
    var S := g.heap.Keys;
    forall o | o in g.heap ensures BoundedAt(g, S, o) {
      forall r | StrongTo(g.heap, o, r) ensures r in S { StrongAllocated(g, o, r); }
      if g.heap[o].Table? {
        forall n, r | n in g.heap[o].nodes && n.val == Val(Obj(r)) ensures r in S {
          assert NodeRefs(n, r);
          NodePoints(g, o, n, r);
        }
      }
    }
  }

  lemma OwnedAllocated(g: Global)
    requires OwnedOk(g)
    ensures forall o :: o in g.allgc || o in g.finobj || o in g.tobefnz ==> o in g.heap && o in g.color
    ensures forall o :: o in g.heap ==> o in g.allgc || o in g.finobj || o in g.tobefnz
  {
    forall o | o in g.allgc || o in g.finobj || o in g.tobefnz ensures o in g.heap { assert o in Owned(g); }
    forall o | o in g.heap ensures o in g.allgc || o in g.finobj || o in g.tobefnz { assert o in Owned(g); }
  }

  // ---------------------------------------------------------------- entering the sweep

  lemma SweepStart(g: Global)
    requires Base(g)
    ensures Sweeping(g.(phase := SwpAllGc, sweep := AtHead))
    ensures forall o :: Live(g.(phase := SwpAllGc, sweep := AtHead), o) <==> Live(g, o)
  {
    hide Points, UpvalsOk, Owned, LiveClosed, RootsLive, TwupsLive;
    var g1 := g.(phase := SwpAllGc, sweep := AtHead);
    OwnedAllocated(g);
    OwnedSame(g, g1);
    assert forall o :: Live(g1, o) <==> Live(g, o);
    RolesSame(g, g1);
    StartSwept(g1);
  }

  lemma StartSwept(g: Global)
    requires g.phase == SwpAllGc && g.sweep == AtHead
    requires forall o :: o in g.heap ==> o in g.allgc || o in g.finobj || o in g.tobefnz
    ensures SweptWhite(g)
  {
    assert CurList(g)[|CurList(g)| - AheadLen(g)..] == g.allgc;
  }

  /** `entersweep` (lgc.c 1378-1383). */
  method EnterSweep(c: Collector)
    requires Base(c.g) && c.g.sweep.AtEnd?
    modifies c
    ensures Inv(c.g) && c.g.phase == SwpAllGc && FreedDead(old(c.g), c.g) && HeapKept(old(c.g).heap, c.g.heap, false)
    ensures c.g.finobj == old(c.g).finobj && c.g.tobefnz == old(c.g).tobefnz
  {
    hide Base, Sweeping, HeapKept;
    SweepStart(c.g);
    ghost var g0 := c.g;
    c.g := c.g.(phase := SwpAllGc, sweep := AtHead);
    ghost var g1 := c.g;
    SweepToLive(c);
    StartFreed(g0, g1, c.g);
    SweepingInv(c.g);
  }

  lemma StartFreed(g0: Global, g1: Global, g2: Global)
    requires g1 == g0.(phase := SwpAllGc, sweep := AtHead) && FreedDead(g1, g2)
    ensures FreedDead(g0, g2)
  {
    assert forall o :: Live(g1, o) <==> Live(g0, o);
  }

  lemma SweepingInv(g: Global)
    requires Sweeping(g)
    ensures Inv(g)
  {
    hide Base, SweptWhite;
  }

  // ---------------------------------------------------------------- starting a cycle

  /** A set that marking from the roots and from the objects waiting for their finalizer cannot leave. */
  ghost predicate StartCovers(g: Global, S: set<Id>) {
    && Bounded(g.(allweak := []), S) && AllMarkable(g, S, [Obj(g.main)] + g.roots)
    && forall o :: o in g.tobefnz ==> Markable(g, S, Obj(o))
  }

  /** Where marking has to stay, in the phases before the atomic step. */
  ghost predicate Within(g: Global, S: set<Id>) {
    (g.phase.Pause? ==> StartCovers(g, S)) && (g.phase.Propagate? ==> Bounded(g, S))
  }

  lemma AllWithin(g: Global)
    requires Inv(g)
    ensures Within(g, g.heap.Keys)
  {
    hide MarkInv, Bounded, AllMarkable, Points, Owned, LiveClosed, UpvalsOk, RootsLive, TwupsLive, MetasOk;
    if g.phase.Pause? {
      CycleStart(g);
      assert Bounded(g.(allweak := []), g.heap.Keys) by {
        SameBound(g.(gray := [], grayagain := [], weak := [], allweak := [], ephemeron := []), g.(allweak := []),
                  g.heap.Keys);
      }
      assert AllMarkable(g, g.heap.Keys, [Obj(g.main)] + g.roots) by {
        StaysMarkable(g.(gray := [], grayagain := [], weak := [], allweak := [], ephemeron := []), g, g.heap.Keys,
                     [Obj(g.main)] + g.roots);
      }
    } else if g.phase.Propagate? {
      UniversalBound(g, Again(g));
    }
  }

  lemma SameBound(g: Global, g1: Global, S: set<Id>)
    requires Bounded(g, S) && g1.heap == g.heap && g1.color == g.color && g1.allweak == g.allweak
    ensures Bounded(g1, S)
  {
    hide ClosedAt;
    forall o | o in g1.heap ensures BoundedAt(g1, S, o) { assert BoundedAt(g, S, o); }
  }

  lemma StaysMarkable(g: Global, g1: Global, S: set<Id>, refs: seq<Ref>)
    requires AllMarkable(g, S, refs) && g1.heap == g.heap && g1.color == g.color
    ensures AllMarkable(g1, S, refs)
  {
    forall v | v in refs ensures Markable(g1, S, v) { assert Markable(g, S, v); }
  }

  lemma CycleStart(g: Global)
    requires Inv(g) && g.phase.Pause?
    ensures var g1 := g.(gray := [], grayagain := [], weak := [], allweak := [], ephemeron := []);
      Marking(g1, {}, g1.heap.Keys) && AllMarkable(g1, g1.heap.Keys, [Obj(g.main)] + g.roots)
      && forall o :: o in g1.tobefnz ==> Markable(g1, g1.heap.Keys, Obj(o))
  {
    hide Points, Owned;
    var g1 := g.(gray := [], grayagain := [], weak := [], allweak := [], ephemeron := []);
    assert Lists(g1) == multiset{};
    OwnedAllocated(g);
    assert forall o :: o in g.heap ==> Live(g, o);
    forall o | o in g1.heap ensures ObjOk(g1, {}, o) {}
    assert MarkInv(g1, {});
    UniversalBound(g1, {});
  }

  /** The state in which a cycle starts, if its roots go to the gray list. */
  function StartState(g: Global): Global {
    GrayRefs(g.(gray := [], grayagain := [], weak := [], allweak := [], ephemeron := []),
             [Obj(g.main)] + g.roots).(phase := Propagate)
  }

  predicate EasyStart(g: Global) {
    g.tobefnz == [] && AllListed(g.heap, [Obj(g.main)] + g.roots)
  }

  /** `restartcollection` (lgc.c 359-366): reset the gray lists and mark the roots. */
  method RestartCollection(c: Collector, ghost S: set<Id>)
    requires Inv(c.g) && c.g.phase.Pause? && StartCovers(c.g, S)
    modifies c
    ensures Bounded(c.g, S) && c.g.allweak == [] && MarkFrame(old(c.g), c.g)
    ensures forall o :: o in c.g.tobefnz ==> NonWhite(c.g, o)
    ensures Inv(c.g) && c.g.phase == Propagate && SameLive(old(c.g), c.g) && c.g.heap == old(c.g).heap
    ensures EasyStart(old(c.g)) ==> c.g == StartState(old(c.g))
  {
    hide Inv, Marking, Lists, MarkedMore, GrayRefs, AllListed, StartCovers, Bounded;
    ghost var g0 := c.g;
    CycleCovers(c.g, S);
    c.g := c.g.(gray := [], grayagain := [], weak := [], allweak := [], ephemeron := []);
    ghost var g1 := c.g;
    c.MarkRefs([Obj(c.g.main)] + c.g.roots, {}, S);
    ghost var g2 := c.g;
    RootMarked(g1, g2);
    FnzMarkable(g1, g2, S);
    c.MarkBeingFnz({}, S);
    MarkGrows(g2, c.g);
    MarksChain(g1, g2, c.g);
    MarkGrows(g1, c.g);
    ghost var g3 := c.g;
    MarkedFields(g1, g3);
    c.g := c.g.(phase := Propagate);
    assert c.g.(phase := g1.phase) == g3;
    CycleStarted(g0, g1, c.g, S);
    StartBounded(g1, g3, c.g, S);
  }

  lemma CycleCovers(g: Global, S: set<Id>)
    requires Inv(g) && g.phase.Pause? && StartCovers(g, S)
    ensures var g1 := g.(gray := [], grayagain := [], weak := [], allweak := [], ephemeron := []);
      Marking(g1, {}, S) && AllMarkable(g1, S, [Obj(g.main)] + g.roots)
      && forall o :: o in g1.tobefnz ==> Markable(g1, S, Obj(o))
  {
    hide MarkInv, Bounded, Inv, AllMarkable;
    var g1 := g.(gray := [], grayagain := [], weak := [], allweak := [], ephemeron := []);
    CycleStart(g);
    SameBound(g.(allweak := []), g1, S);
    StaysMarkable(g, g1, S, [Obj(g.main)] + g.roots);
  }

  lemma StartBounded(g1: Global, g3: Global, g: Global, S: set<Id>)
    requires MarkedMore(g1, g3) && Marking(g3, {}, S) && g == g3.(phase := Propagate) && g1.allweak == []
    ensures Bounded(g, S) && g.allweak == [] && MarkFrame(g1, g)
  {
    hide MarkInv, Lists, Bounded;
    SameBound(g3, g, S);
  }

  /** What marking leaves alone. */
  ghost predicate MarkFrame(g0: Global, g1: Global) {
    g1.roots == g0.roots && g1.main == g0.main && g1.finobj == g0.finobj && g1.tobefnz == g0.tobefnz
    && g1.allgc == g0.allgc && g1.cw == g0.cw
  }

  lemma MarkedFields(g0: Global, g1: Global)
    requires MarkedMore(g0, g1)
    ensures g1.phase == g0.phase && g1.main == g0.main
  {}

  /** The same objects are allocated and live. */
  ghost predicate SameLive(g0: Global, g1: Global) {
    g1.heap.Keys == g0.heap.Keys && forall o :: Live(g1, o) <==> Live(g0, o)
  }

  lemma RootMarked(g1: Global, g2: Global)
    requires MarkedMore(g1, g2) && forall v :: v in [Obj(g1.main)] + g1.roots ==> RefMarked(g2, v)
    ensures NonWhite(g2, g1.main)
  {
    hide Lists;
    assert Obj(g1.main) in [Obj(g1.main)] + g1.roots;
  }

  lemma FnzMarkable(g1: Global, g2: Global, S: set<Id>)
    requires MarkedMore(g1, g2) && forall o :: o in g1.tobefnz ==> Markable(g1, S, Obj(o))
    ensures forall o :: o in g2.tobefnz ==> Markable(g2, S, Obj(o))
  {
    hide Lists;
  }

  lemma CycleStarted(g0: Global, g1: Global, g: Global, S: set<Id>)
    requires Inv(g0) && g0.phase.Pause? && NonWhite(g, g0.main)
    requires g1 == g0.(gray := [], grayagain := [], weak := [], allweak := [], ephemeron := [])
    requires MarkedMore(g1, g.(phase := g1.phase)) && Marking(g.(phase := g1.phase), {}, S) && g.phase == Propagate
    ensures Inv(g) && SameLive(g0, g) && g.heap == g0.heap
  {
    hide Points, Owned, Lists, ObjOk, UpvalsOk, LiveClosed, RootsLive, TwupsLive, MetasOk, AllAllocated, Bounded,
      AllWhite;
    var gm := g.(phase := g1.phase);
    StartedLive(g0, g1, g, S);
    OwnedSame(g0, g);
    assert g.heap == g0.heap;
    Widened(gm, {}, Again(g), S);
    ListsFree(gm, g, Again(g));
    RolesSame(g0, g);
  }

  lemma StartedLive(g0: Global, g1: Global, g: Global, S: set<Id>)
    requires Inv(g0) && g0.phase.Pause?
          && g1 == g0.(gray := [], grayagain := [], weak := [], allweak := [], ephemeron := [])
    requires MarkedMore(g1, g.(phase := g1.phase)) && Marking(g.(phase := g1.phase), {}, S)
    ensures forall o :: Live(g, o) <==> Live(g0, o)
  {
    hide Points, Owned, Lists, ObjOk, UpvalsOk, LiveClosed, RootsLive, TwupsLive, MetasOk, AllAllocated, Bounded;
  }

  lemma RolesSame(g0: Global, g: Global)
    requires Base(g0) && g.heap == g0.heap && g.roots == g0.roots && g.main == g0.main && g.tobefnz == g0.tobefnz
          && g.twups == g0.twups
    requires forall o :: Live(g, o) <==> Live(g0, o)
    ensures LiveClosed(g) && RootsLive(g) && TwupsLive(g) && MetasOk(g)
  {
    hide Points, OwnedOk, UpvalsOk;
    MetasSame(g0, g);
  }

  lemma MetasSame(g0: Global, g: Global)
    requires MetasOk(g0) && LiveClosed(g0) && g.heap == g0.heap && forall o :: Live(g, o) <==> Live(g0, o)
    ensures MetasOk(g)
  {
    hide Points, LiveClosed, MetasOk;
    MetasStay(g0, g);
  }

  /** The invariant of marking does not depend on the phase, the roots or the lists of objects. */
  lemma ListsFree(g0: Global, g1: Global, pend: set<Id>)
    requires MarkInv(g0, pend)
    requires g1 == g0.(phase := g1.phase, allgc := g1.allgc, finobj := g1.finobj, tobefnz := g1.tobefnz,
                       roots := g1.roots)
    ensures MarkInv(g1, pend)
  {
    hide Points, Lists;
    SameLists(g0, g1);
    assert AllAllocated(g1);
    forall o | o in g1.heap ensures ObjOk(g1, pend, o) {
      assert ObjOk(g0, pend, o);
      if Done(g0, o) { DoneKept(g0, g1, o); }
    }
  }

  // ---------------------------------------------------------------- propagating

  lemma MarkBase(g0: Global, g1: Global)
    requires Inv(g0) && g0.phase.Propagate? && Visited(g0, g1, {}) && MarkInv(g1, Again(g1))
    ensures Inv(g1) && SameLive(g0, g1)
  {
    hide Visited, Owned, LiveClosed, UpvalsOk, RootsLive, TwupsLive, MetasOk, MarkInv;
    VisitedKeys(g0, g1, {});
    VisitedFields(g0, g1, {});
    VisitedPhaseOk(g0, g1);
    OwnedSame(g0, g1);
    MarkAllLive(g0);
    OwnedKept(g0, g1);
    MarkAllLive(g1);
    MarkRoles(g0, g1);
    MetasDropped(g0, g1);
    AllLiveSame(g0, g1);
  }

  lemma VisitedPhaseOk(g0: Global, g1: Global)
    requires MarkPhaseOk(g0) && g0.phase.Propagate? && Visited(g0, g1, {}) && MarkInv(g1, Again(g1))
    ensures MarkPhaseOk(g1) && g1.phase.Propagate?
  {
    hide MarkInv, Lists, KeysDropped, NewAllWeakOk;
    VisitedMore(g0, g1);
  }

  lemma AllLiveSame(g0: Global, g1: Global)
    requires g1.heap.Keys == g0.heap.Keys && (forall o :: o in g0.heap ==> Live(g0, o))
          && (forall o :: o in g1.heap ==> Live(g1, o))
    ensures SameLive(g0, g1)
  {
    hide Live;
    LiveAllocated(g0);
    LiveAllocated(g1);
  }

  lemma OwnedKept(g0: Global, g1: Global)
    requires OwnedOk(g0) && Owned(g1) == Owned(g0) && g1.heap.Keys == g0.heap.Keys && g1.color.Keys == g0.color.Keys
    ensures OwnedOk(g1)
  {
    hide Owned;
  }

  lemma MarkRoles(g0: Global, g1: Global)
    requires Base(g0) && Visited(g0, g1, {}) && MarkInv(g1, Again(g1)) && g1.heap.Keys == g0.heap.Keys
    requires SameFields(g0, g1)
    requires (forall o :: o in g0.heap ==> Live(g0, o)) && (forall o :: o in g1.heap ==> Live(g1, o))
    ensures UpvalsOk(g1.heap) && LiveClosed(g1) && RootsLive(g1) && TwupsLive(g1)
  {
    hide Lists, OwnedOk, ObjOk, Visited, UpvalsOk, LiveClosed, RootsLive, TwupsLive, Live;
    KeepDomains(g1);
    AllLiveClosed(g1);
    VisitedRoots(g0, g1);
    VisitedTwups(g0, g1);
  }

  lemma VisitedRoots(g0: Global, g1: Global)
    requires RootsLive(g0) && Visited(g0, g1, {}) && SameFields(g0, g1)
    requires g1.heap.Keys == g0.heap.Keys && forall o :: o in g1.heap ==> Live(g1, o)
    ensures RootsLive(g1)
  {
    hide Visited, Live;
    VisitedDrops(g0, g1);
    ThreadsStay(g0.heap, g1.heap);
    LiveAllocated(g0);
    LiveAllocated(g1);
    assert forall v :: v in g1.roots && v.Obj? ==> Live(g0, v.id);
  }

  lemma VisitedTwups(g0: Global, g1: Global)
    requires TwupsLive(g0) && Visited(g0, g1, {}) && g1.heap.Keys == g0.heap.Keys
    requires (forall o :: o in g0.heap ==> Live(g0, o)) && (forall o :: o in g1.heap ==> Live(g1, o))
    ensures TwupsLive(g1)
  {
    hide Visited, Live;
    VisitedDrops(g0, g1);
    ThreadsStay(g0.heap, g1.heap);
    ThreadsBack(g0.heap, g1.heap);
    VisitedMore(g0, g1);
    LiveAllocated(g0);
    LiveAllocated(g1);
  }

  lemma LiveAllocated(g: Global)
    ensures forall o :: Live(g, o) ==> o in g.heap && o in g.color
  {}

  lemma VisitedDrops(g0: Global, g1: Global)
    requires Visited(g0, g1, {})
    ensures KeysDropped(g0.heap, g1.heap)
  {}

  lemma AllLiveClosed(g: Global)
    requires AllAllocated(g) && forall o :: o in g.heap ==> Live(g, o)
    ensures LiveClosed(g)
  {
    hide Points, Lists, UpvalsOk;
  }

  lemma ThreadsBack(h0: Heap, h1: Heap)
    requires KeysDropped(h0, h1)
    ensures forall o :: o in h1 && h1[o].Thread? ==> o in h0 && h1[o] == h0[o]
  {
    forall o | o in h1 && h1[o].Thread? ensures o in h0 && h1[o] == h0[o] { assert BodyKeysDropped(h0[o], h1[o]); }
  }

  lemma MetasDropped(g0: Global, g1: Global)
    requires Base(g0) && Visited(g0, g1, {}) && (forall o :: o in g0.heap ==> Live(g0, o))
    ensures MetasOk(g1)
  {
    hide Points, LiveClosed, OwnedOk, UpvalsOk, RootsLive, TwupsLive, MetasOk, Visited;
    VisitedDrops(g0, g1);
    LiveAllocated(g1);
    forall o | o in g0.heap ensures BodyKeysDropped(g0.heap[o], g1.heap[o]) {}
    MetasStay(g0, g1);
  }

  lemma VisitedMore(g0: Global, g1: Global)
    requires Visited(g0, g1, {})
    ensures g1 == g0.(heap := g1.heap, color := g1.color, gray := g1.gray, grayagain := g1.grayagain,
                      weak := g1.weak, allweak := g1.allweak, ephemeron := g1.ephemeron, twups := g1.twups)
    ensures forall o :: NonWhite(g0, o) ==> NonWhite(g1, o)
    ensures forall o :: o in g0.twups ==> o in g1.twups
    ensures forall o :: o in g1.twups ==> o in g0.twups || (NonWhite(g1, o) && o in g1.heap && g1.heap[o].Thread?)
  {
    hide Lists;
  }

  /** Visits outside the atomic phase put nothing into `weak` and `ephemeron`. */
  lemma AgainWidens(g0: Global, g1: Global, S: set<Id>)
    requires Marking(g0, Again(g0), S) && Visited(g0, g1, {}) && g0.gray != [] && g1.phase.Propagate?
    requires Marking(g1, PutOff(g1, Again(g0), g0.gray[0]), S)
    ensures MarkInv(g1, Again(g1))
  {
    hide Lists, Points, ObjOk, Bounded;
    GrayUpsFree(g0, Again(g0), S);
    UpsStay(g0, g1, GrayUps(g0));
    assert GrayUps(g0) <= GrayUps(g1);
    assert PutOff(g1, Again(g0), g0.gray[0]) <= Again(g1);
    Widened(g1, PutOff(g1, Again(g0), g0.gray[0]), Again(g1), S);
  }

  // ---------------------------------------------------------------- the atomic step

  /** Objects strongly reachable from the roots of the atomic phase: each object on the way, before
      the last, references the next one strongly and is not a table that was put into `allweak`. */
  ghost predicate StrongPath(g: Global, L: Id, path: seq<Id>) {
    && path != [] && (path[0] == L || path[0] == g.main || Obj(path[0]) in g.roots)
    && forall i :: 0 <= i < |path| - 1 ==>
         path[i] in g.heap && path[i] !in g.allweak && StrongTo(g.heap, path[i], path[i + 1])
  }

  ghost predicate StrongReachable(g: Global, L: Id, o: Id) {
    exists path :: StrongPath(g, L, path) && path[|path| - 1] == o
  }

  lemma {:induction false} StrongPathKept(g: Global, L: Id, path: seq<Id>, M: set<Id>, k: nat)
    requires StrongPath(g, L, path) && k < |path| && L in M && g.main in M
    requires forall v :: v in g.roots && v.Obj? ==> v.id in M
    requires forall o :: o in M && o !in g.allweak ==> o in g.heap && ClosedAt(g.heap, M, o)
    ensures path[k] in M
  {
    hide StrongTo;
    if k > 0 {
      StrongPathKept(g, L, path, M, k - 1);
      assert StrongTo(g.heap, path[k - 1], path[k]);
    } else if path[0] != L && path[0] != g.main {
      assert Obj(path[0]) in g.roots;
    }
  }

  /** What the atomic phase leaves, as its contract states it. */
  ghost predicate AtomicLeft(g0: Global, g1: Global) {
    && AtomicFrame(g0, g1.(cw := g0.cw)) && g1.cw == !g0.cw && TwupsMarked(g1)
    && MarkInv(g1.(cw := g0.cw), {}) && g1.gray == []
    && multiset(g1.tobefnz) + multiset(g1.finobj) == multiset(g0.tobefnz) + multiset(g0.finobj)
    && (forall o :: o in g1.finobj || o in g1.tobefnz ==> NonWhite(g1, o))
    && (forall v :: v in g0.roots ==> RefMarked(g1, v))
  }

  lemma LeftLive(g0: Global, g1: Global)
    requires AtomicLeft(g0, g1)
    ensures forall o :: Live(g1, o) ==> NonWhite(g1, o)
    ensures forall o :: NonWhite(g1, o) ==> Live(g1, o)
    ensures UpvalsOk(g1.heap) && g1.heap.Keys == g0.heap.Keys && g1.heap.Keys == g1.color.Keys
    ensures forall th :: th in g1.heap && NonWhite(g1, th) && g1.heap[th].Thread? && g1.heap[th].open != [] ==>
              th in g1.twups
  {
    hide Lists, Points, MarkedClosed, ObjOk, AllAllocated, UpvalsOk, Cleared, TwupsMarked;
    var gm := g1.(cw := g0.cw);
    KeepDomains(gm);
    LeftDomains(g0, gm);
    forall o | o in g1.heap
      ensures g1.color[o].White? ==> g1.color[o] == White(g0.cw)
      ensures NonWhite(g1, o) && g1.heap[o].Thread? && g1.heap[o].open != [] ==> o in g1.twups
    {
      assert ObjOk(gm, {}, o);
      ObjLeft(gm, o);
    }
  }

  lemma LeftDomains(g0: Global, gm: Global)
    requires AtomicFrame(g0, gm) && AllAllocated(gm)
    ensures UpvalsOk(gm.heap) && gm.heap.Keys == g0.heap.Keys == gm.color.Keys
  {
    hide Lists, Points, UpvalsOk;
  }

  /** With no visit due, a white object has the current white, and a marked thread with open upvalues is in `twups`. */
  lemma ObjLeft(g: Global, o: Id)
    requires o in g.heap && o in g.color && ObjOk(g, {}, o) && g.gray == []
    ensures g.color[o].White? ==> g.color[o] == White(g.cw)
    ensures NonWhite(g, o) && g.heap[o].Thread? && g.heap[o].open != [] ==> o in g.twups
  {
    hide Lists, Points, ListedOk;
  }

  lemma AtomicBase(g0: Global, g1: Global)
    requires Inv(g0) && g0.phase.EnterAtomic? && AtomicLeft(g0, g1) && MarkedClosed(g1)
    ensures Base(g1) && g1.sweep.AtEnd?
  {
    hide Lists, Points, MarkInv, Live, Cleared, MetasOk;
    LeftLive(g0, g1);
    LeftOwned(g0, g1);
    LeftClosed(g1);
    LeftMain(g0, g1);
    LeftMetas(g0, g1);
  }

  lemma LeftMetas(g0: Global, g1: Global)
    requires Inv(g0) && g0.phase.EnterAtomic? && AtomicLeft(g0, g1)
    ensures MetasOk(g1)
  {
    hide Lists, Points, ObjOk, MarkedClosed, OwnedOk, UpvalsOk, LiveClosed, RootsLive, TwupsLive, TwupsMarked, MetasOk;
    MarkDomains0(g0);
    MarkAllLive(g0);
    var gm := g1.(cw := g0.cw);
    forall o | o in g0.heap ensures BodyCleared(g0.heap[o], gm.heap[o]) {}
    assert TablesStay(g0, g1);
    MetasStay(g0, g1);
  }

  lemma MarkDomains0(g: Global)
    requires Inv(g) && g.phase.EnterAtomic?
    ensures g.heap.Keys == g.color.Keys && MarkInv(g, Again(g))
  {
    hide MarkInv, UpvalsOk, LiveClosed, RootsLive, TwupsLive, MetasOk, Owned;
  }

  lemma LeftOwned(g0: Global, g1: Global)
    requires OwnedOk(g0) && AtomicLeft(g0, g1) && g1.heap.Keys == g0.heap.Keys && g1.heap.Keys == g1.color.Keys
    ensures OwnedOk(g1)
  {
    hide Lists, Points, MarkInv, MarkedClosed, Cleared;
    assert g1.allgc == g0.allgc;
    assert Owned(g1) == multiset(g1.allgc) + (multiset(g1.tobefnz) + multiset(g1.finobj));
    assert Owned(g0) == multiset(g0.allgc) + (multiset(g0.tobefnz) + multiset(g0.finobj));
  }

  lemma LeftClosed(g: Global)
    requires MarkedClosed(g) && g.heap.Keys == g.color.Keys
    requires forall o :: Live(g, o) ==> NonWhite(g, o)
    requires forall o :: NonWhite(g, o) ==> Live(g, o)
    ensures LiveClosed(g)
  {
    hide Points, Live, NonWhite;
    forall o, r | o in g.heap && Live(g, o) && Points(g.heap, o, r) ensures Live(g, r) {
      assert NonWhite(g, o);
      assert Done(g, o);
      assert NonWhite(g, r);
    }
  }

  lemma LeftMain(g0: Global, g1: Global)
    requires Inv(g0) && g0.phase.EnterAtomic? && AtomicLeft(g0, g1)
    ensures g1.main == g0.main && NonWhite(g1, g1.main) && g1.main in g1.heap && g1.heap[g1.main].Thread?
          && g1.sweep.AtEnd? && g1.roots == g0.roots
  {
    hide Lists, Points, MarkInv, MarkedClosed, OwnedOk, UpvalsOk, LiveClosed, TwupsLive;
    var gm := g1.(cw := g0.cw);
    assert NonWhite(gm, g0.main);
    assert BodyCleared(g0.heap[g0.main], gm.heap[g0.main]);
  }

  lemma AtomicReady(g: Global, L: Id)
    requires Inv(g) && g.phase.EnterAtomic? && Live(g, L)
    ensures Marking(g, Again(g), FinalMarks(g, L)) && TwupsAll(g) && Covers(g, L, FinalMarks(g, L))
          && Covers(g, L, g.heap.Keys) && Covers(NoFinalizers(g), L, FirstMarks(g, L))
    ensures NonWhite(g, g.main) && g.main in g.heap && forall h :: h in g.allweak ==>
              NonWhite(g, h) && h in g.heap && g.heap[h].Table?
  {
    hide Lists, Points, ObjOk, Owned, LiveClosed, UpvalsOk, FinalMarks, FirstMarks, Bounded, MetasOk;
    UniversalBound(g, Again(g));
    MarkAllLive(g);
    OwnedAllocated(g);
    assert Covers(g, L, g.heap.Keys);
    FinalCovers(g, L);
    FirstCovers(g, L);
    AllWeakGray(g);
  }

  lemma AllWeakGray(g: Global)
    requires MarkInv(g, Again(g))
    ensures forall h :: h in g.allweak ==> NonWhite(g, h) && h in g.heap && g.heap[h].Table?
  {
    hide Lists, Points;
    KeepDomains(g);
    forall h | h in g.allweak ensures NonWhite(g, h) && h in g.heap && g.heap[h].Table? {
      InLists(g, h);
      assert ObjOk(g, Again(g), h);
    }
  }

  /** The metatable of the table, if it has one, is among the objects that the atomic phase will mark. */
  ghost predicate MetaReached(g: Global, L: Id, h: Id)
    requires h in g.heap && g.heap[h].Table?
  {
    g.heap[h].mt.Obj? ==> g.heap[h].mt.id in FinalMarks(g, L)
  }

  /** So it is for every table that was put into `allweak` before. */
  ghost predicate MetasReached(g: Global, L: Id) {
    forall h :: h in g.allweak && h in g.heap && g.heap[h].Table? ==> MetaReached(g, L, h)
  }

  /** No table that the program can still get at has lost its metatable. */
  ghost predicate AccessibleReached(g0: Global, L: Id, g: Global) {
    forall h :: h in g0.allweak && h in g0.heap && g0.heap[h].Table? && Accessible(g, h) ==> MetaReached(g0, L, h)
  }

  /** The atomic phase, with the table list that it does not visit again. When it has ended, exactly the set told
      beforehand is marked, strings aside; no surviving object refers to a dead one if and only if all metatables of
      that list are in this set; and the program can reach no dead object if and only if this holds for the tables of
      the list that it can reach. */
  method AtomicEnd(c: Collector, L: Id) returns (ok: bool, ghost M: set<Id>)
    requires Inv(c.g) && c.g.phase.EnterAtomic? && Live(c.g, L)
    modifies c
    ensures ok <==> MetasReached(old(c.g), L)
    ensures ToldExactly(old(c.g), L, c.g) && LiveExactly(old(c.g), L, c.g) && Separated(old(c.g), L, c.g)
    ensures LiveClosed(c.g) <==> MetasReached(old(c.g), L)
    ensures Safe(c.g) <==> AccessibleReached(old(c.g), L, c.g)
    ensures ok ==> Base(c.g) && c.g.sweep.AtEnd?
    ensures Cleared(old(c.g).heap, c.g.heap) && c.g.main == old(c.g).main && c.g.roots == old(c.g).roots
    ensures forall o :: StrongReachable(old(c.g), L, o) ==> Live(c.g, o)
  {
    hide Inv, Marking, TwupsAll, AtomicFrame, MarkedClosed, TwupsMarked, LostOnly, MetatablesMarked, StrongReachable,
      StrongPath, MarkInv, Base, FinalMarks, LiveClosed, MetasReached, Safe, AccessibleReached, ClosedBut, Kept,
      ClosedAt, Bounded, MarkedOrString, Live, Cleared, ToldExactly, LiveExactly, Separated, FirstMarks;
    ghost var g0 := c.g;
    AtomicReady(c.g, L);
    var origall := c.g.allweak;
    M := c.AtomicPhase(L, FinalMarks(c.g, L));
    ghost var g1 := c.g;
    ok := MetatablesMarked(c.g, origall);
    LeftCleared(g0, g1);
    LeftMarks(g0, g1);
    LeftReached(g0, g1, L);
    MarkedIsLive(g0, L, g1);
    LeftExactly(g0, g1, L);
    LeftSafe(g0, g1, L);
    if ok { AtomicBase(g0, g1); }
    ReachedKept(g0, g1, L, M);
  }

  lemma MarkedIsLive(g0: Global, L: Id, g1: Global)
    requires AtomicLeft(g0, g1) && ToldExactly(g0, L, g1)
    ensures LiveExactly(g0, L, g1)
  {
    hide FinalMarks, Live, AtomicLeft;
    LeftLive(g0, g1);
  }

  /** A table has lost its metatable exactly if it was not told beforehand. */
  lemma LeftReached(g0: Global, g1: Global, L: Id)
    requires Inv(g0) && g0.phase.EnterAtomic? && AtomicLeft(g0, g1) && Bounded(g0, MarkedOrString(g1))
    requires Covers(g0, L, g0.heap.Keys) && forall v :: v in [Obj(L)] + g0.roots ==> RefMarked(g1, v)
    requires forall o :: o in g1.heap && NonWhite(g1, o) ==> o in FinalMarks(g0, L)
    ensures ToldExactly(g0, L, g1)
    ensures forall h :: h in g0.heap && g0.heap[h].Table? ==>
              h in g1.heap && g1.heap[h].Table? && g1.heap[h].mt == g0.heap[h].mt
                && (MetaReached(g0, L, h) <==> RefMarked(g1, g1.heap[h].mt))
  {
    hide Lists, Points, ObjOk, AllAllocated, TwupsMarked, Bounded, FinalMarks, MarkedOrString, OwnedOk, UpvalsOk,
      LiveClosed,
      RootsLive, TwupsLive, BodyCleared;
    MarkDomains0(g0);
    MarkAllLive(g0);
    FnzLeft(g0, g1);
    LeftCleared(g0, g1);
    FinalExactly(g0, L, g1);
    forall h | h in g0.heap && g0.heap[h].Table?
      ensures h in g1.heap && g1.heap[h].Table? && g1.heap[h].mt == g0.heap[h].mt
      ensures MetaReached(g0, L, h) <==> RefMarked(g1, g1.heap[h].mt)
    {
      TableCleared1(g0.heap, g1.heap, h);
      assert MetaKind(g0.heap, g0.heap[h]);
    }
  }

  lemma LeftCleared(g0: Global, g1: Global)
    requires AtomicLeft(g0, g1)
    ensures Cleared(g0.heap, g1.heap)
  {
    hide Lists, MarkInv, TwupsMarked, Cleared;
  }

  lemma TableCleared1(h0: Heap, h1: Heap, h: Id)
    requires Cleared(h0, h1) && h in h0 && h0[h].Table?
    ensures h1[h].Table? && h1[h].mt == h0[h].mt
  {
    assert BodyCleared(h0[h], h1[h]);
  }

  lemma FnzLeft(g0: Global, g1: Global)
    requires AtomicLeft(g0, g1)
    ensures forall o :: o in g0.finobj || o in g0.tobefnz ==> NonWhite(g1, o)
  {
    hide Lists, MarkInv, TwupsMarked, AtomicFrame;
    forall o | o in g0.finobj || o in g0.tobefnz ensures NonWhite(g1, o) {
      assert o in multiset(g0.tobefnz) + multiset(g0.finobj);
      assert o in multiset(g1.tobefnz) + multiset(g1.finobj);
    }
  }

  /** What the list of tables has to do with the references of surviving objects. */
  lemma LeftExactly(g0: Global, g1: Global, L: Id)
    requires AtomicLeft(g0, g1) && (MarkedClosed(g1) <==> MetatablesMarked(g1, g0.allweak))
    requires forall h :: h in g0.allweak ==> NonWhite(g0, h) && h in g0.heap && g0.heap[h].Table?
    requires forall h :: h in g0.heap && g0.heap[h].Table? ==>
              h in g1.heap && g1.heap[h].Table? && g1.heap[h].mt == g0.heap[h].mt
                && (MetaReached(g0, L, h) <==> RefMarked(g1, g1.heap[h].mt))
    ensures MetatablesMarked(g1, g0.allweak) <==> MetasReached(g0, L)
    ensures LiveClosed(g1) <==> MetasReached(g0, L)
  {
    hide Lists, Points, MetaReached, AtomicLeft, MarkedClosed, Live;
    LeftLive(g0, g1);
    LeftMarks(g0, g1);
    if MetatablesMarked(g1, g0.allweak) {
      LeftClosed(g1);
    } else {
      var h :| h in g0.allweak && h in g1.heap && g1.heap[h].Table? && !RefMarked(g1, g1.heap[h].mt);
      assert Live(g1, h);
      MetaPoints(g1.heap, h);
      assert !Live(g1, g1.heap[h].mt.id);
    }
  }

  lemma LeftMarks(g0: Global, g1: Global)
    requires AtomicLeft(g0, g1)
    ensures forall o :: NonWhite(g0, o) ==> NonWhite(g1, o)
    ensures g1.heap.Keys == g0.heap.Keys && g1.roots == g0.roots && g1.main == g0.main
  {
    hide Lists, MarkInv, TwupsMarked, Cleared;
    var gm := g1.(cw := g0.cw);
    forall o | NonWhite(g0, o) ensures NonWhite(g1, o) { assert NonWhite(gm, o); }
    assert Cleared(g0.heap, gm.heap);
    ClearedDomain(g0.heap, gm.heap);
  }

  lemma ClearedDomain(h0: Heap, h1: Heap)
    requires Cleared(h0, h1)
    ensures h1.Keys == h0.Keys
  {}

  lemma MetaPoints(h: Heap, o: Id)
    requires o in h && h[o].Table? && h[o].mt.Obj?
    ensures Points(h, o, h[o].mt.id)
  {}

  /** What it has to do with what the program can reach. */
  lemma LeftSafe(g0: Global, g1: Global, L: Id)
    requires AtomicLeft(g0, g1) && ClosedBut(g1, g0.allweak) && NonWhite(g0, g0.main)
    requires forall h :: h in g0.allweak ==> NonWhite(g0, h) && h in g0.heap && g0.heap[h].Table?
    requires forall h :: h in g0.heap && g0.heap[h].Table? ==>
              h in g1.heap && g1.heap[h].Table? && g1.heap[h].mt == g0.heap[h].mt
                && (MetaReached(g0, L, h) <==> RefMarked(g1, g1.heap[h].mt))
    ensures Safe(g1) <==> AccessibleReached(g0, L, g1)
  {
    hide Lists, Points, MetaReached, AtomicLeft, Live, Accessible, ClosedBut;
    LeftLive(g0, g1);
    LeftMarks(g0, g1);
    if AccessibleReached(g0, L, g1) {
      forall o | Accessible(g1, o) ensures o in g1.heap && !Dead(g1, o) {
        AccessibleMarked(g0, g1, L, o);
        LiveNotDead(g1, o);
      }
    }
    if Safe(g1) {
      forall h | h in g0.allweak && h in g0.heap && g0.heap[h].Table? && Accessible(g1, h)
        ensures MetaReached(g0, L, h) {
        if g1.heap[h].mt.Obj? {
          MetaPoints(g1.heap, h);
          AccessibleNext(g1, h, g1.heap[h].mt.id);
          NotDeadLive(g1, g1.heap[h].mt.id);
        }
      }
    }
  }

  lemma LiveNotDead(g: Global, o: Id)
    requires Live(g, o)
    ensures o in g.heap && !Dead(g, o)
  {}

  lemma NotDeadLive(g: Global, o: Id)
    requires o in g.heap && !Dead(g, o) && g.heap.Keys == g.color.Keys
    ensures Live(g, o)
  {}

  lemma AccessibleNext(g: Global, o: Id, r: Id)
    requires Accessible(g, o) && o in g.heap && Points(g.heap, o, r)
    ensures Accessible(g, r)
  {
    hide Points;
    var path :| ValidPath(g, path) && path[|path| - 1] == o;
    var longer := path + [r];
    assert ValidPath(g, longer) && longer[|longer| - 1] == r;
  }

  lemma AccessibleMarked(g0: Global, g1: Global, L: Id, o: Id)
    requires AtomicLeft(g0, g1) && ClosedBut(g1, g0.allweak) && NonWhite(g0, g0.main) && AccessibleReached(g0, L, g1)
    requires forall h :: h in g0.allweak ==> NonWhite(g0, h) && h in g0.heap && g0.heap[h].Table?
    requires forall h :: h in g0.heap && g0.heap[h].Table? ==>
              h in g1.heap && g1.heap[h].Table? && g1.heap[h].mt == g0.heap[h].mt
                && (MetaReached(g0, L, h) <==> RefMarked(g1, g1.heap[h].mt))
    requires Accessible(g1, o)
    ensures NonWhite(g1, o)
  {
    hide Points, AtomicLeft, ClosedBut, AccessibleReached, MetaReached;
    var path :| ValidPath(g1, path) && path[|path| - 1] == o;
    PathMarked(g0, g1, L, path, |path| - 1);
  }

  lemma {:induction false} PathMarked(g0: Global, g1: Global, L: Id, path: seq<Id>, k: nat)
    requires AtomicLeft(g0, g1) && ClosedBut(g1, g0.allweak) && NonWhite(g0, g0.main) && AccessibleReached(g0, L, g1)
    requires forall h :: h in g0.allweak ==> NonWhite(g0, h) && h in g0.heap && g0.heap[h].Table?
    requires forall h :: h in g0.heap && g0.heap[h].Table? ==>
              h in g1.heap && g1.heap[h].Table? && g1.heap[h].mt == g0.heap[h].mt
                && (MetaReached(g0, L, h) <==> RefMarked(g1, g1.heap[h].mt))
    requires ValidPath(g1, path) && k < |path|
    ensures NonWhite(g1, path[k])
  {
    hide Points, Lists, MetaReached, AtomicFrame, MarkInv, TwupsMarked;
    LeftMarks(g0, g1);
    if k > 0 {
      PathMarked(g0, g1, L, path, k - 1);
      var h := path[k - 1];
      PrefixAccessible(g1, path, k - 1);
      assert !MetaLost(g1, g0.allweak, h);
      assert Points(g1.heap, h, path[k]);
    } else {
      RootLeft(g0, g1, path[0]);
    }
  }

  lemma RootLeft(g0: Global, g1: Global, o: Id)
    requires AtomicLeft(g0, g1) && NonWhite(g0, g0.main) && IsRoot(g1, o)
    ensures NonWhite(g1, o)
  {
    hide Lists, MarkInv, TwupsMarked, AtomicFrame;
    LeftMarks(g0, g1);
    if o != g1.main && Obj(o) in g1.roots { assert RefMarked(g1, Obj(o)); }
  }

  lemma PrefixAccessible(g: Global, path: seq<Id>, k: nat)
    requires ValidPath(g, path) && k < |path|
    ensures Accessible(g, path[k])
  {
    hide Points;
    var p := path[..k + 1];
    assert ValidPath(g, p) && p[|p| - 1] == path[k];
  }

  /** What an atomic step that goes wrong leaves: a surviving object refers to a dead one; whether the program can reach
      one depends on the tables that it can still get at. The heap only lost entries of tables. */
  ghost predicate Lost(g0: Global, L: Id, g1: Global) {
    && !LiveClosed(g1) && (Safe(g1) <==> AccessibleReached(g0, L, g1))
    && Cleared(g0.heap, g1.heap) && g1.main == g0.main && g1.roots == g0.roots
  }

  /** The atomic step (lgc.c 1492-1497). It goes wrong, and then is not followed further, exactly if a table that was
      put into `allweak` has a metatable that the phase does not reach. Otherwise everything strongly reachable when it
      begins stays alive. */
  method AtomicStep(c: Collector, L: Id) returns (ok: bool)
    requires Inv(c.g) && c.g.phase.EnterAtomic? && Live(c.g, L)
    modifies c
    ensures ok <==> MetasReached(old(c.g), L)
    ensures ok ==> Inv(c.g) && c.g.phase.SwpAllGc? && forall o :: StrongReachable(old(c.g), L, o) ==> Live(c.g, o)
    ensures ok ==> HeapKept(old(c.g).heap, c.g.heap, true) && LiveExactly(old(c.g), L, c.g)
    ensures ok ==> Separated(old(c.g), L, c.g)
    ensures !ok ==> Lost(old(c.g), L, c.g)
  {
    hide Inv, StrongReachable, Base, LiveClosed, MetasReached, Safe, AccessibleReached, Cleared, HeapKept, LiveExactly,
      Separated;
    ghost var g0 := c.g;
    ghost var M;
    ok, M := AtomicEnd(c, L);
    if ok {
      ghost var g1 := c.g;
      EnterSweep(c);
      ghost var g2 := c.g;
      ClearedIsKept(g0.heap, g1.heap);
      BaseUpvals(g1);
      KeptChain(g0.heap, g1.heap, g2.heap, true, false);
      ExactlyOn(g0, L, g1, g2);
      SeparatedFlipped(g0, g1, g2, L);
      forall o | StrongReachable(g0, L, o) ensures Live(g2, o) { assert Live(g1, o); }
    }
  }

  /** What is no string survives exactly if it is in the set told beforehand. */
  ghost predicate LiveExactly(g0: Global, L: Id, g1: Global) {
    forall o :: o in g0.heap && !g0.heap[o].Str? ==> (Live(g1, o) <==> o in FinalMarks(g0, L))
  }

  lemma ExactlyOn(g0: Global, L: Id, g1: Global, g2: Global)
    requires LiveExactly(g0, L, g1) && FreedDead(g1, g2)
    ensures LiveExactly(g0, L, g2)
  {
    hide FinalMarks, Live;
  }

  lemma ClearedIsKept(h0: Heap, h1: Heap)
    requires Cleared(h0, h1)
    ensures HeapKept(h0, h1, true)
  {
    forall o | o in h1 ensures KeptAt(h0, h1, o, true) { assert BodyCleared(h0[o], h1[o]); }
  }

  lemma BaseUpvals(g: Global)
    requires Base(g)
    ensures UpvalsOk(g.heap)
  {
    hide UpvalsOk;
  }

  lemma ReachedKept(g0: Global, g1: Global, L: Id, M: set<Id>)
    requires L in M && g0.main in M && Kept(g1, M) && AtomicLeft(g0, g1)
    requires forall v :: v in g0.roots && v.Obj? ==> v.id in M
    requires forall o :: o in M && o !in g0.allweak ==> o in g0.heap && ClosedAt(g0.heap, M, o)
    ensures forall o :: StrongReachable(g0, L, o) ==> Live(g1, o)
  {
    hide StrongReachable, ClosedAt, AtomicLeft, Live;
    LeftLive(g0, g1);
    forall o | StrongReachable(g0, L, o) ensures Live(g1, o) {
      ReachedMarked(g0, L, M, o);
      assert NonWhite(g1, o);
    }
  }

  lemma ReachedMarked(g: Global, L: Id, M: set<Id>, o: Id)
    requires L in M && g.main in M && forall v :: v in g.roots && v.Obj? ==> v.id in M
    requires forall x :: x in M && x !in g.allweak ==> x in g.heap && ClosedAt(g.heap, M, x)
    requires StrongReachable(g, L, o)
    ensures o in M
  {
    hide ClosedAt, StrongTo;
    var path :| StrongPath(g, L, path) && path[|path| - 1] == o;
    StrongPathKept(g, L, path, M, |path| - 1);
  }

  // ---------------------------------------------------------------- sweeping steps

  lemma SweepNext(g: Global, next: Phase, pos: SweepPos)
    requires Sweeping(g) && g.sweep.AtEnd?
    requires (g.phase.SwpAllGc? && next.SwpFinObj? && pos.AtHead?)
          || (g.phase.SwpFinObj? && next.SwpToBeFnz? && pos.AtHead?)
          || (g.phase.SwpToBeFnz? && next.SwpEnd? && pos.AtEnd?)
    ensures Inv(g.(phase := next, sweep := pos)) && SameLive(g, g.(phase := next, sweep := pos))
  {
    hide UpvalsOk, Owned, LiveClosed, RootsLive, TwupsLive, MetasOk, SweptWhite, AllWhite;
    var g1 := g.(phase := next, sweep := pos);
    OwnedSame(g, g1);
    assert forall o :: Live(g1, o) <==> Live(g, o);
    RolesSame(g, g1);
    SweptNext(g, next, pos);
  }

  lemma SweptNext(g: Global, next: Phase, pos: SweepPos)
    requires SweptWhite(g) && g.sweep.AtEnd?
    requires (g.phase.SwpAllGc? && next.SwpFinObj? && pos.AtHead?)
          || (g.phase.SwpFinObj? && next.SwpToBeFnz? && pos.AtHead?)
          || (g.phase.SwpToBeFnz? && next.SwpEnd? && pos.AtEnd?)
    requires g.heap.Keys == g.color.Keys
    ensures var g1 := g.(phase := next, sweep := pos); if next.SwpEnd? then AllWhite(g1) else SweptWhite(g1)
  {
    var g1 := g.(phase := next, sweep := pos);
    assert CurList(g)[|CurList(g)| - AheadLen(g)..] == [];
    forall o | o in g1.heap && o in g1.color
      ensures if next.SwpEnd? then g1.color[o] == White(g1.cw) else g1.color[o] == White(g1.cw) || ToSweep(g1, o)
    {
      assert g.color[o] == White(g.cw) || ToSweep(g, o);
      assert CurList(g1)[|CurList(g1)| - |CurList(g1)|..] == CurList(g1);
    }
  }

  /** A step in a list sweeps a fixed number of objects, or all that are left, and then the list is done. */
  predicate Swept(g0: Global, g1: Global) {
    && AheadLen(g1) == (if AheadLen(g0) <= GCSWEEPMAX then 0 else AheadLen(g0) - GCSWEEPMAX)
    && (AheadLen(g1) == 0 <==> g1.sweep.AtEnd?)
  }

  lemma ElseNone(g0: Global, g1: Global)
    requires InSweep(g0) && ListsElse(g0, g1)
    ensures NoneJoin(g0, g1)
  {}

  /** `sweepstep` (lgc.c 1459-1473). */
  method SweepStep(c: Collector, next: Phase, pos: SweepPos)
    requires Sweeping(c.g)
    requires (c.g.phase.SwpAllGc? && next.SwpFinObj? && pos.AtHead?)
          || (c.g.phase.SwpFinObj? && next.SwpToBeFnz? && pos.AtHead?)
          || (c.g.phase.SwpToBeFnz? && next.SwpEnd? && pos.AtEnd?)
    modifies c
    ensures Inv(c.g) && FreedDead(old(c.g), c.g) && HeapKept(old(c.g).heap, c.g.heap, false)
    ensures NoneJoin(old(c.g), c.g)
    ensures if old(c.g).sweep.AtEnd? then c.g.phase == next && c.g.sweep == pos && c.g.heap == old(c.g).heap
            else c.g.phase == old(c.g).phase && Swept(old(c.g), c.g)
  {
    hide Base, SweptWhite, HeapKept, ListsElse;
    KeptSame(c.g.heap, false);
    if !c.g.sweep.AtEnd? {
      SweepList(c, GCSWEEPMAX);
      ElseNone(old(c.g), c.g);
      SweepingInv(c.g);
    } else {  // enter next state
      SweepNext(c.g, next, pos);
      c.g := c.g.(phase := next, sweep := pos);
    }
  }

  lemma QuietPhase(g: Global, next: Phase)
    requires Inv(g) && ((g.phase.SwpEnd? && next.CallFin? && g.sweep.AtEnd?) || (g.phase.CallFin? && next.Pause?))
    ensures Inv(g.(phase := next)) && SameLive(g, g.(phase := next))
  {
    hide Points, UpvalsOk, Owned, LiveClosed, RootsLive, TwupsLive;
    var g1 := g.(phase := next);
    OwnedSame(g, g1);
    assert forall o :: Live(g1, o) <==> Live(g, o);
    RolesSame(g, g1);
  }

  lemma MarkPhaseNext(g: Global)
    requires Inv(g) && g.phase.Propagate?
    ensures Inv(g.(phase := EnterAtomic)) && SameLive(g, g.(phase := EnterAtomic))
  {
    hide Points, UpvalsOk, Owned, LiveClosed, RootsLive, TwupsLive, Lists, ObjOk;
    var g1 := g.(phase := EnterAtomic);
    OwnedSame(g, g1);
    assert forall o :: Live(g1, o) <==> Live(g, o);
    RolesSame(g, g1);
    assert Again(g1) == Again(g);
    ListsFree(g, g1, Again(g));
  }

  method PropagateStep(c: Collector, ghost S: set<Id>)
    requires Inv(c.g) && c.g.phase.Propagate? && c.g.gray != [] && Bounded(c.g, S)
    modifies c
    ensures Bounded(c.g, S) && MarkFrame(old(c.g), c.g) && KeysDropped(old(c.g).heap, c.g.heap)
    ensures OnTrack(old(c.g)) ==> OnTrack(c.g)
    ensures Inv(c.g) && c.g.phase.Propagate? && SameLive(old(c.g), c.g) && HeapKept(old(c.g).heap, c.g.heap, false)
    ensures Whites(c.g) < Whites(old(c.g)) || (Whites(c.g) == Whites(old(c.g)) && |c.g.gray| < |old(c.g).gray|)
    ensures EasyVisit(old(c.g)) ==> c.g == VisitFirst(old(c.g))
  {
    hide Marking, Lists, Visited, MarkInv, Base, EasyVisit, VisitFirst, HeapKept, Whites;
    ghost var g0 := c.g;
    hide Bounded, OnTrack;
    MarkingOf(c.g, S);
    c.PropagateMark(Again(c.g), S);
    MarkingParts(c.g, PutOff(c.g, Again(g0), g0.gray[0]), S);
    VisitedPhase(g0, c.g, {});
    VisitedFrame(g0, c.g);
    AgainWidens(g0, c.g, S);
    MarkBase(g0, c.g);
    VisitedDrops(g0, c.g);
    DroppedIsKept(g0.heap, c.g.heap);
  }

  lemma MarkingOf(g: Global, S: set<Id>)
    requires Inv(g) && g.phase.Propagate? && Bounded(g, S)
    ensures Marking(g, Again(g), S)
  {
    hide MarkInv, Base, Bounded;
  }

  lemma VisitedFrame(g0: Global, g1: Global)
    requires Visited(g0, g1, {})
    ensures MarkFrame(g0, g1) && KeysDropped(g0.heap, g1.heap)
    ensures OnTrack(g0) ==> OnTrack(g1)
  {
    hide Lists, NewAllWeakOk, KeysDropped, ColorsGrow, Ext;
    if OnTrack(g0) {
      NewAllWeakChain(g0.(allweak := []), g0, g1);
      SameAllWeak(g0.(allweak := []), g1.(allweak := []), g1);
      MarksStay(g0, g1);
    }
  }

  lemma MarksStay(g0: Global, g1: Global)
    requires ColorsGrow(g0, g1)
    ensures forall o :: NonWhite(g0, o) ==> NonWhite(g1, o)
  {}

  lemma DroppedIsKept(h0: Heap, h1: Heap)
    requires KeysDropped(h0, h1)
    ensures HeapKept(h0, h1, false)
  {
    forall o | o in h1 ensures KeptAt(h0, h1, o, false) { assert BodyKeysDropped(h0[o], h1[o]); }
  }

  /** What a step brings: while marking, fewer white objects or fewer gray ones, and then the end of marking; in a
      sweep, objects swept, and then the next list. */
  ghost predicate Advances(g0: Global, g1: Global) {
    match g0.phase
    case Pause => g1.phase.Propagate?
    case Propagate =>
      if g0.gray == [] then g1.phase.EnterAtomic?
      else g1.phase.Propagate?
           && (Whites(g1) < Whites(g0) || (Whites(g1) == Whites(g0) && |g1.gray| < |g0.gray|))
    case SwpAllGc => if g0.sweep.AtEnd? then g1.phase.SwpFinObj? && g1.sweep.AtHead?
      else Swept(g0, g1) && g1.phase.SwpAllGc?
    case SwpFinObj => if g0.sweep.AtEnd? then g1.phase.SwpToBeFnz? && g1.sweep.AtHead?
      else Swept(g0, g1) && g1.phase.SwpFinObj?
    case SwpToBeFnz => if g0.sweep.AtEnd? then g1.phase.SwpEnd? else Swept(g0, g1) && g1.phase.SwpToBeFnz?
    case SwpEnd => g1.phase.CallFin?
    case _ => true
  }

  /** The tables in `allweak` need no other visit: their metatables are marked, and so are the values of an ephemeron
      table. */
  ghost predicate AllWeakSettled(g: Global) {
    NewAllWeakOk(g.(allweak := []), g)
  }

  /** So it is, and the objects waiting for their finalizer are marked. */
  ghost predicate OnTrack(g: Global) {
    AllWeakSettled(g) && forall o :: o in g.tobefnz ==> NonWhite(g, o)
  }

  lemma SameAllWeak(g0: Global, g1: Global, g: Global)
    requires NewAllWeakOk(g0, g) && g1.allweak == g0.allweak
    ensures NewAllWeakOk(g1, g)
  {}

  /** No object comes to wait for its finalizer, gets one or loses it. */
  predicate NoneJoin(g0: Global, g1: Global) {
    && (forall o :: o in g1.tobefnz ==> o in g0.tobefnz) && (forall o :: o in g1.finobj ==> o in g0.finobj)
    && forall o :: o in g1.allgc ==> o in g0.allgc
  }

  /** Objects come to wait for their finalizer only in the atomic step, and then exactly those that are not reached. */
  ghost predicate Queued(g0: Global, L: Id, g1: Global) {
    if g0.phase.EnterAtomic? then Separated(g0, L, g1) else NoneJoin(g0, g1)
  }

  /** Marking went on, within its bound, and on track if it was before. */
  ghost predicate MarkedOn(g0: Global, g1: Global, S: set<Id>) {
    && Bounded(g1, S) && MarkFrame(g0, g1) && KeysDropped(g0.heap, g1.heap)
    && (g0.phase.Pause? || OnTrack(g0) ==> OnTrack(g1))
  }

  lemma NoneDropped(h: Heap)
    ensures KeysDropped(h, h)
  {}

  lemma StartsOnTrack(g: Global)
    requires g.allweak == [] && forall o :: o in g.tobefnz ==> NonWhite(g, o)
    ensures OnTrack(g)
  {}

  lemma SameTrack(g: Global, g1: Global)
    requires OnTrack(g) && g1.heap == g.heap && g1.color == g.color && g1.allweak == g.allweak
    requires g1.tobefnz == g.tobefnz
    ensures OnTrack(g1)
  {
    SameSettled(g, g1);
  }

  lemma SameSettled(g: Global, g1: Global)
    requires AllWeakSettled(g) && g1.heap == g.heap && g1.color == g.color && g1.allweak == g.allweak
    ensures AllWeakSettled(g1)
  {
    forall h | h in g.allweak && h in g.heap && g.heap[h].Table? && ValsMarked(g, h) ensures ValsMarked(g1, h) {}
  }

  /** The states a step can lead to. */
  predicate StepPhase(p: Phase, q: Phase) {
    match p
    case Pause => q.Propagate?
    case Propagate => q.Propagate? || q.EnterAtomic?
    case EnterAtomic => q.SwpAllGc?
    case Atomic => false
    case SwpAllGc => q.SwpAllGc? || q.SwpFinObj?
    case SwpFinObj => q.SwpFinObj? || q.SwpToBeFnz?
    case SwpToBeFnz => q.SwpToBeFnz? || q.SwpEnd?
    case SwpEnd => q.CallFin?
    case CallFin => q.CallFin? || q.Pause?
  }

  /** Steps whose outcome can be told in full. */
  predicate EasyStep(g: Global) {
    (g.phase.Pause? && EasyStart(g)) || (g.phase.Propagate? && (g.gray == [] || EasyVisit(g)))
  }

  function StepState(g: Global): Global
    requires EasyStep(g)
  {
    if g.phase.Pause? then StartState(g) else if g.gray == [] then g.(phase := EnterAtomic) else VisitFirst(g)
  }

  /** The steps before the atomic one. */
  method MarkStep(c: Collector, ghost S: set<Id>)
    requires Inv(c.g) && (c.g.phase.Pause? || c.g.phase.Propagate?) && Within(c.g, S)
    modifies c
    ensures Inv(c.g) && StepPhase(old(c.g).phase, c.g.phase) && MarkedOn(old(c.g), c.g, S)
    ensures EasyStep(old(c.g)) ==> c.g == StepState(old(c.g))
    ensures SameLive(old(c.g), c.g) && HeapKept(old(c.g).heap, c.g.heap, false) && Advances(old(c.g), c.g)
    ensures NoneJoin(old(c.g), c.g)
  {
    hide HeapKept, Whites, GrayRefs, StartCovers, Bounded, OnTrack, KeysDropped, Base, MarkPhaseOk, AllWhite,
      EasyStart, EasyVisit, StartState, VisitFirst;
    KeptSame(c.g.heap, false);
    NoneDropped(c.g.heap);
    if c.g.phase.Pause? {
      RestartCollection(c, S);
      StartsOnTrack(c.g);
    } else if c.g.gray == [] {
      MarkPhaseNext(c.g);
      SameBound(c.g, c.g.(phase := EnterAtomic), S);
      if OnTrack(c.g) { SameTrack(c.g, c.g.(phase := EnterAtomic)); }
      c.g := c.g.(phase := EnterAtomic);  // finish propagate phase
    } else {
      PropagateStep(c, S);
    }
  }

  /** The steps of the sweep. */
  method SweepPhaseStep(c: Collector)
    requires Inv(c.g) && InSweep(c.g)
    modifies c
    ensures Inv(c.g) && StepPhase(old(c.g).phase, c.g.phase) && FreedDead(old(c.g), c.g)
    ensures HeapKept(old(c.g).heap, c.g.heap, false) && Advances(old(c.g), c.g) && NoneJoin(old(c.g), c.g)
  {
    hide HeapKept, AheadLen, NoneJoin, Base, SweptWhite, AllWhite, Swept;
    match c.g.phase {
      case SwpAllGc =>
        SweepStep(c, SwpFinObj, AtHead);
      case SwpFinObj =>
        SweepStep(c, SwpToBeFnz, AtHead);
      case SwpToBeFnz =>
        SweepStep(c, SwpEnd, AtEnd);
    }
  }

  /** The steps after the sweep. */
  method QuietStep(c: Collector, emergency: bool)
    requires Inv(c.g) && (c.g.phase.SwpEnd? || c.g.phase.CallFin?)
    modifies c
    ensures Inv(c.g) && StepPhase(old(c.g).phase, c.g.phase) && SameLive(old(c.g), c.g)
    ensures HeapKept(old(c.g).heap, c.g.heap, false) && Advances(old(c.g), c.g) && NoneJoin(old(c.g), c.g)
  {
    hide HeapKept, Base;
    KeptSame(c.g.heap, false);
    if c.g.phase.SwpEnd? {
      QuietPhase(c.g, CallFin);
      c.g := c.g.(phase := CallFin);
    } else if c.g.tobefnz == [] || emergency {
      QuietPhase(c.g, Pause);
      c.g := c.g.(phase := Pause);  // finish collection
    }
  }

  lemma NotAtomic(g: Global)
    requires Inv(g)
    ensures !g.phase.Atomic?
  {
    hide Base;
  }

  lemma NotEasy(g: Global)
    ensures EasyStep(g) ==> g.phase.Pause? || g.phase.Propagate?
  {}

  /** `singlestep` (lgc.c 1476-1524), finalizers aside: those are run by the program. Only the atomic step can go wrong.
      Outside it the live objects stay the live objects; there, whatever is strongly reachable stays live. */
  method SingleStep(c: Collector, L: Id, emergency: bool, ghost S: set<Id>) returns (ok: bool)
    requires Inv(c.g) && Live(c.g, L) && Within(c.g, S)
    modifies c
    ensures ok && InMark(c.g) ==> MarkedOn(old(c.g), c.g, S)
    ensures ok <==> (old(c.g).phase.EnterAtomic? ==> MetasReached(old(c.g), L))
    ensures ok ==> Inv(c.g) && StepPhase(old(c.g).phase, c.g.phase)
    ensures !ok ==> Lost(old(c.g), L, c.g)
    ensures EasyStep(old(c.g)) ==> c.g == StepState(old(c.g))
    ensures !old(c.g).phase.EnterAtomic? ==> forall o :: Live(c.g, o) <==> Live(old(c.g), o)
    ensures ok && old(c.g).phase.EnterAtomic? ==> forall o :: StrongReachable(old(c.g), L, o) ==> Live(c.g, o)
    ensures ok && old(c.g).phase.EnterAtomic? ==> LiveExactly(old(c.g), L, c.g)
    ensures ok ==> Queued(old(c.g), L, c.g)
    ensures ok ==> HeapKept(old(c.g).heap, c.g.heap, old(c.g).phase.EnterAtomic?)
    ensures ok ==> Advances(old(c.g), c.g)
  {
    hide LiveExactly, HeapKept, Advances, Bounded, MarkedOn, EasyStep, StepState, Inv, Live, Separated, NoneJoin;
    NotEasy(c.g);
    hide StrongReachable, MetasReached, LiveClosed, Lost;
    ok := true;
    match c.g.phase {
      case Pause =>
        MarkStep(c, S);
      case Propagate =>
        MarkStep(c, S);
      case EnterAtomic =>
        ok := AtomicStep(c, L);
        Plainly(old(c.g), c.g);
      case Atomic =>
        NotAtomic(c.g);
        assert false;
      case SwpAllGc =>
        SweepPhaseStep(c);
      case SwpFinObj =>
        SweepPhaseStep(c);
      case SwpToBeFnz =>
        SweepPhaseStep(c);
      case SwpEnd =>
        QuietStep(c, emergency);
      case CallFin =>
        QuietStep(c, emergency);
    }
  }

  lemma Plainly(g0: Global, g1: Global)
    requires g0.phase.EnterAtomic? || g0.phase.CallFin? || (g0.phase.SwpEnd? && g1.phase.CallFin?)
    ensures Advances(g0, g1)
  {}
}
