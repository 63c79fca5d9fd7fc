/** What the running program does to the heap between collector steps: stores with their write
    barriers, allocation, upvalues, roots and finalizers. */
module LuaMutator {
  import opened LuaHeap
  import opened LuaMarkSteps
  import opened LuaVisit
  import opened LuaAtomicSteps
  import opened LuaInvariant
  import opened LuaCollector
  import opened LuaSweep
  import opened LuaStep

  // ---------------------------------------------------------------- storing into an object

  ghost predicate SlotsCover(h: Heap, open: seq<Id>, n: nat) {
    forall uv :: uv in open && uv in h && h[uv].OpenUp? ==> h[uv].slot < n
  }

  /** The new body keeps the kind of the object and what ties it to others: upvalues stay upvalues of
      their thread, and a thread keeps its open upvalues and their slots. */
  ghost predicate SameTies(h: Heap, b0: Body, b: Body) {
    && !b0.OpenUp? && !b.OpenUp? && (b0.Thread? <==> b.Thread?) && (b0.Table? <==> b.Table?)
    && (HasGclist(b0) <==> HasGclist(b))
    && (b.Thread? ==> b.open == b0.open && SlotsCover(h, b.open, |b.stack|))
  }

  /** Every reference of the new body was in the old one or is one of those stored. */
  ghost predicate Adds(h: Heap, b0: Body, b: Body, added: seq<Ref>) {
    SameTies(h, b0, b) && forall r :: Refers(b, r) ==> Refers(b0, r) || Obj(r) in added
  }

  ghost predicate AllLive(g: Global, vs: seq<Ref>) {
    forall v :: v in vs && v.Obj? ==> Live(g, v.id)
  }

  ghost predicate RefersLive(g: Global, b: Body) {
    forall r :: Refers(b, r) ==> Live(g, r)
  }

  ghost predicate RefersMarked(g: Global, b: Body) {
    forall r :: Refers(b, r) ==> NonWhite(g, r)
  }

  function Stored(g: Global, o: Id, b: Body): Global {
    g.(heap := g.heap[o := b])
  }

  lemma StoredUpvals(h: Heap, o: Id, b: Body)
    requires UpvalsOk(h) && o in h && SameTies(h, h[o], b)
    ensures UpvalsOk(h[o := b])
  {
    var h1 := h[o := b];
    forall uv | uv in h1 && h1[uv].OpenUp?
      ensures h1[uv].th in h1 && h1[h1[uv].th].Thread? && h1[uv].slot < |h1[h1[uv].th].stack|
            && uv in h1[h1[uv].th].open
    {
      assert h[uv].OpenUp? && uv in h[h[uv].th].open;
    }
    forall th, uv | th in h1 && h1[th].Thread? && uv in h1[th].open ensures uv in h1 && h1[uv].OpenUp?
      && h1[uv].th == th {
      assert h[th].Thread? && uv in h[th].open;
    }
  }

  /** A reference seen after the store was there before, or is in the new body. */
  lemma StoredPoints(h: Heap, o: Id, b: Body, x: Id, r: Id)
    requires o in h && !b.OpenUp? && x in h && Points(h[o := b], x, r)
    ensures Points(h, x, r) || Refers(b, r)
  {
    if x != o && h[x].OpenUp? && h[x].th == o && b.Thread? {
      if h[x].slot < |b.stack| && b.stack[h[x].slot] == Obj(r) { assert Obj(r) in b.stack; }
    }
  }

  lemma StoredBase(g: Global, o: Id, b: Body)
    requires Base(g) && Live(g, o) && SameTies(g.heap, g.heap[o], b) && RefersLive(g, b) && MetaKind(g.heap, b)
    ensures Base(Stored(g, o, b)) && SameLive(g, Stored(g, o, b))
  {
    hide Points, Owned, UpvalsOk, Refers, SlotsCover, MetasOk;
    StoredMetas(g, o, b);
    var g1 := Stored(g, o, b);
    StoredUpvals(g.heap, o, b);
    OwnedSame(g, g1);
    assert forall x :: Live(g1, x) <==> Live(g, x);
    forall x, r | x in g1.heap && Live(g1, x) && Points(g1.heap, x, r) ensures Live(g1, r) {
      StoredPoints(g.heap, o, b, x, r);
    }
  }

  lemma StoredMetas(g: Global, o: Id, b: Body)
    requires MetasOk(g) && Live(g, o) && SameTies(g.heap, g.heap[o], b) && MetaKind(g.heap, b)
    ensures MetasOk(Stored(g, o, b))
  {
    var g1 := Stored(g, o, b);
    forall x | x in g1.heap && Live(g1, x) ensures MetaKind(g1.heap, g1.heap[x]) {
      if x != o { assert Live(g, x) && MetaKind(g.heap, g.heap[x]); }
    }
  }

  lemma AddsLive(g: Global, o: Id, b: Body, added: seq<Ref>)
    requires LiveClosed(g) && Live(g, o) && Adds(g.heap, g.heap[o], b, added) && AllLive(g, added)
    ensures RefersLive(g, b)
  {
    hide Refers, Live;
    LiveColored(g, o);
    forall r | Refers(b, r) ensures Live(g, r) {
      if Refers(g.heap[o], r) { assert Points(g.heap, o, r); }
    }
  }

  lemma StoredDone(g: Global, o: Id, b: Body, x: Id)
    requires o in g.heap && x in g.heap && x != o && !g.heap[x].OpenUp?
    ensures Done(Stored(g, o, b), x) <==> Done(g, x)
  {
    var g1 := Stored(g, o, b);
    assert forall r :: Points(g1.heap, x, r) <==> Points(g.heap, x, r);
  }

  /** An object is owed a visit, or has none but marked references, or is not black. */
  ghost predicate StoreOk(g: Global, P: set<Id>, o: Id, b: Body)
    requires o in g.color
  {
    o in P || !g.color[o].Black? || (RefersMarked(g, b) && !b.Thread?)
  }

  ghost predicate SameKind(b0: Body, b: Body) {
    (b0.Thread? <==> b.Thread?) && (b0.Table? <==> b.Table?) && (b0.OpenUp? <==> b.OpenUp?)
      && (HasGclist(b0) <==> HasGclist(b))
  }

  /** A step of the program while marking: the gray lists stay. */
  ghost predicate ListsStay(g: Global, g1: Global) {
    && g1.gray == g.gray && g1.grayagain == g.grayagain && g1.allweak == g.allweak && g1.cw == g.cw
    && g.weak == [] && g.ephemeron == [] && g1.weak == [] && g1.ephemeron == []
    && forall o :: o in g.twups ==> o in g1.twups
  }

  /** An object of unchanged colour and kind stays right; if black, its references must be marked. */
  lemma ObjKept(g: Global, g1: Global, P: set<Id>, x: Id)
    requires x in g.heap && x in g.color && x in g1.heap && x in g1.color && g1.color[x] == g.color[x]
    requires ObjOk(g, Again(g), x) && Again(g) <= P && ListsStay(g, g1) && SameKind(g.heap[x], g1.heap[x])
    requires g.color[x].Black? && x !in P ==> Done(g1, x)
    requires g1.heap[x].Thread? && g1.heap[x].open != [] ==> g.heap[x].open != [] || x in g1.twups
    ensures ObjOk(g1, P, x)
  {
    hide Lists, Points, Done, HasGclist;
    SameLists(g, g1);
    if g.heap[x].OpenUp? && g.color[x].Gray? { assert x in GrayUps(g); }
  }

  lemma RefersDone(g: Global, o: Id)
    requires o in g.heap && !g.heap[o].OpenUp? && RefersMarked(g, g.heap[o])
    ensures Done(g, o)
  {
    hide Refers;
  }

  lemma StoredObj(g: Global, P: set<Id>, o: Id, b: Body, x: Id)
    requires o in g.heap && o in g.color && SameTies(g.heap, g.heap[o], b) && x in g.heap && x in g.color
          && g.heap.Keys == g.color.Keys
    requires ObjOk(g, Again(g), x) && Again(g) <= P && g.weak == [] && g.ephemeron == [] && StoreOk(g, P, o, b)
    ensures ObjOk(Stored(g, o, b), P, x)
  {
    hide Lists, Refers, SlotsCover, Done, Points, ListedOk, TwupOk, Again;
    var g1 := Stored(g, o, b);
    if g.color[x].Black? && x !in P {
      if x == o { RefersDone(g1, o); } else { StoredDone(g, o, b, x); }
    }
    ObjKept(g, g1, P, x);
  }

  /** The marking invariant after a store: at the object itself, what the barrier has to provide. */
  lemma StoredMark(g: Global, P: set<Id>, o: Id, b: Body)
    requires MarkInv(g, Again(g)) && o in g.heap && o in g.color && SameTies(g.heap, g.heap[o], b)
    requires g.weak == [] && g.ephemeron == [] && Again(g) <= P && StoreOk(g, P, o, b)
    requires forall r :: Refers(b, r) ==> r in g.heap
    ensures MarkInv(Stored(g, o, b), P) && Again(Stored(g, o, b)) == Again(g)
  {
    hide Points, Lists, ObjOk, Refers, UpvalsOk, SlotsCover, StoreOk, HasGclist, Again;
    var g1 := Stored(g, o, b);
    assert Again(g1) == Again(g) by { AgainStored(g, o, b); }
    KeepDomains(g);
    StoredUpvals(g.heap, o, b);
    SameLists(g, g1);
    forall x, r | x in g1.heap && Points(g1.heap, x, r) ensures r in g1.heap { StoredPoints(g.heap, o, b, x, r); }
    forall x | x in g1.heap ensures ObjOk(g1, P, x) {
      assert ObjOk(g, Again(g), x);
      StoredObj(g, P, o, b, x);
    }
  }

  lemma MarkDomains(g: Global)
    requires MarkInv(g, Again(g))
    ensures AllAllocated(g) && g.heap.Keys == g.color.Keys
  {}

  lemma BlackRefers(g: Global, o: Id)
    requires MarkInv(g, Again(g)) && o in g.heap && o in g.color && g.color[o].Black?
    ensures RefersMarked(g, g.heap[o]) && !g.heap[o].Thread? && !g.heap[o].OpenUp? && o !in Lists(g) && o !in Again(g)
  {
    hide Lists, Refers;
    assert ObjOk(g, Again(g), o);
    assert o in g.grayagain ==> o in Lists(g) by { if o !in Lists(g) { NotListed(g, o); } }
    forall r | Refers(g.heap[o], r) ensures NonWhite(g, r) { assert Points(g.heap, o, r); }
  }

  /** A store after which no barrier is due. */
  lemma StoredInv(g: Global, o: Id, b: Body)
    requires Inv(g) && Live(g, o) && SameTies(g.heap, g.heap[o], b) && RefersLive(g, b) && MetaKind(g.heap, b)
    requires InMark(g) ==> StoreOk(g, Again(g), o, b)
    ensures Inv(Stored(g, o, b)) && SameLive(g, Stored(g, o, b))
  {
    hide MarkInv, Base, Refers, StoreOk, SlotsCover, Again;
    StoredBase(g, o, b);
    if InMark(g) {
      StoredMark(g, Again(g), o, b);
    } else if InSweep(g) {
      SweptStays(g, Stored(g, o, b));
    }
  }

  /** Sweeping only looks at colours and lists; making an object of the current white, or recolouring
      one still to be swept, is harmless. */
  lemma SweptStays(g: Global, g1: Global)
    requires SweptWhite(g) && g1.phase == g.phase && g1.sweep == g.sweep && g1.cw == g.cw
    requires g1.allgc == g.allgc && g1.finobj == g.finobj && g1.tobefnz == g.tobefnz
    requires g1.heap.Keys == g.heap.Keys && g1.color.Keys == g.color.Keys
    requires forall o :: o in g.color ==>
              g1.color[o] == g.color[o] || g1.color[o] == White(g.cw) || g.color[o] != White(g.cw)
    ensures SweptWhite(g1)
  {
    assert CurList(g1) == CurList(g) && AheadLen(g1) == AheadLen(g);
    forall o | o in g1.heap && o in g1.color ensures g1.color[o] == White(g1.cw) || ToSweep(g1, o) {
      assert g.color[o] == White(g.cw) || ToSweep(g, o);
    }
  }

  predicate IsWhite(g: Global, v: Ref) {
    v.Obj? && v.id in g.color && g.color[v.id].White?
  }

  /** The state after a store and its barrier: the body changed, colours and gray lists may have. */
  ghost predicate BarrierDone(g0: Global, g1: Global, o: Id, b: Body) {
    && g1 == g0.(heap := g0.heap[o := b], color := g1.color, gray := g1.gray, grayagain := g1.grayagain)
    && SameLive(g0, g1)
  }

  /** Old references and the one stored, when no barrier is due. */
  lemma QuietStore(g: Global, o: Id, b: Body, added: seq<Ref>)
    requires MarkInv(g, Again(g)) && o in g.heap && o in g.color && Adds(g.heap, g.heap[o], b, added)
          && AllLive(g, added)
    requires g.color[o].Black? ==> forall v :: v in added ==> !IsWhite(g, v)
    ensures StoreOk(g, Again(g), o, b)
  {
    hide Lists, Refers, Again, SlotsCover;
    if g.color[o].Black? {
      BlackRefers(g, o);
    }
  }

  lemma QuietInv(g: Global, o: Id, b: Body, added: seq<Ref>)
    requires Inv(g) && Live(g, o) && Adds(g.heap, g.heap[o], b, added) && AllLive(g, added) && MetaKind(g.heap, b)
    requires g.color[o].Black? ==> forall v :: v in added ==> !IsWhite(g, v)
    ensures Inv(Stored(g, o, b)) && SameLive(g, Stored(g, o, b))
  {
    hide MarkInv, Refers, Again, SlotsCover, OwnedOk, UpvalsOk, RootsLive, TwupsLive, StoreOk;
    AddsLive(g, o, b, added);
    if InMark(g) { QuietStore(g, o, b, added); }
    StoredInv(g, o, b);
  }

  /** Marking went on after a store: the invariant, once the object's references are all marked. */
  lemma ForwardSettled(g1: Global, g2: Global, o: Id, b: Body, v: Ref)
    requires MarkedMore(g1, g2) && Marking(g2, Again(g1) + {o}, g2.heap.Keys)
    requires o in g1.heap && g1.heap[o] == b && o in g1.color && g1.color[o].Black? && o !in Lists(g1)
          && o !in Again(g1)
    requires !b.Thread? && !b.OpenUp? && RefMarked(g2, v) && forall r :: Refers(b, r) ==> NonWhite(g1, r) || Obj(r) == v
    ensures MarkInv(g2, Again(g2))
  {
    hide Lists, Refers, Bounded, ObjOk;
    MarkGrows(g1, g2);
    assert Done(g2, o);
    NotListed(g1, o);
    assert o !in g2.grayagain;
    Settled(g2, Again(g1), g2.heap.Keys, o);
    AgainGrows(g1, g2);
    Widened(g2, Again(g1), Again(g2), g2.heap.Keys);
  }

  lemma AgainGrows(g1: Global, g2: Global)
    requires MarkedMore(g1, g2)
    ensures Again(g1) <= Again(g2)
  {
    hide Lists;
  }

  /** The fields of the invariant that marking leaves alone. */
  lemma MarkedInv(g1: Global, g2: Global)
    requires Base(g1) && InMark(g1) && MarkedMore(g1, g2) && MarkInv(g2, Again(g2))
    requires g1.weak == [] && g1.ephemeron == [] && g1.sweep.AtEnd? && NonWhite(g1, g1.main)
    requires forall o :: o in g1.heap ==> Live(g1, o)
    ensures Inv(g2) && SameLive(g1, g2)
  {
    hide Lists, Points, ObjOk, UpvalsOk, Owned, LiveClosed, RootsLive, TwupsLive, AllAllocated;
    MarkAllLive(g2);
    OwnedSame(g1, g2);
    RolesSame(g1, g2);
    MarkGrows(g1, g2);
  }

  /** A store followed by the forward barrier (`luaC_barrier_`, lgc.c 193-207): while marking, the
      stored object is marked; in a sweep the object stored into becomes white. */
  method StoreForward(c: Collector, o: Id, b: Body, v: Ref)
    requires Inv(c.g) && Live(c.g, o) && AllLive(c.g, [v]) && Adds(c.g.heap, c.g.heap[o], b, [v])
    requires !b.Thread? && MetaKind(c.g.heap, b)
    modifies c
    ensures Inv(c.g) && BarrierDone(old(c.g), c.g, o, b)
    ensures !(old(c.g).color[o].Black? && IsWhite(old(c.g), v)) ==> c.g == Stored(old(c.g), o, b)
    ensures old(c.g).color[o].Black? && IsWhite(old(c.g), v) ==>
      if InMark(old(c.g)) then NonWhite(c.g, v.id) else c.g.color[o] == White(c.g.cw)
  {
    hide Base, MarkPhaseOk, SweptWhite, AllWhite, Adds, Lists, Marking, MarkedMore, Again, MarkInv, LiveClosed,
      AllLive, MetaKind;
    ghost var g0 := c.g;
    if !(c.g.color[o].Black? && IsWhite(c.g, v)) {
      QuietInv(c.g, o, b, [v]);
      c.g := Stored(c.g, o, b);
    } else if InMark(c.g) {
      ForwardDue(c.g, o, b, v);
      c.g := Stored(c.g, o, b);
      ghost var g1 := c.g;
      c.ReallyMark(v.id, Again(g1) + {o}, c.g.heap.Keys);
      ForwardDone(g0, g1, c.g, o, b, v);
    } else {
      WhiteDue(c.g, o, b, v);
      assert InSweep(c.g);
      c.g := Stored(c.g, o, b).(color := c.g.color[o := White(c.g.cw)]);
    }
  }

  lemma ForwardDue(g: Global, o: Id, b: Body, v: Ref)
    requires Inv(g) && Live(g, o) && AllLive(g, [v]) && Adds(g.heap, g.heap[o], b, [v]) && v.Obj? && InMark(g)
          && MetaKind(g.heap, b)
    ensures var g1 := Stored(g, o, b);
      && Marking(g1, Again(g1) + {o}, g1.heap.Keys) && v.id in g1.heap && v.id in g1.color && v.id in g1.heap.Keys
  {
    hide Lists, Points, Refers, ObjOk, OwnedOk, UpvalsOk, RootsLive, TwupsLive, SlotsCover, Again, Bounded,
      AllAllocated;
    AddsLive(g, o, b, [v]);
    assert forall r :: Refers(b, r) ==> r in g.heap;
    StoredMark(g, Again(g) + {o}, o, b);
    UniversalBound(Stored(g, o, b), Again(g) + {o});
  }

  lemma ForwardDone(g0: Global, g1: Global, g2: Global, o: Id, b: Body, v: Ref)
    requires Inv(g0) && Live(g0, o) && AllLive(g0, [v]) && Adds(g0.heap, g0.heap[o], b, [v]) && v.Obj? && InMark(g0)
          && MetaKind(g0.heap, b)
    requires !b.Thread? && g1 == Stored(g0, o, b) && g0.color[o].Black?
    requires Marking(g2, Again(g1) + {o}, g1.heap.Keys) && MarkedMore(g1, g2) && NonWhite(g2, v.id)
    ensures Inv(g2) && BarrierDone(g0, g2, o, b)
  {
    hide Lists, Points, ObjOk, OwnedOk, UpvalsOk, RootsLive, TwupsLive, SlotsCover, Again, Bounded, AllAllocated,
      Refers;
    AddsLive(g0, o, b, [v]);
    StoredBase(g0, o, b);
    BlackRefers(g0, o);
    SameLists(g0, g1);
    AgainStored(g0, o, b);
    ForwardSettled(g1, g2, o, b, v);
    MarkDomains(g0);
    MarkAllLive(g0);
    MarkedInv(g1, g2);
  }

  lemma AgainStored(g: Global, o: Id, b: Body)
    requires o in g.heap && !g.heap[o].OpenUp? && !b.OpenUp?
    ensures Again(Stored(g, o, b)) == Again(g)
  {}

  lemma WhiteDue(g: Global, o: Id, b: Body, v: Ref)
    requires Inv(g) && Live(g, o) && AllLive(g, [v]) && Adds(g.heap, g.heap[o], b, [v]) && !InMark(g)
          && g.color[o].Black? && MetaKind(g.heap, b)
    ensures InSweep(g)
    ensures var g1 := Stored(g, o, b).(color := g.color[o := White(g.cw)]); Inv(g1) && BarrierDone(g, g1, o, b)
  {
    hide Points, OwnedOk, UpvalsOk, LiveClosed, RootsLive, TwupsLive, SlotsCover, Refers, SweptWhite, Owned;
    var gs := Stored(g, o, b);
    var g1 := gs.(color := g.color[o := White(g.cw)]);
    AddsLive(g, o, b, [v]);
    StoredBase(g, o, b);
    assert forall x :: Live(g1, x) <==> Live(gs, x);
    OwnedSame(gs, g1);
    OwnedRecolored(gs, g1);
    RolesSame(gs, g1);
    SweptStays(g, g1);
  }

  lemma OwnedRecolored(g: Global, g1: Global)
    requires OwnedOk(g) && Owned(g1) == Owned(g) && g1.heap.Keys == g.heap.Keys && g1.color.Keys == g.color.Keys
    ensures OwnedOk(g1)
  {
    hide Owned;
  }

  /** A store followed by the backward barrier (`luaC_barrierback_`, lgc.c 214-222): a black object that
      received a white one becomes gray again and joins `grayagain`, in whatever phase. */
  method StoreBack(c: Collector, o: Id, b: Body, added: seq<Ref>)
    requires Inv(c.g) && Live(c.g, o) && AllLive(c.g, added) && Adds(c.g.heap, c.g.heap[o], b, added)
    requires !b.Thread? && HasGclist(b) && MetaKind(c.g.heap, b)
    modifies c
    ensures Inv(c.g) && BarrierDone(old(c.g), c.g, o, b)
    ensures old(c.g).color[o].Black? && (exists v :: v in added && IsWhite(old(c.g), v)) ==>
              o in c.g.grayagain && c.g.color[o].Gray?
  {
    hide Inv, Adds, Live, AllLive, MetaKind, HasGclist;
    var white := false;
    for i := 0 to |added|
      invariant white <==> exists v :: v in added[..i] && IsWhite(c.g, v)
    {
      white := white || IsWhite(c.g, added[i]);
      assert added[..i + 1] == added[..i] + [added[i]];
    }
    assert added[..|added|] == added;
    LiveColored(c.g, o);
    if c.g.color[o].Black? && white {
      BackDue(c.g, o, b, added);
      c.g := BackState(c.g, o, b);
    } else {
      QuietInv(c.g, o, b, added);
      c.g := Stored(c.g, o, b);
    }
  }

  lemma LiveColored(g: Global, o: Id)
    requires Live(g, o)
    ensures o in g.color && o in g.heap
  {}

  function BackState(g: Global, o: Id, b: Body): Global {
    Put(Stored(g, o, b).(color := g.color[o := Gray]), InGrayAgain, o)
  }

  lemma BackDue(g: Global, o: Id, b: Body, added: seq<Ref>)
    requires Inv(g) && Live(g, o) && AllLive(g, added) && Adds(g.heap, g.heap[o], b, added) && g.color[o].Black?
    requires HasGclist(b) && !b.Thread? && MetaKind(g.heap, b)
    ensures Inv(BackState(g, o, b)) && BarrierDone(g, BackState(g, o, b), o, b)
  {
    hide Points, OwnedOk, UpvalsOk, LiveClosed, RootsLive, TwupsLive, SlotsCover, Refers, SweptWhite, Owned, MarkInv;
    var gs := Stored(g, o, b);
    var g1 := BackState(g, o, b);
    AddsLive(g, o, b, added);
    StoredBase(g, o, b);
    assert forall x :: Live(g1, x) <==> Live(gs, x);
    OwnedSame(gs, g1);
    OwnedRecolored(gs, g1);
    RolesSame(gs, g1);
    if InMark(g) { BackMark(g, o, b); } else { SweptStays(g, g1); }
  }

  lemma BackMark(g: Global, o: Id, b: Body)
    requires MarkInv(g, Again(g)) && g.weak == [] && g.ephemeron == [] && o in g.heap && o in g.color
          && g.color[o].Black?
    requires SameTies(g.heap, g.heap[o], b) && RefersLive(g, b) && HasGclist(b) && !b.Thread?
    ensures MarkInv(BackState(g, o, b), Again(BackState(g, o, b)))
  {
    hide Points, Lists, ObjOk, Refers, AllAllocated, SlotsCover, Bounded;
    var P := Again(g) + {o};
    var gs := Stored(g, o, b);
    BlackRefers(g, o);
    StoredMark(g, P, o, b);
    UniversalBound(gs, P);
    SameLists(g, gs);
    assert P + {o} == P;
    Reworked(gs, P, gs.heap.Keys, o, Gray, b);
    var g2 := gs.(heap := gs.heap[o := b], color := gs.color[o := Gray]);
    assert g2 == gs.(color := g.color[o := Gray]);
    Linked(g2, P, gs.heap.Keys, InGrayAgain, o);
    assert Again(BackState(g, o, b)) == P;
  }

  /** A store into a thread's stack (registers, pushes and pops, open upvalues): no barrier, since a
      thread is never black. */
  method SetStack(c: Collector, th: Id, stack: seq<Ref>)
    requires Inv(c.g) && Live(c.g, th) && c.g.heap[th].Thread? && AllLive(c.g, stack)
    requires SlotsCover(c.g.heap, c.g.heap[th].open, |stack|)
    modifies c
    ensures Inv(c.g) && c.g == Stored(old(c.g), th, Thread(stack, old(c.g).heap[th].open)) && SameLive(old(c.g), c.g)
  {
    hide Base, MarkPhaseOk, SweptWhite, AllWhite, AllLive, SlotsCover;
    StackStored(c.g, th, stack);
    c.g := Stored(c.g, th, Thread(stack, c.g.heap[th].open));
  }

  lemma StackStored(g: Global, th: Id, stack: seq<Ref>)
    requires Inv(g) && Live(g, th) && g.heap[th].Thread? && AllLive(g, stack)
          && SlotsCover(g.heap, g.heap[th].open, |stack|)
    ensures var g1 := Stored(g, th, Thread(stack, g.heap[th].open)); Inv(g1) && SameLive(g, g1)
  {
    hide Lists, OwnedOk, UpvalsOk, RootsLive, TwupsLive, SlotsCover, SweptWhite, AllAllocated;
    var b := Thread(stack, g.heap[th].open);
    assert MetaKind(g.heap, b);
    forall r | Refers(b, r) ensures Live(g, r) {
      if r in b.open { assert Refers(g.heap[th], r); assert Points(g.heap, th, r); }
    }
    if InMark(g) { assert ObjOk(g, Again(g), th); }
    StoredInv(g, th, b);
  }
}
