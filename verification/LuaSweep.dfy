/** The sweep: freeing dead objects and whitening the others, a bounded number per step. */
module LuaSweep {
  import opened LuaHeap
  import opened LuaMarkSteps
  import opened LuaVisit
  import opened LuaAtomicSteps
  import opened LuaInvariant
  import opened LuaCollector

  function Without(s: seq<Id>, x: Id): (r: seq<Id>)
    ensures x !in r && forall y :: y != x ==> (y in r <==> y in s)
    ensures forall y :: y in r ==> y in s
  {
    if s == [] then []
    else if s[0] == x then Without(s[1..], x)
    else [s[0]] + Without(s[1..], x)
  }

  lemma {:induction false} WithoutShorter(s: seq<Id>, x: Id)
    ensures |Without(s, x)| <= |s| && (x in s ==> |Without(s, x)| < |s|)
  {
    if s != [] { WithoutShorter(s[1..], x); }
  }

  // ---------------------------------------------------------------- closing an upvalue

  /** The state after closing an open upvalue `uv`: it holds its own value and its thread forgets it. */
  function ClosedState(g: Global, uv: Id, c: Color): Global
    requires uv in g.heap && g.heap[uv].OpenUp? && g.heap[uv].th in g.heap && g.heap[g.heap[uv].th].Thread?
  {
    var th := g.heap[uv].th;
    var t := g.heap[th];
    g.(heap := g.heap[uv := ClosedUp(Content(g.heap, uv))][th := Thread(t.stack, Without(t.open, uv))],
       color := g.color[uv := c])
  }

  lemma ClosedPoints(g: Global, uv: Id, c: Color, o: Id, r: Id)
    requires uv in g.heap && g.heap[uv].OpenUp? && g.heap[uv].th in g.heap && g.heap[g.heap[uv].th].Thread?
    requires UpvalsOk(g.heap) && o in g.heap && Points(ClosedState(g, uv, c).heap, o, r)
    ensures Points(g.heap, o, r)
  {
    var g1 := ClosedState(g, uv, c);
    var th := g.heap[uv].th;
    assert th != uv;
    if o == uv {
    } else if o == th {
    } else if g.heap[o].OpenUp? && g.heap[o].th == th {
    } else {
    }
  }

  lemma ClosedUpvals(g: Global, uv: Id, c: Color)
    requires uv in g.heap && g.heap[uv].OpenUp? && g.heap[uv].th in g.heap && g.heap[g.heap[uv].th].Thread?
    requires UpvalsOk(g.heap)
    ensures UpvalsOk(ClosedState(g, uv, c).heap)
  {
    assert g.heap[uv].th != uv;
  }

  lemma ClosedLive(g: Global, uv: Id, c: Color)
    requires Base(g) && uv in g.heap && g.heap[uv].OpenUp? && g.heap[uv].th in g.heap && g.heap[g.heap[uv].th].Thread?
    requires c == White(!g.cw) <==> g.color[uv] == White(!g.cw)
    ensures LiveClosed(ClosedState(g, uv, c))
    ensures forall o :: Live(ClosedState(g, uv, c), o) <==> Live(g, o)
  {
    hide Points, Owned, UpvalsOk, TwupsLive;
    var g1 := ClosedState(g, uv, c);
    assert forall o :: Live(g1, o) <==> Live(g, o);
    forall o, r | o in g1.heap && Live(g1, o) && Points(g1.heap, o, r) ensures Live(g1, r) {
      ClosedPoints(g, uv, c, o, r);
    }
  }

  lemma ClosedBase(g: Global, uv: Id, c: Color)
    requires Base(g) && uv in g.heap && g.heap[uv].OpenUp? && g.heap[uv].th in g.heap && g.heap[g.heap[uv].th].Thread?
    requires c == White(!g.cw) <==> g.color[uv] == White(!g.cw)
    ensures Base(ClosedState(g, uv, c))
    ensures forall o :: Live(ClosedState(g, uv, c), o) <==> Live(g, o)
  {
    hide OwnedOk, UpvalsOk, LiveClosed, RootsLive, TwupsLive, MetasOk, ClosedState, Live;
    ClosedUpvals(g, uv, c);
    ClosedTables(g, uv, c);
    ClosedLive(g, uv, c);
    ClosedOwned(g, uv, c);
    ClosedTwups(g, uv, c);
    ClosedRoots(g, uv, c);
  }

  lemma ClosedTables(g: Global, uv: Id, c: Color)
    requires Base(g) && uv in g.heap && g.heap[uv].OpenUp? && g.heap[uv].th in g.heap && g.heap[g.heap[uv].th].Thread?
    requires c == White(!g.cw) <==> g.color[uv] == White(!g.cw)
    ensures MetasOk(ClosedState(g, uv, c))
  {
    hide OwnedOk, UpvalsOk, LiveClosed, RootsLive, TwupsLive, MetasOk, Points;
    ClosedLive(g, uv, c);
    var g1 := ClosedState(g, uv, c);
    assert forall o :: o in g.heap && g.heap[o].Table? ==> o in g1.heap && g1.heap[o] == g.heap[o];
    assert TablesStay(g, g1);
    MetasStay(g, g1);
  }

  lemma ClosedOwned(g: Global, uv: Id, c: Color)
    requires OwnedOk(g) && uv in g.heap && g.heap[uv].OpenUp? && g.heap[uv].th in g.heap
          && g.heap[g.heap[uv].th].Thread?
    ensures OwnedOk(ClosedState(g, uv, c)) && g.heap.Keys == g.color.Keys
  {
    hide Owned;
    var g1 := ClosedState(g, uv, c);
    OwnedSame(g, g1);
    assert g1.heap.Keys == g.heap.Keys && g1.color.Keys == g.color.Keys;
  }

  lemma ClosedRoots(g: Global, uv: Id, c: Color)
    requires uv in g.heap && g.heap[uv].OpenUp? && g.heap[uv].th in g.heap && g.heap[g.heap[uv].th].Thread?
          && RootsLive(g)
    requires forall o :: Live(ClosedState(g, uv, c), o) <==> Live(g, o)
    ensures RootsLive(ClosedState(g, uv, c))
  {
    var g1 := ClosedState(g, uv, c);
    assert g1.main == g.main && g1.roots == g.roots && g1.tobefnz == g.tobefnz;
    assert g.main in g.heap && g1.heap[g.main].Thread?;
    hide Live, ClosedState;
  }

  lemma ClosedTwups(g: Global, uv: Id, c: Color)
    requires uv in g.heap && g.heap[uv].OpenUp? && g.heap[uv].th in g.heap && g.heap[g.heap[uv].th].Thread?
          && TwupsLive(g)
    requires g.heap.Keys == g.color.Keys
    requires forall o :: Live(ClosedState(g, uv, c), o) <==> Live(g, o)
    ensures TwupsLive(ClosedState(g, uv, c))
  {
    var g1 := ClosedState(g, uv, c);
    assert forall o :: o in g.heap && g.heap[o].Thread? ==> g1.heap[o].Thread?
                                                            && (g1.heap[o].open != [] ==> g.heap[o].open != []);
    assert forall o :: o in g1.heap && g1.heap[o].Thread? ==> o in g.heap && g.heap[o].Thread?;
  }

  lemma OwnedSame(g: Global, g1: Global)
    requires g1.allgc == g.allgc && g1.finobj == g.finobj && g1.tobefnz == g.tobefnz
    ensures Owned(g1) == Owned(g)
  {}

  // ---------------------------------------------------------------- freeing an object

  /** The state after object `o` was taken from the heap and from its list. */
  function RemovedState(g: Global, o: Id, l: seq<Id>, pos: SweepPos): Global {
    SetCur(g.(heap := g.heap - {o}, color := g.color - {o}, sweep := pos), l)
  }

  lemma RemovedCount(g: Global, o: Id, l: seq<Id>, pos: SweepPos)
    requires InSweep(g) && multiset(CurList(g)) == multiset(l) + multiset{o}
    ensures Owned(g) == Owned(RemovedState(g, o, l, pos)) + multiset{o}
  {
    match g.phase
    case SwpAllGc =>
    case SwpFinObj =>
    case SwpToBeFnz =>
  }

  lemma RemovedOwned(g: Global, o: Id, l: seq<Id>, pos: SweepPos)
    requires OwnedOk(g) && o in g.heap && InSweep(g) && multiset(CurList(g)) == multiset(l) + multiset{o}
    ensures OwnedOk(RemovedState(g, o, l, pos))
  {
    hide Owned;
    RemovedCount(g, o, l, pos);
  }

  lemma RemovedFnz(g: Global, o: Id, l: seq<Id>, pos: SweepPos)
    requires InSweep(g) && multiset(CurList(g)) == multiset(l) + multiset{o}
    ensures forall x :: x in RemovedState(g, o, l, pos).tobefnz ==> x in g.tobefnz
  {
    if g.phase.SwpToBeFnz? {
      forall x | x in l ensures x in g.tobefnz { assert x in multiset(l); assert x in multiset(CurList(g)); }
    }
  }

  lemma RemovedFields(g: Global, o: Id, l: seq<Id>, pos: SweepPos)
    ensures var g1 := RemovedState(g, o, l, pos);
      && g1.heap == g.heap - {o} && g1.color == g.color - {o} && g1.cw == g.cw && g1.roots == g.roots
      && g1.main == g.main && g1.twups == g.twups && g1.phase == g.phase && g1.sweep == pos
  {}

  /** Nothing live is touched by freeing a dead object no thread or upvalue is tied to. */
  lemma RemovedBase(g: Global, o: Id, l: seq<Id>, pos: SweepPos)
    requires Base(g) && o in g.heap && Dead(g, o) && InSweep(g)
    requires !g.heap[o].OpenUp? || (g.heap[o].th in g.heap && g.heap[g.heap[o].th].Thread?
                                    && o !in g.heap[g.heap[o].th].open)
    requires g.heap[o].Thread? ==> g.heap[o].open == []
    requires multiset(CurList(g)) == multiset(l) + multiset{o}
    ensures Base(RemovedState(g, o, l, pos))
    ensures forall x :: Live(RemovedState(g, o, l, pos), x) <==> Live(g, x)
  {
    hide Points, UpvalsOk, LiveClosed, RemovedState, CurList, OwnedOk, MetasOk;
    var g1 := RemovedState(g, o, l, pos);
    RemovedFields(g, o, l, pos);
    RemovedOwned(g, o, l, pos);
    RemovedFnz(g, o, l, pos);
    RemovedUpvals(g.heap, o);
    assert forall x :: Live(g1, x) <==> Live(g, x);
    RemovedClosed(g, g1, o);
    assert TablesStay(g, g1);
    MetasStay(g, g1);
  }

  lemma RemovedUpvals(h: Heap, o: Id)
    requires UpvalsOk(h) && o in h
    requires !h[o].OpenUp? || (h[o].th in h && h[h[o].th].Thread? && o !in h[h[o].th].open)
    requires h[o].Thread? ==> h[o].open == []
    ensures UpvalsOk(h - {o})
  {
    var h1 := h - {o};
    forall uv | uv in h1 && h1[uv].OpenUp?
      ensures h1[uv].th in h1 && h1[h1[uv].th].Thread? && h1[uv].slot < |h1[h1[uv].th].stack|
            && uv in h1[h1[uv].th].open
    {
      assert uv in h[h[uv].th].open;
    }
    forall th, uv | th in h1 && h1[th].Thread? && uv in h1[th].open ensures uv in h1 && h1[uv].OpenUp?
      && h1[uv].th == th {
      assert uv in h[th].open;
    }
  }

  lemma RemovedClosed(g: Global, g1: Global, o: Id)
    requires LiveClosed(g) && g1.heap == g.heap - {o} && forall x :: Live(g1, x) <==> Live(g, x)
    ensures LiveClosed(g1)
  {
    forall x, r | x in g1.heap && Live(g1, x) && Points(g1.heap, x, r) ensures Live(g1, r) {
      assert Points(g.heap, x, r);
    }
  }

  // ---------------------------------------------------------------- methods

  /** Closing one open upvalue of a thread during the sweep (`luaF_close`, lfunc.c 223-242, with the
      barrier's sweep branch): the value moves into the upvalue, a marked upvalue turns black, and a
      black one pointing to a white value is swept white at once. */
  method CloseInSweep(c: Collector, uv: Id)
    requires Base(c.g) && InSweep(c.g) && SweptWhite(c.g) && uv in c.g.heap && c.g.heap[uv].OpenUp?
    modifies c
    ensures Base(c.g) && SweptWhite(c.g)
    ensures exists col :: OpenHome(old(c.g), uv) && c.g == ClosedState(old(c.g), uv, col)
    ensures forall o :: Live(c.g, o) <==> Live(old(c.g), o)
    ensures uv !in c.g.heap[old(c.g).heap[uv].th].open && WhiteKept(old(c.g), c.g)
  {
    hide Points, Owned, UpvalsOk, LiveClosed, RootsLive, TwupsLive;
    ghost var g0 := c.g;
    HomeOf(c.g, uv);
    var th := c.g.heap[uv].th;
    var v := c.g.heap[th].stack[c.g.heap[uv].slot];
    var col := c.g.color[uv];
    if !col.White? { col := Black; }  // closed upvalues cannot be gray
    if col.Black? && v.Obj? && v.id in c.g.color && c.g.color[v.id].White? {
      col := White(c.g.cw);  // luaC_barrier_ in a sweep phase
    }
    ClosedBase(c.g, uv, col);
    c.g := ClosedState(c.g, uv, col);
    ClosedSwept(g0, uv, col);
  }

  ghost predicate OpenHome(g: Global, uv: Id) {
    uv in g.heap && g.heap[uv].OpenUp? && g.heap[uv].th in g.heap && g.heap[g.heap[uv].th].Thread?
  }

  lemma HomeOf(g: Global, uv: Id)
    requires Base(g) && uv in g.heap && g.heap[uv].OpenUp?
    ensures OpenHome(g, uv) && g.heap[uv].slot < |g.heap[g.heap[uv].th].stack| && uv in g.color
    ensures uv in g.heap[g.heap[uv].th].open
  {}

  lemma ClosedSwept(g: Global, uv: Id, c: Color)
    requires OpenHome(g, uv) && SweptWhite(g) && InSweep(g) && uv in g.color
    requires c == g.color[uv] || c == White(g.cw) || g.color[uv] != White(g.cw)
    ensures SweptWhite(ClosedState(g, uv, c))
  {
    var g1 := ClosedState(g, uv, c);
    assert CurList(g1) == CurList(g);
    forall o | o in g1.heap && o in g1.color ensures g1.color[o] == White(g1.cw) || ToSweep(g1, o) {
      assert o in g.heap && o in g.color;
      assert g.color[o] == White(g.cw) || ToSweep(g, o);
    }
  }

  /** The object `sweepgc` points to. */
  function Curr(g: Global): Id
    requires 0 < AheadLen(g) <= |CurList(g)|
  {
    CurList(g)[|CurList(g)| - AheadLen(g)]
  }

  ghost predicate Sweeping(g: Global) {
    Base(g) && InSweep(g) && SweptWhite(g)
  }

  /** The list without the object `sweepgc` points to. */
  function ListLeft(g: Global): seq<Id>
    requires 0 < AheadLen(g) <= |CurList(g)|
  {
    var l, i := CurList(g), |CurList(g)| - AheadLen(g);
    l[..i] + l[i + 1..]
  }

  lemma ListLeftCount(g: Global)
    requires 0 < AheadLen(g) <= |CurList(g)|
    ensures multiset(CurList(g)) == multiset(ListLeft(g)) + multiset{Curr(g)}
    ensures ListLeft(g)[|ListLeft(g)| - (AheadLen(g) - 1)..] == CurList(g)[|CurList(g)| - AheadLen(g) + 1..]
  {
    var l, i := CurList(g), |CurList(g)| - AheadLen(g);
    assert l == l[..i] + [l[i]] + l[i + 1..];
  }

  lemma CurrAllocated(g: Global)
    requires Base(g) && 0 < AheadLen(g) <= |CurList(g)|
    ensures Curr(g) in g.heap && Curr(g) in g.color
  {
    hide UpvalsOk, LiveClosed, RootsLive, TwupsLive;
    assert Curr(g) in CurList(g);
    assert Curr(g) in Owned(g);
  }

  /** The position after the object was removed: the head stays the head. */
  function PosLeft(g: Global): SweepPos
    requires 0 < AheadLen(g)
  {
    if g.sweep.AtHead? then AtHead else Ahead(AheadLen(g) - 1)
  }

  lemma RemovedSwept(g: Global)
    requires SweptWhite(g) && InSweep(g) && 0 < AheadLen(g) && Curr(g) in g.heap && Curr(g) in g.color
    ensures SweptWhite(RemovedState(g, Curr(g), ListLeft(g), PosLeft(g)))
  {
    var g1 := RemovedState(g, Curr(g), ListLeft(g), PosLeft(g));
    ListLeftCount(g);
    assert CurList(g1) == ListLeft(g) && AheadLen(g1) == AheadLen(g) - 1;
    forall x | x in g1.heap && x in g1.color ensures g1.color[x] == White(g1.cw) || ToSweep(g1, x) {
      assert x in g.heap && x in g.color && x != Curr(g);
      assert g.color[x] == White(g.cw) || ToSweep(g, x);
      if ToSweep(g, x) { RemovedToSweep(g, g1, x); }
    }
  }

  lemma RemovedToSweep(g: Global, g1: Global, x: Id)
    requires SweepPosOk(g) && InSweep(g) && 0 < AheadLen(g) && ToSweep(g, x) && x != Curr(g)
    requires g1.phase == g.phase && CurList(g1) == ListLeft(g) && AheadLen(g1) == AheadLen(g) - 1
    requires g.phase.SwpAllGc? ==> g1.finobj == g.finobj && g1.tobefnz == g.tobefnz
    requires g.phase.SwpFinObj? ==> g1.tobefnz == g.tobefnz
    ensures SweepPosOk(g1) && ToSweep(g1, x)
  {
    hide AheadLen;
    var l, i := CurList(g), |CurList(g)| - AheadLen(g);
    ListLeftCount(g);
    SliceHead(l, i);
  }

  lemma SliceHead(l: seq<Id>, i: nat)
    requires i < |l|
    ensures l[i..] == [l[i]] + l[i + 1..]
  {
  }

  function WhitenedState(g: Global): Global
    requires 0 < AheadLen(g) <= |CurList(g)|
  {
    g.(color := g.color[Curr(g) := White(g.cw)], sweep := Ahead(AheadLen(g) - 1))
  }

  lemma WhitenedSwept(g: Global)
    requires Sweeping(g) && 0 < AheadLen(g) && Live(g, Curr(g))
    ensures Sweeping(WhitenedState(g)) && forall x :: Live(WhitenedState(g), x) <==> Live(g, x)
  {
    hide Points, UpvalsOk, LiveClosed, RootsLive, TwupsLive, OwnedOk, Owned;
    var g1 := WhitenedState(g);
    assert forall x :: Live(g1, x) <==> Live(g, x);
    WhitenedBase(g);
    var i := |CurList(g)| - AheadLen(g);
    assert CurList(g)[i..] == [Curr(g)] + CurList(g)[i + 1..];
    forall x | x in g1.heap && x in g1.color ensures g1.color[x] == White(g1.cw) || ToSweep(g1, x) {
      assert x in g.heap && x in g.color;
      assert g.color[x] == White(g.cw) || ToSweep(g, x);
    }
  }

  lemma WhitenedBase(g: Global)
    requires Base(g) && 0 < AheadLen(g) <= |CurList(g)| && Live(g, Curr(g))
    ensures Base(WhitenedState(g))
  {
    hide Points, UpvalsOk, CurList;
    var g1 := WhitenedState(g);
    assert forall x :: Live(g1, x) <==> Live(g, x);
    assert Owned(g1) == Owned(g);
  }

  /** `freeobj` for a thread: all its open upvalues are closed first. */
  method CloseAll(c: Collector, th: Id)
    requires Sweeping(c.g) && th in c.g.heap && c.g.heap[th].Thread?
    modifies c
    ensures Sweeping(c.g) && th in c.g.heap && c.g.heap[th].Thread? && c.g.heap[th].open == []
    ensures SameButUpvalues(old(c.g), c.g) && WhiteKept(old(c.g), c.g)
  {
    hide Base, SweptWhite, Live;
    SameStart(c.g);
    while c.g.heap[th].open != []
      invariant Sweeping(c.g) && th in c.g.heap && c.g.heap[th].Thread? && SameButUpvalues(old(c.g), c.g)
      invariant WhiteKept(old(c.g), c.g)
      decreases |c.g.heap[th].open|
    {
      var uv := c.g.heap[th].open[0];
      OpenIsUpvalue(c.g, th, uv);
      ghost var g1 := c.g;
      CloseInSweep(c, uv);
      WithoutShorter(g1.heap[th].open, uv);
      ghost var col :| OpenHome(g1, uv) && c.g == ClosedState(g1, uv, col);
      SameStep(old(c.g), g1, c.g, uv, col);
    }
  }

  lemma OpenIsUpvalue(g: Global, th: Id, uv: Id)
    requires Base(g) && th in g.heap && g.heap[th].Thread? && uv in g.heap[th].open
    ensures uv in g.heap && g.heap[uv].OpenUp? && g.heap[uv].th == th
  {}

  /** Only upvalues were closed: same objects, same lists, same liveness. */
  ghost predicate SameButUpvalues(g0: Global, g1: Global) {
    && g1 == g0.(heap := g1.heap, color := g1.color)
    && g1.heap.Keys == g0.heap.Keys && (forall o :: Live(g1, o) <==> Live(g0, o))
    && (forall o :: o in g0.heap ==> SameBut(g0.heap, g1.heap, o))
  }

  ghost predicate SameBut(h0: Heap, h1: Heap, o: Id)
    requires o in h0
  {
    && o in h1
    && if h0[o].OpenUp? then h1[o] == h0[o] || h1[o] == ClosedUp(Content(h0, o))
       else if h0[o].Thread? then h1[o].Thread? && h1[o].stack == h0[o].stack
       else h1[o] == h0[o]
  }

  lemma SameStart(g: Global)
    ensures SameButUpvalues(g, g)
  {}

  lemma SameStep(g0: Global, g1: Global, g2: Global, uv: Id, col: Color)
    requires SameButUpvalues(g0, g1) && OpenHome(g1, uv) && g2 == ClosedState(g1, uv, col)
    requires Base(g0) && forall o :: Live(g2, o) <==> Live(g1, o)
    ensures SameButUpvalues(g0, g2)
  {
    hide Live, ClosedState, SameBut, UpvalsOk, OwnedOk, LiveClosed, RootsLive, TwupsLive, MetasOk;
    ClosedFrame(g1, uv, col);
    forall o | o in g0.heap ensures SameBut(g0.heap, g2.heap, o) {
      assert SameBut(g0.heap, g1.heap, o) && SameBut(g0.heap, g1.heap, uv) && SameBut(g0.heap, g1.heap, g1.heap[uv].th);
      SameBody(g0.heap, g1.heap, g2.heap, uv, o);
    }
  }

  lemma SameBody(h0: Heap, h1: Heap, h2: Heap, uv: Id, o: Id)
    requires UpvalsOk(h0) && o in h0 && SameBut(h0, h1, o) && uv in h0 && uv in h1 && h1[uv].OpenUp?
          && SameBut(h0, h1, uv)
    requires var th := h1[uv].th;
      && th in h0 && SameBut(h0, h1, th) && h1[th].Thread? && uv in h2 && h2[uv] == ClosedUp(Content(h1, uv))
      && th != uv
      && th in h2 && h2[th].Thread? && h2[th].stack == h1[th].stack
      && (o in h2 && (o != uv && o != th ==> h2[o] == h1[o]))
    ensures SameBut(h0, h2, o)
  {
    assert h1[uv] == h0[uv];
    HomeKnown(h0, uv);
    SameContent(h0, h1, uv);
  }

  lemma ClosedFrame(g: Global, uv: Id, c: Color)
    requires OpenHome(g, uv)
    ensures var g1, th := ClosedState(g, uv, c), g.heap[uv].th;
      && g1 == g.(heap := g1.heap, color := g1.color) && g1.heap.Keys == g.heap.Keys && th != uv
      && g1.heap[uv] == ClosedUp(Content(g.heap, uv)) && g1.heap[th].Thread? && g1.heap[th].stack == g.heap[th].stack
      && forall o :: o in g.heap && o != uv && o != th ==> g1.heap[o] == g.heap[o]
  {}

  lemma HomeKnown(h: Heap, uv: Id)
    requires UpvalsOk(h) && uv in h && h[uv].OpenUp?
    ensures h[uv].th in h && h[h[uv].th].Thread?
  {}

  lemma SameContent(h0: Heap, h1: Heap, uv: Id)
    requires uv in h0 && h0[uv].OpenUp? && uv in h1 && h1[uv] == h0[uv]
    requires h0[uv].th in h0 && h0[h0[uv].th].Thread? && h0[uv].th in h1 && h1[h0[uv].th].Thread?
          && h1[h0[uv].th].stack == h0[h0[uv].th].stack
    ensures Content(h1, uv) == Content(h0, uv)
  {}

  /** No thread and no upvalue is tied to `o`. */
  ghost predicate Untied(g: Global, o: Id)
    requires o in g.heap
  {
    !g.heap[o].OpenUp? && (g.heap[o].Thread? ==> g.heap[o].open == [])
  }

  /** A thread closes its open upvalues before it is freed; an open upvalue is unlinked from its
      thread (`luaF_unlinkupval`; the value it is left with is freed with it). */
  method Untie(c: Collector, o: Id)
    requires Sweeping(c.g) && o in c.g.heap
    modifies c
    ensures Sweeping(c.g) && SameButUpvalues(old(c.g), c.g) && o in c.g.heap && Untied(c.g, o)
    ensures WhiteKept(old(c.g), c.g)
  {
    hide Base, SweptWhite, Live, ToSweep;
    ghost var g0 := c.g;
    SameStart(c.g);
    if c.g.heap[o].Thread? {
      CloseAll(c, o);
    } else if c.g.heap[o].OpenUp? {
      CloseInSweep(c, o);
      ghost var col :| OpenHome(g0, o) && c.g == ClosedState(g0, o, col);
      SameStep(g0, g0, c.g, o, col);
    }
  }

  lemma CurrRemoved(g: Global)
    requires Sweeping(g) && 0 < AheadLen(g) <= |CurList(g)| && Dead(g, Curr(g)) && Curr(g) in g.heap
          && Curr(g) in g.color
    requires Untied(g, Curr(g))
    ensures var g1 := RemovedState(g, Curr(g), ListLeft(g), PosLeft(g));
      && Sweeping(g1) && g1.phase == g.phase && AheadLen(g1) == AheadLen(g) - 1 && g1.sweep == PosLeft(g)
      && g1.heap.Keys == g.heap.Keys - {Curr(g)} && forall o :: Live(g1, o) <==> Live(g, o)
  {
    hide Base, SweptWhite, Live, Dead, RemovedState, ListLeft, CurList;
    ListLeftCount(g);
    RemovedBase(g, Curr(g), ListLeft(g), PosLeft(g));
    RemovedSwept(g);
    RemovedFields(g, Curr(g), ListLeft(g), PosLeft(g));
    RemovedLen(g);
  }

  /** `freeobj` (lgc.c 711-745) for the object the sweep points to, and its removal from the list. */
  method FreeCurr(c: Collector)
    requires Sweeping(c.g) && 0 < AheadLen(c.g) <= |CurList(c.g)| && Dead(c.g, Curr(c.g)) && Curr(c.g) in c.g.heap
    modifies c
    ensures Sweeping(c.g) && c.g.phase == old(c.g).phase && AheadLen(c.g) == AheadLen(old(c.g)) - 1
    ensures c.g.heap.Keys == old(c.g).heap.Keys - {Curr(old(c.g))}
    ensures c.g.sweep == PosLeft(old(c.g)) && HeapKept(old(c.g).heap, c.g.heap, false) && ListsElse(old(c.g), c.g)
    ensures forall o :: Live(c.g, o) <==> Live(old(c.g), o)
  {
    hide Base, SweptWhite, Live, Dead, Untied, RemovedState, ListLeft;
    ghost var g0 := c.g;
    Untie(c, Curr(c.g));
    SameCurr(g0, c.g);
    CurrRemoved(c.g);
    ghost var g1 := c.g;
    RemovedFields(c.g, Curr(c.g), ListLeft(c.g), PosLeft(c.g));
    c.g := RemovedState(c.g, Curr(c.g), ListLeft(c.g), PosLeft(c.g));
    UntiedKept(g0, g1, c.g);
    UntiedLists(g0, g1, c.g);
  }

  /** One object of a sweep (lgc.c 762-772): a dead object is taken out of its list and freed, any
      other object becomes white. Only an object the program cannot reach is freed. */
  method SweepOne(c: Collector) returns (freed: bool)
    requires Sweeping(c.g) && 0 < AheadLen(c.g)
    modifies c
    ensures Sweeping(c.g) && c.g.phase == old(c.g).phase && AheadLen(c.g) == AheadLen(old(c.g)) - 1
    ensures freed <==> Dead(old(c.g), Curr(old(c.g)))
    ensures c.g.heap.Keys == if freed then old(c.g).heap.Keys - {Curr(old(c.g))} else old(c.g).heap.Keys
    ensures freed ==> !Accessible(old(c.g), Curr(old(c.g)))
    ensures HeapKept(old(c.g).heap, c.g.heap, false) && ListsElse(old(c.g), c.g)
    ensures if freed then c.g.sweep.AtHead? <==> old(c.g).sweep.AtHead? else c.g.sweep.Ahead?
    ensures forall o :: Live(c.g, o) <==> Live(old(c.g), o)
  {
    hide Base, Accessible, Points, SweptWhite;
    SweepPos(c.g);
    var curr := Curr(c.g);
    CurrAllocated(c.g);
    if Dead(c.g, curr) {
      freed := true;
      if Accessible(c.g, curr) { AccessibleLive(c.g, curr); }
      FreeCurr(c);
    } else {
      freed := false;
      KeptSame(c.g.heap, false);
      WhitenedSwept(c.g);
      c.g := WhitenedState(c.g);
    }
  }

  lemma SweepPos(g: Global)
    requires SweptWhite(g)
    ensures AheadLen(g) <= |CurList(g)|
  {}

  lemma SameCurr(g0: Global, g1: Global)
    requires SameButUpvalues(g0, g1) && 0 < AheadLen(g0) <= |CurList(g0)| && Curr(g0) in g0.heap && Dead(g0, Curr(g0))
    requires Base(g0) && Sweeping(g1)
    ensures 0 < AheadLen(g1) <= |CurList(g1)| && Curr(g1) == Curr(g0) && AheadLen(g1) == AheadLen(g0)
    ensures Curr(g1) in g1.heap && Curr(g1) in g1.color && Dead(g1, Curr(g1)) && CurList(g1) == CurList(g0)
  {
    hide LiveClosed, UpvalsOk, RootsLive, TwupsLive, Owned;
    assert !Live(g0, Curr(g0));
    assert !Live(g1, Curr(g1));
  }

  /** A sweep step changes no list but the one it sweeps, and only takes objects out of that. */
  ghost predicate ListsElse(g0: Global, g1: Global) {
    && g1.phase == g0.phase && g1.roots == g0.roots && g1.main == g0.main && g1.cw == g0.cw
    && (!g0.phase.SwpAllGc? ==> g1.allgc == g0.allgc) && (!g0.phase.SwpFinObj? ==> g1.finobj == g0.finobj)
    && (g0.phase.SwpAllGc? || g0.phase.SwpFinObj? ==> g1.tobefnz == g0.tobefnz)
    && (forall o :: o in CurList(g1) ==> o in CurList(g0)) && WhiteKept(g0, g1)
  }

  /** What is white stays so. */
  ghost predicate WhiteKept(g0: Global, g1: Global) {
    && g1.color.Keys <= g0.color.Keys && g1.cw == g0.cw
    && forall o :: o in g1.color && g0.color[o] == White(g0.cw) ==> g1.color[o] == White(g0.cw)
  }

  /** Closing upvalues and freeing an object leaves all others what they hold. */
  lemma UntiedKept(g0: Global, g1: Global, g2: Global)
    requires SameButUpvalues(g0, g1) && g2.heap.Keys <= g1.heap.Keys
    requires forall o :: o in g2.heap ==> g2.heap[o] == g1.heap[o]
    ensures HeapKept(g0.heap, g2.heap, false)
  {
    forall o | o in g2.heap ensures KeptAt(g0.heap, g2.heap, o, false) { assert SameBut(g0.heap, g1.heap, o); }
  }

  lemma UntiedLists(g0: Global, g1: Global, g2: Global)
    requires SameButUpvalues(g0, g1) && InSweep(g1) && 0 < AheadLen(g1) <= |CurList(g1)| && WhiteKept(g0, g1)
    requires g2 == RemovedState(g1, Curr(g1), ListLeft(g1), PosLeft(g1))
    ensures ListsElse(g0, g2)
  {
    assert CurList(g2) == ListLeft(g1);
  }

  lemma RemovedLen(g: Global)
    requires InSweep(g) && 0 < AheadLen(g) <= |CurList(g)|
    ensures AheadLen(RemovedState(g, Curr(g), ListLeft(g), PosLeft(g))) == AheadLen(g) - 1
  {}

  const GCSWEEPMAX: nat := 100

  /** `sweeplist` (lgc.c 755-776): sweep at most `count` objects; a finished list gives a null position. */
  method SweepList(c: Collector, count: nat)
    requires Sweeping(c.g)
    modifies c
    ensures Sweeping(c.g) && c.g.phase == old(c.g).phase
    ensures AheadLen(c.g) == if AheadLen(old(c.g)) <= count then 0 else AheadLen(old(c.g)) - count
    ensures AheadLen(c.g) == 0 <==> c.g.sweep.AtEnd?
    ensures FreedDead(old(c.g), c.g) && HeapKept(old(c.g).heap, c.g.heap, false) && ListsElse(old(c.g), c.g)
  {
    hide Sweeping, HeapKept;
    FreedNothing(c.g);
    KeptSame(c.g.heap, false);
    var i := 0;
    while i < count && AheadLen(c.g) > 0
      invariant Sweeping(c.g) && c.g.phase == old(c.g).phase && FreedDead(old(c.g), c.g)
      invariant HeapKept(old(c.g).heap, c.g.heap, false) && ListsElse(old(c.g), c.g)
      invariant i <= count && AheadLen(c.g) + i == AheadLen(old(c.g))
    {
      ghost var g1 := c.g;
      var freed := SweepOne(c);
      FreedOne(old(c.g), g1, c.g);
      SweepingUpvals(g1);
      KeptChain(old(c.g).heap, g1.heap, c.g.heap, false, false);
      i := i + 1;
    }
    if AheadLen(c.g) == 0 {
      SweepEnds(c.g);
      c.g := c.g.(sweep := AtEnd);
    }
  }

  /** Every object that was live still is, and what is gone was dead. */
  ghost predicate FreedDead(g0: Global, g1: Global) {
    && (forall o :: Live(g1, o) <==> Live(g0, o)) && g1.heap.Keys <= g0.heap.Keys
    && (forall o :: o in g0.heap && o !in g1.heap ==> Dead(g0, o))
  }

  lemma FreedNothing(g: Global)
    ensures FreedDead(g, g)
  {}

  lemma FreedOne(g0: Global, g1: Global, g2: Global)
    requires FreedDead(g0, g1) && Sweeping(g1) && forall o :: Live(g2, o) <==> Live(g1, o)
    requires g2.heap.Keys <= g1.heap.Keys && forall o :: o in g1.heap && o !in g2.heap ==> Dead(g1, o)
    requires Sweeping(g0)
    ensures FreedDead(g0, g2)
  {
    hide SweptWhite, LiveClosed, UpvalsOk, RootsLive, TwupsLive, Owned;
    forall o | o in g0.heap && o !in g2.heap ensures Dead(g0, o) {
      if o in g1.heap { assert !Live(g1, o); assert !Live(g0, o); }
    }
  }

  lemma SweepingUpvals(g: Global)
    requires Sweeping(g)
    ensures UpvalsOk(g.heap)
  {
    hide UpvalsOk, SweptWhite;
  }

  lemma SweepEnds(g: Global)
    requires Sweeping(g) && AheadLen(g) == 0
    ensures Sweeping(g.(sweep := AtEnd)) && forall o :: Live(g.(sweep := AtEnd), o) <==> Live(g, o)
  {
    hide Points, UpvalsOk;
    var g1 := g.(sweep := AtEnd);
    assert Owned(g1) == Owned(g);
    assert CurList(g1) == CurList(g);
    assert CurList(g)[|CurList(g)|..] == [];
    forall x | x in g1.heap && x in g1.color ensures g1.color[x] == White(g1.cw) || ToSweep(g1, x) {
      assert g.color[x] == White(g.cw) || ToSweep(g, x);
    }
  }

  /** `sweeptolive` (lgc.c 782-788): sweep until the position has moved past a live object, or the
      list ends. */
  method SweepToLive(c: Collector)
    requires Sweeping(c.g)
    modifies c
    ensures Sweeping(c.g) && c.g.phase == old(c.g).phase && !c.g.sweep.AtHead? && FreedDead(old(c.g), c.g)
    ensures HeapKept(old(c.g).heap, c.g.heap, false) && ListsElse(old(c.g), c.g)
  {
    hide Sweeping, HeapKept;
    FreedNothing(c.g);
    KeptSame(c.g.heap, false);
    var freed := true;
    while freed && AheadLen(c.g) > 0
      invariant Sweeping(c.g) && c.g.phase == old(c.g).phase && FreedDead(old(c.g), c.g)
      invariant HeapKept(old(c.g).heap, c.g.heap, false) && (!freed ==> !c.g.sweep.AtHead?)
      invariant ListsElse(old(c.g), c.g)
      decreases AheadLen(c.g)
    {
      ghost var g1 := c.g;
      freed := SweepOne(c);
      FreedOne(old(c.g), g1, c.g);
      SweepingUpvals(g1);
      KeptChain(old(c.g).heap, g1.heap, c.g.heap, false, false);
    }
    if AheadLen(c.g) == 0 {
      SweepEnds(c.g);
      c.g := c.g.(sweep := AtEnd);
    }
  }
}
