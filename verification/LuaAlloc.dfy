/** Allocation, upvalues, roots and finalizers between collector steps. */
module LuaAlloc {
  import opened LuaHeap
  import opened LuaMarkSteps
  import opened LuaVisit
  import opened LuaAtomicSteps
  import opened LuaInvariant
  import opened LuaCollector
  import opened LuaSweep
  import opened LuaStep
  import opened LuaMutator

  // ---------------------------------------------------------------- new objects

  /** A new object fits the heap: its references are live, an open upvalue names a slot of a live
      thread, and a thread has no open upvalues yet. */
  ghost predicate NewOk(g: Global, id: Id, b: Body) {
    && id !in g.heap && RefersLive(g, b) && (b.Thread? ==> b.open == []) && MetaKind(g.heap, b)
    && (b.OpenUp? ==> Live(g, b.th) && g.heap[b.th].Thread? && b.slot < |g.heap[b.th].stack|)
  }

  /** The heap with a new object; a new open upvalue is also linked into its thread's list. */
  function Extended(h: Heap, id: Id, b: Body): Heap {
    if b.OpenUp? && b.th in h && h[b.th].Thread? then
      h[b.th := Thread(h[b.th].stack, [id] + h[b.th].open)][id := b]
    else h[id := b]
  }

  function NewTwups(g: Global, b: Body): seq<Id> {
    if b.OpenUp? && b.th !in g.twups then [b.th] + g.twups else g.twups
  }

  function NewState(g: Global, id: Id, b: Body): Global {
    g.(heap := Extended(g.heap, id, b), color := g.color[id := White(g.cw)], allgc := [id] + g.allgc,
       twups := NewTwups(g, b))
  }

  lemma NewPoints(g: Global, id: Id, b: Body, x: Id, r: Id)
    requires NewOk(g, id, b) && UpvalsOk(g.heap) && x in Extended(g.heap, id, b)
          && Points(Extended(g.heap, id, b), x, r)
    ensures x != id ==> x in g.heap && (Points(g.heap, x, r) || (b.OpenUp? && x == b.th && r == id))
    ensures x == id ==> Refers(b, r) || (b.OpenUp? && b.th in g.heap && Points(g.heap, b.th, r))
  {
    if x == id && b.OpenUp? { assert Obj(r) in g.heap[b.th].stack; }
  }

  lemma NewUpvals(g: Global, id: Id, b: Body)
    requires NewOk(g, id, b) && UpvalsOk(g.heap)
    ensures UpvalsOk(Extended(g.heap, id, b)) && Extended(g.heap, id, b).Keys == g.heap.Keys + {id}
  {
    var h1 := Extended(g.heap, id, b);
    forall uv | uv in h1 && h1[uv].OpenUp?
      ensures h1[uv].th in h1 && h1[h1[uv].th].Thread? && h1[uv].slot < |h1[h1[uv].th].stack|
            && uv in h1[h1[uv].th].open
    {
      hide *;
      NewUpval(g, id, b, uv);
    }
    forall th, uv | th in h1 && h1[th].Thread? && uv in h1[th].open ensures uv in h1 && h1[uv].OpenUp?
      && h1[uv].th == th {
      hide *;
      NewOpen(g, id, b, th, uv);
    }
    NewFrame(g, id, b);
  }

  lemma NewFrame(g: Global, id: Id, b: Body)
    requires NewOk(g, id, b)
    ensures var h1 := Extended(g.heap, id, b);
      && h1.Keys == g.heap.Keys + {id} && h1[id] == b && id !in g.heap
      && (forall o :: o in g.heap && !(b.OpenUp? && o == b.th) ==> h1[o] == g.heap[o])
      && (b.OpenUp? ==> b.th in g.heap && g.heap[b.th].Thread? && b.slot < |g.heap[b.th].stack|)
      && (b.OpenUp? ==> h1[b.th] == Thread(g.heap[b.th].stack, [id] + g.heap[b.th].open))
      && (b.Thread? ==> b.open == [])
  {
    hide RefersLive;
  }

  lemma NewUpval(g: Global, id: Id, b: Body, uv: Id)
    requires NewOk(g, id, b) && UpvalsOk(g.heap) && uv in Extended(g.heap, id, b) && Extended(g.heap, id, b)[uv].OpenUp?
    ensures var h1 := Extended(g.heap, id, b);
      h1[uv].th in h1 && h1[h1[uv].th].Thread? && h1[uv].slot < |h1[h1[uv].th].stack| && uv in h1[h1[uv].th].open
  {
    hide NewOk, Extended;
    NewFrame(g, id, b);
    if uv != id { assert uv in g.heap[g.heap[uv].th].open; }
  }

  lemma NewOpen(g: Global, id: Id, b: Body, th: Id, uv: Id)
    requires NewOk(g, id, b) && UpvalsOk(g.heap) && th in Extended(g.heap, id, b) && Extended(g.heap, id, b)[th].Thread?
    requires uv in Extended(g.heap, id, b)[th].open
    ensures var h1 := Extended(g.heap, id, b); uv in h1 && h1[uv].OpenUp? && h1[uv].th == th
  {
    hide NewOk, Extended;
    NewFrame(g, id, b);
    if uv != id { assert th in g.heap && uv in g.heap[th].open; }
  }

  lemma NewLive(g: Global, id: Id, b: Body)
    requires Base(g) && NewOk(g, id, b)
    ensures forall o :: Live(NewState(g, id, b), o) <==> Live(g, o) || o == id
    ensures LiveClosed(NewState(g, id, b))
  {
    hide Points, Owned, UpvalsOk, TwupsLive, Refers, RootsLive;
    var g1 := NewState(g, id, b);
    NewUpvals(g, id, b);
    assert forall o :: Live(g1, o) <==> Live(g, o) || o == id;
    forall x, r | x in g1.heap && Live(g1, x) && Points(g1.heap, x, r) ensures Live(g1, r) {
      NewPoints(g, id, b, x, r);
    }
  }

  lemma NewOwned(g: Global, id: Id, b: Body)
    requires OwnedOk(g) && NewOk(g, id, b) && Extended(g.heap, id, b).Keys == g.heap.Keys + {id}
    ensures OwnedOk(NewState(g, id, b))
  {
    assert id !in g.heap;
    hide Refers, NewOk, Extended, NewTwups;
    var g1 := NewState(g, id, b);
    assert multiset(g1.allgc) == multiset{id} + multiset(g.allgc);
    assert Owned(g1) == Owned(g) + multiset{id};
  }

  lemma NewMetas(g: Global, id: Id, b: Body)
    requires MetasOk(g) && NewOk(g, id, b) && g.heap.Keys == g.color.Keys
    ensures MetasOk(NewState(g, id, b))
  {
    hide Refers;
    var g1 := NewState(g, id, b);
    assert forall o :: o in g.heap && g.heap[o].Table? ==> g1.heap[o] == g.heap[o];
    forall o | o in g1.heap && Live(g1, o) ensures MetaKind(g1.heap, g1.heap[o]) {
      if o != id && g1.heap[o].Table? { assert Live(g, o) && MetaKind(g.heap, g.heap[o]); }
    }
  }

  lemma NewBase(g: Global, id: Id, b: Body)
    requires Base(g) && NewOk(g, id, b)
    ensures Base(NewState(g, id, b)) && forall o :: Live(NewState(g, id, b), o) <==> Live(g, o) || o == id
  {
    assert g.heap.Keys == g.color.Keys;
    hide UpvalsOk, OwnedOk, LiveClosed, MetasOk, RootsLive, TwupsLive, NewOk, Live;
    NewMetas(g, id, b);
    NewUpvals(g, id, b);
    NewOwned(g, id, b);
    NewLive(g, id, b);
    NewRoles(g, id, b);
    assert NewState(g, id, b).heap == Extended(g.heap, id, b);
  }

  lemma NewRoles(g: Global, id: Id, b: Body)
    requires NewOk(g, id, b) && RootsLive(g) && TwupsLive(g)
    requires forall o :: Live(NewState(g, id, b), o) <==> Live(g, o) || o == id
    ensures RootsLive(NewState(g, id, b)) && TwupsLive(NewState(g, id, b))
  {
    hide Refers, RefersLive;
    var g1 := NewState(g, id, b);
    NewKinds(g, id, b);
    LiveAllocated(g);
    LiveAllocated(g1);
  }

  lemma NewKinds(g: Global, id: Id, b: Body)
    requires NewOk(g, id, b)
    ensures var h1 := Extended(g.heap, id, b);
      (forall o :: o in g.heap && g.heap[o].Thread? ==> h1[o].Thread?
                                                        && ((b.OpenUp? && o == b.th) || h1[o] == g.heap[o]))
      && (forall o :: o in h1 && o != id && h1[o].Thread? ==> o in g.heap && g.heap[o].Thread?)
  {
    hide Refers, Live;
  }

  lemma NewDone(g: Global, id: Id, b: Body, x: Id)
    requires NewOk(g, id, b) && UpvalsOk(g.heap) && g.heap.Keys == g.color.Keys && x in g.heap && Done(g, x)
          && !(b.OpenUp? && x == b.th)
    requires x in NewState(g, id, b).heap
    ensures Done(NewState(g, id, b), x)
  {
    hide Points, Refers, UpvalsOk, NewOk;
    var g1 := NewState(g, id, b);
    assert NewOk(g, id, b);
    assert id !in g.heap by { NewAway(g, id, b); }
    forall r | Points(g1.heap, x, r) ensures NonWhite(g1, r) { NewPoints(g, id, b, x, r); }
  }

  lemma NewAway(g: Global, id: Id, b: Body)
    requires NewOk(g, id, b)
    ensures id !in g.heap && (b.OpenUp? ==> b.th in g.heap && b.th in g.color && g.heap[b.th].Thread?)
  {}

  lemma NewOther(g: Global, id: Id, b: Body, x: Id)
    requires MarkInv(g, Again(g)) && NewOk(g, id, b) && x in g.heap && x in g.color && g.weak == [] && g.ephemeron == []
    ensures x in NewState(g, id, b).heap && x in NewState(g, id, b).color && ObjOk(NewState(g, id, b), Again(g), x)
  {
    hide Lists, Points, Refers, NewOk, Done, ListedOk, TwupOk, Again, UpvalsOk;
    var g1 := NewState(g, id, b);
    NewAway(g, id, b);
    KeepDomains(g);
    assert ObjOk(g, Again(g), x);
    assert ColorOk(g, Again(g), x);
    if g.color[x].Black? && x !in Again(g) { NewDone(g, id, b, x); }
    ObjKept(g, g1, Again(g), x);
  }

  lemma NewSelf(g: Global, id: Id, b: Body)
    requires AllAllocated(g) && NewOk(g, id, b)
    ensures id in NewState(g, id, b).heap && ObjOk(NewState(g, id, b), Again(g), id)
  {
    hide Points, Refers, Live;
    SameLists(g, NewState(g, id, b));
  }

  lemma NewInside(g: Global, id: Id, b: Body, x: Id, r: Id)
    requires AllAllocated(g) && NewOk(g, id, b) && x in Extended(g.heap, id, b) && Points(Extended(g.heap, id, b), x, r)
    ensures r in Extended(g.heap, id, b)
  {
    hide Points, Refers, Lists, UpvalsOk;
    NewUpvals(g, id, b);
    NewPoints(g, id, b, x, r);
  }

  lemma NewMark(g: Global, id: Id, b: Body)
    requires MarkInv(g, Again(g)) && NewOk(g, id, b) && g.weak == [] && g.ephemeron == []
    ensures MarkInv(NewState(g, id, b), Again(NewState(g, id, b)))
  {
    hide Lists, Points, Refers, ObjOk, NewOk, Again, UpvalsOk, Extended;
    var g1 := NewState(g, id, b);
    SameLists(g, g1);
    KeepDomains(g);
    NewAway(g, id, b);
    NewUpvals(g, id, b);
    AgainNew(g, id, b);
    forall x, r | x in g1.heap && Points(g1.heap, x, r) ensures r in g1.heap { NewInside(g, id, b, x, r); }
    forall x | x in g1.heap ensures ObjOk(g1, Again(g), x) {
      if x == id { NewSelf(g, id, b); } else { NewOther(g, id, b, x); }
    }
  }

  lemma AgainNew(g: Global, id: Id, b: Body)
    requires NewOk(g, id, b) && g.heap.Keys == g.color.Keys
    ensures Again(NewState(g, id, b)) == Again(g)
  {
    hide Refers, Live;
    var g1 := NewState(g, id, b);
    assert forall o :: o in g.heap ==> (g1.heap[o].OpenUp? <==> g.heap[o].OpenUp?);
  }

  lemma NewSwept(g: Global, id: Id, b: Body)
    requires SweptWhite(g) && id !in g.heap && g.heap.Keys == g.color.Keys
    requires Extended(g.heap, id, b).Keys == g.heap.Keys + {id} && InSweep(g)
    ensures SweptWhite(NewState(g, id, b))
  {
    var g1 := NewState(g, id, b);
    NewAhead(g, id, b);
    forall o | o in g1.heap && o in g1.color ensures g1.color[o] == White(g1.cw) || ToSweep(g1, o) {
      if o != id { assert g.color[o] == White(g.cw) || ToSweep(g, o); }
    }
  }

  lemma NewAhead(g: Global, id: Id, b: Body)
    requires SweepPosOk(g) && InSweep(g)
    ensures SweepPosOk(NewState(g, id, b)) && forall o :: ToSweep(g, o) ==> ToSweep(NewState(g, id, b), o)
  {
    var g1 := NewState(g, id, b);
    var l, l1 := CurList(g), CurList(g1);
    if g.phase.SwpAllGc? {
      assert l1[1..] == l;
      if g.sweep.AtHead? {
        assert l[0..] == l && l1[0..] == l1;
      } else {
        assert l1[|l1| - AheadLen(g1)..] == l[|l| - AheadLen(g)..];
      }
    } else {
      assert l1 == l;
    }
  }

  /** `luaC_newobj` (lgc.c 240-248) for an object with its first contents, and `newupval` (lfunc.c 65-81)
      for an open upvalue: the object has the current white and is at the head of `allgc`. */
  method NewObject(c: Collector, id: Id, b: Body)
    requires Inv(c.g) && NewOk(c.g, id, b)
    modifies c
    ensures Inv(c.g) && c.g == NewState(old(c.g), id, b)
    ensures forall o :: Live(c.g, o) <==> Live(old(c.g), o) || o == id
  {
    hide Base, MarkInv, SweptWhite, Again, Refers, Live;
    NewBase(c.g, id, b);
    NewPhase(c.g, id, b);
    c.g := NewState(c.g, id, b);
  }

  lemma NewPhase(g: Global, id: Id, b: Body)
    requires Inv(g) && NewOk(g, id, b)
    ensures PhaseOk(NewState(g, id, b))
  {
    hide MarkInv, SweptWhite, Again, Refers, Live, UpvalsOk, LiveClosed, RootsLive, TwupsLive, Owned;
    var g1 := NewState(g, id, b);
    if InMark(g) {
      NewMark(g, id, b);
      MarkDomains(g);
    } else if InSweep(g) {
      assert UpvalsOk(g.heap);
      NewUpvals(g, id, b);
      NewSwept(g, id, b);
    }
  }

  /** An open upvalue of the thread's slot. */
  predicate SlotOpen(g: Global, th: Id, slot: nat, uv: Id) {
    && th in g.heap && g.heap[th].Thread? && uv in g.heap[th].open && uv in g.heap && g.heap[uv].OpenUp?
    && g.heap[uv].slot == slot
  }

  /** `luaF_findupval` (lfunc.c 88-100): the open upvalue of a stack slot, found or made. */
  method FindUpval(c: Collector, th: Id, slot: nat, spare: Id) returns (uv: Id)
    requires Inv(c.g) && Live(c.g, th) && c.g.heap[th].Thread? && slot < |c.g.heap[th].stack| && spare !in c.g.heap
    modifies c
    ensures Inv(c.g) && Live(c.g, uv) && c.g.heap[uv] == OpenUp(th, slot) && uv in c.g.heap[th].open
    ensures forall o :: Live(old(c.g), o) ==> Live(c.g, o)
    ensures if exists u :: SlotOpen(old(c.g), th, slot, u) then c.g == old(c.g) && SlotOpen(old(c.g), th, slot, uv)
            else uv == spare && c.g == NewState(old(c.g), spare, OpenUp(th, slot))
  {
    hide Inv, Live;
    LiveColored(c.g, th);
    OpensKnown(c.g, th);
    var open := c.g.heap[th].open;
    for i := 0 to |open|
      invariant forall j :: 0 <= j < i ==> !SlotOpen(c.g, th, slot, open[j])
    {
      if c.g.heap[open[i]].OpenUp? && c.g.heap[open[i]].slot == slot {
        return open[i];
      }
    }
    assert NewOk(c.g, spare, OpenUp(th, slot));
    NewObject(c, spare, OpenUp(th, slot));
    uv := spare;
  }

  lemma OpensKnown(g: Global, th: Id)
    requires Inv(g) && Live(g, th) && g.heap[th].Thread?
    ensures forall uv :: uv in g.heap[th].open ==>
              Live(g, uv) && uv in g.heap && g.heap[uv].OpenUp? && g.heap[uv].th == th
  {
    hide PhaseOk, OwnedOk, RootsLive, TwupsLive;
    forall uv | uv in g.heap[th].open ensures Live(g, uv) { assert Points(g.heap, th, uv); }
  }

  // ---------------------------------------------------------------- closing an upvalue

  lemma ClosedMarkSelf(g: Global, uv: Id, c: Color)
    requires MarkInv(g, Again(g)) && OpenHome(g, uv) && uv in g.color
          && c == if g.color[uv].White? then g.color[uv] else Black
    ensures ObjOk(ClosedState(g, uv, c), Again(g), uv)
  {
    hide Points, Lists;
    UpNotListed(g, uv);
    SameLists(g, ClosedState(g, uv, c));
    assert ObjOk(g, Again(g), uv);
    if g.color[uv].Gray? { assert uv in GrayUps(g); }
  }

  lemma ClosedMarkOther(g: Global, uv: Id, c: Color, x: Id)
    requires MarkInv(g, Again(g)) && OpenHome(g, uv) && x in g.heap && x in g.color && g.weak == [] && g.ephemeron == []
    requires x != uv && uv in g.color && c == if g.color[uv].White? then g.color[uv] else Black
    ensures ObjOk(ClosedState(g, uv, c), Again(g), x)
  {
    hide Lists, Points, Content, Done, ListedOk, TwupOk, Again, UpvalsOk;
    var g1 := ClosedState(g, uv, c);
    KeepDomains(g);
    assert ObjOk(g, Again(g), x);
    assert ColorOk(g, Again(g), x);
    WithoutEmpty(g.heap[g.heap[uv].th].open, uv);
    if g.color[x].Black? && x !in Again(g) { ClosedDone1(g, uv, c, x); }
    ObjKept(g, g1, Again(g), x);
  }

  lemma ClosedDone1(g: Global, uv: Id, c: Color, x: Id)
    requires OpenHome(g, uv) && UpvalsOk(g.heap) && uv in g.color
          && c == (if g.color[uv].White? then g.color[uv] else Black) && x in g.heap && Done(g, x)
    ensures Done(ClosedState(g, uv, c), x)
  {
    hide Points, UpvalsOk, Content;
    var g1 := ClosedState(g, uv, c);
    forall r | Points(g1.heap, x, r) ensures NonWhite(g1, r) { ClosedPoints(g, uv, c, x, r); }
  }

  lemma WithoutEmpty(s: seq<Id>, x: Id)
    ensures s == [] ==> Without(s, x) == []
  {}

  lemma UpNotListed(g: Global, uv: Id)
    requires MarkInv(g, Again(g)) && uv in g.heap && g.heap[uv].OpenUp?
    ensures uv !in Lists(g) && uv !in g.gray && uv !in g.grayagain && uv !in g.weak && uv !in g.allweak
          && uv !in g.ephemeron
  {
    hide Points;
    assert ObjOk(g, Again(g), uv);
    NotListed(g, uv);
  }

  lemma ClosedMark(g: Global, uv: Id, c: Color)
    requires MarkInv(g, Again(g)) && OpenHome(g, uv) && g.weak == [] && g.ephemeron == []
    requires uv in g.color && c == if g.color[uv].White? then g.color[uv] else Black
    ensures MarkInv(ClosedState(g, uv, c), Again(g))
    ensures Again(g) == if c.White? then Again(ClosedState(g, uv, c)) else Again(ClosedState(g, uv, c)) + {uv}
    ensures uv !in Again(ClosedState(g, uv, c)) && uv !in Lists(ClosedState(g, uv, c))
  {
    hide Lists, Points, ObjOk, Content, UpvalsOk, ClosedState, Again;
    var g1 := ClosedState(g, uv, c);
    KeepDomains(g);
    ClosedAgain(g, uv, c);
    SameLists(g, g1);
    UpNotListed(g, uv);
    ClosedUpvals(g, uv, c);
    forall x, r | x in g1.heap && Points(g1.heap, x, r) ensures r in g1.heap { ClosedPoints(g, uv, c, x, r); }
    forall x | x in g1.heap ensures ObjOk(g1, Again(g), x) {
      if x == uv { ClosedMarkSelf(g, uv, c); } else { ClosedMarkOther(g, uv, c, x); }
    }
  }

  lemma ClosedAgain(g: Global, uv: Id, c: Color)
    requires MarkInv(g, Again(g)) && OpenHome(g, uv) && uv in g.color
          && c == if g.color[uv].White? then g.color[uv] else Black
    ensures var g1 := ClosedState(g, uv, c);
      && Again(g) == (if c.White? then Again(g1) else Again(g1) + {uv}) && uv !in Again(g1)
      && g1 == g.(heap := g1.heap, color := g1.color) && g1.heap.Keys == g.heap.Keys && g1.color.Keys == g.color.Keys
  {
    hide Lists, MarkInv, Content;
    var g1 := ClosedState(g, uv, c);
    UpNotListed(g, uv);
    assert forall o :: o in g.heap && o != uv ==> (g1.heap[o].OpenUp? <==> g.heap[o].OpenUp?);
    if g.color[uv].Gray? { assert uv in GrayUps(g); } else { NotBlackUp(g, uv); }
    assert GrayUps(g) == if c.White? then GrayUps(g1) else GrayUps(g1) + {uv};
  }

  lemma NotBlackUp(g: Global, uv: Id)
    requires MarkInv(g, Again(g)) && uv in g.heap && g.heap[uv].OpenUp? && uv in g.color && !g.color[uv].Gray?
    ensures g.color[uv].White?
  {
    hide Points, Lists;
    assert ObjOk(g, Again(g), uv);
    UpNotListed(g, uv);
  }

  lemma CloseSettled(g1: Global, g2: Global, uv: Id, v: Ref)
    requires MarkedMore(g1, g2) && Marking(g2, Again(g1) + {uv}, g2.heap.Keys)
    requires uv in g1.heap && g1.heap[uv] == ClosedUp(v) && uv in g1.color && g1.color[uv].Black? && uv !in Lists(g1)
          && uv !in Again(g1)
    requires RefMarked(g2, v)
    ensures MarkInv(g2, Again(g2))
  {
    hide Lists;
    ForwardSettled(g1, g2, uv, ClosedUp(v), v);
  }

  /** `luaF_close` (lfunc.c 223-242) for one open upvalue: its value moves into it; if it was marked it
      becomes black and its value is marked by the barrier. */
  method CloseUpval(c: Collector, uv: Id)
    requires Inv(c.g) && uv in c.g.heap && c.g.heap[uv].OpenUp?
    modifies c
    ensures Inv(c.g) && OpenHome(old(c.g), uv) && SameLive(old(c.g), c.g)
    ensures c.g.heap == ClosedState(old(c.g), uv, Black).heap
  {
    hide Base, MarkPhaseOk, SweptWhite, AllWhite, Lists, Marking, MarkedMore, MarkInv, Again, Content, OpenHome,
      ClosedState;
    HomeOf(c.g, uv);
    ghost var g0 := c.g;
    if InSweep(c.g) {
      CloseInSweep(c, uv);
      ghost var col :| OpenHome(g0, uv) && c.g == ClosedState(g0, uv, col);
      ClosedFields(g0, uv, col);
    } else {
      var v := Content(c.g.heap, uv);
      var col := if c.g.color[uv].White? then c.g.color[uv] else Black;
      ClosedInv(g0, uv, col);
      c.g := ClosedState(c.g, uv, col);
      ClosedFields(g0, uv, col);
      if col.Black? {
        ClosedDue(g0, c.g, uv, v);
        c.MarkRef(v, Again(c.g) + {uv}, c.g.heap.Keys);
        ClosedDone(g0, ClosedState(g0, uv, col), c.g, uv, v);
      }
    }
  }

  lemma ClosedFields(g: Global, uv: Id, c: Color)
    requires OpenHome(g, uv)
    ensures var g1 := ClosedState(g, uv, c); g1.heap == ClosedState(g, uv, Black).heap && g1.phase == g.phase
                                             && g1.heap.Keys == g.heap.Keys
  {}

  lemma ClosedInv(g: Global, uv: Id, c: Color)
    requires Inv(g) && OpenHome(g, uv) && !InSweep(g) && uv in g.color
    requires c == if g.color[uv].White? then g.color[uv] else Black
    ensures Base(ClosedState(g, uv, c)) && SameLive(g, ClosedState(g, uv, c))
    ensures c.White? ==> Inv(ClosedState(g, uv, c))
    ensures c.Black? ==> InMark(g)
  {
    hide Points, Lists, OwnedOk, UpvalsOk, LiveClosed, RootsLive, TwupsLive, MarkInv, Again, Content;
    ClosedBase(g, uv, c);
    if InMark(g) {
      ClosedMark(g, uv, c);
    }
  }

  lemma ClosedDue(g: Global, g1: Global, uv: Id, v: Ref)
    requires Inv(g) && OpenHome(g, uv) && InMark(g) && uv in g.color && !g.color[uv].White?
          && g1 == ClosedState(g, uv, Black)
    requires v == Content(g.heap, uv)
    ensures Marking(g1, Again(g1) + {uv}, g1.heap.Keys) && Markable(g1, g1.heap.Keys, v)
    ensures g1.heap[uv] == ClosedUp(v) && g1.color[uv].Black? && uv !in Again(g1) && uv !in Lists(g1)
  {
    hide Points, Lists, OwnedOk, UpvalsOk, LiveClosed, RootsLive, TwupsLive, ObjOk, Again, Content, Bounded;
    ClosedMark(g, uv, Black);
    KeepDomains(g);
    UniversalBound(g1, Again(g1) + {uv});
    assert g1.heap[uv] == ClosedUp(v);
    if v.Obj? { assert Points(g1.heap, uv, v.id) by { SelfPoints(g1.heap, uv, v.id); } }
  }

  lemma SelfPoints(h: Heap, uv: Id, r: Id)
    requires uv in h && h[uv] == ClosedUp(Obj(r))
    ensures Points(h, uv, r)
  {}

  lemma ClosedDone(g0: Global, g1: Global, g2: Global, uv: Id, v: Ref)
    requires Inv(g0) && OpenHome(g0, uv) && InMark(g0) && uv in g0.color && !g0.color[uv].White?
          && g1 == ClosedState(g0, uv, Black)
    requires v == Content(g0.heap, uv) && Base(g1) && SameLive(g0, g1)
    requires Marking(g2, Again(g1) + {uv}, g1.heap.Keys) && MarkedMore(g1, g2) && RefMarked(g2, v)
    ensures Inv(g2) && SameLive(g0, g2) && g2.heap == g1.heap
  {
    hide Points, Lists, OwnedOk, UpvalsOk, LiveClosed, RootsLive, TwupsLive, ObjOk, Again, Content, Bounded,
      AllAllocated;
    ClosedMark(g0, uv, Black);
    assert uv !in Again(g1) && uv !in Lists(g1);
    CloseSettled(g1, g2, uv, v);
    MarkDomains(g0);
    MarkAllLive(g0);
    MarkedInv(g1, g2);
  }
}
