/** Objects with finalizers, roots, and giving up a cycle. */
module LuaFinal {
  import opened LuaHeap
  import opened LuaMarkSteps
  import opened LuaVisit
  import opened LuaAtomicSteps
  import opened LuaInvariant
  import opened LuaCollector
  import opened LuaSweep
  import opened LuaStep
  import opened LuaMutator
  import opened LuaAlloc

  /** Only lists of objects and roots changed, and the new roots are live. */
  lemma QuietBase(g: Global, g1: Global)
    requires Base(g) && g1 == g.(allgc := g1.allgc, finobj := g1.finobj, tobefnz := g1.tobefnz, roots := g1.roots,
                                 sweep := g1.sweep)
    requires Owned(g1) == Owned(g) && AllLive(g, g1.roots) && forall o :: o in g1.tobefnz ==> o in g.tobefnz
    ensures Base(g1) && SameLive(g, g1)
  {
    hide Points, Owned, UpvalsOk;
    assert forall o :: Live(g1, o) <==> Live(g, o);
  }

  lemma QuietMark(g: Global, g1: Global)
    requires MarkPhaseOk(g) && InMark(g)
          && g1 == g.(allgc := g1.allgc, finobj := g1.finobj, tobefnz := g1.tobefnz, roots := g1.roots)
    ensures MarkPhaseOk(g1)
  {
    hide MarkInv;
    assert Again(g1) == Again(g);
    ListsFree(g, g1, Again(g));
  }

  lemma WithoutParts(s: seq<Id>, t: seq<Id>, x: Id)
    ensures Without(s + t, x) == Without(s, x) + Without(t, x)
  {
    if s == [] {
      assert s + t == t;
    } else {
      assert (s + t)[1..] == s[1..] + t;
      WithoutParts(s[1..], t, x);
    }
  }

  lemma {:induction false} WithoutOne(s: seq<Id>, x: Id)
    requires multiset(s)[x] <= 1
    ensures multiset(s) == multiset(Without(s, x)) + (if x in s then multiset{x} else multiset{})
  {
    if s != [] {
      assert s == [s[0]] + s[1..];
      WithoutOne(s[1..], x);
      if s[0] == x { WithoutNone(s[1..], x); }
    }
  }

  lemma {:induction false} WithoutNone(s: seq<Id>, x: Id)
    requires x !in s
    ensures Without(s, x) == s
  {
    if s != [] { WithoutNone(s[1..], x); }
  }

  /** Where the sweep stands once `o` has left `allgc`. */
  function PosWithout(g: Global, o: Id): SweepPos
    requires SweepPosOk(g)
  {
    if g.phase.SwpAllGc? && g.sweep.Ahead? then Ahead(|Without(g.allgc[|g.allgc| - g.sweep.n..], o)|) else g.sweep
  }

  /** `o` moved from `allgc` to the head of `finobj`. */
  function FinState(g: Global, o: Id): Global
    requires SweepPosOk(g)
  {
    g.(allgc := Without(g.allgc, o), finobj := [o] + g.finobj, sweep := PosWithout(g, o))
  }

  lemma FinOwned(g: Global, o: Id)
    requires OwnedOk(g) && SweepPosOk(g) && o in g.allgc
    ensures Owned(FinState(g, o)) == Owned(g)
  {
    assert Owned(g)[o] <= 1;
    WithoutOne(g.allgc, o);
    assert multiset([o] + g.finobj) == multiset{o} + multiset(g.finobj);
  }

  /** The last `n` elements, with one taken out of the list. */
  lemma TailWithout(l: seq<Id>, n: nat, o: Id)
    requires n <= |l|
    ensures var l1, t := Without(l, o), Without(l[|l| - n..], o); |t| <= |l1| && l1[|l1| - |t|..] == t
  {
    hide Without;
    var pre, suf := l[..|l| - n], l[|l| - n..];
    assert l == pre + suf;
    WithoutParts(pre, suf, o);
  }

  lemma FinAheadAll(g: Global, o: Id)
    requires SweepPosOk(g) && g.phase.SwpAllGc?
    ensures SweepPosOk(FinState(g, o)) && forall x :: x != o && ToSweep(g, x) ==> ToSweep(FinState(g, o), x)
  {
    hide Without;
    var g1 := FinState(g, o);
    var l, l1 := g.allgc, g1.allgc;
    if g.sweep.AtHead? {
      assert l[0..] == l && l1[0..] == l1;
    } else if g.sweep.Ahead? {
      TailWithout(l, g.sweep.n, o);
    } else {
      assert l[|l|..] == [];
    }
  }

  lemma FinAhead(g: Global, o: Id)
    requires SweepPosOk(g) && InSweep(g)
    ensures SweepPosOk(FinState(g, o)) && forall x :: x != o && ToSweep(g, x) ==> ToSweep(FinState(g, o), x)
  {
    hide Without;
    if g.phase.SwpAllGc? {
      FinAheadAll(g, o);
    } else {
      var g1 := FinState(g, o);
      var l, l1 := CurList(g), CurList(g1);
      if g.phase.SwpFinObj? {
        assert l1[1..] == l;
        if g.sweep.AtHead? {
          assert l[0..] == l && l1[0..] == l1;
        } else {
          assert l1[|l1| - AheadLen(g1)..] == l[|l| - AheadLen(g)..];
        }
      } else {
        assert l1 == l;
      }
    }
  }

  lemma FinSwept(g: Global, o: Id)
    requires SweptWhite(g) && InSweep(g) && o in g.color && g.color[o] == White(g.cw)
    ensures SweptWhite(FinState(g, o))
  {
    hide ToSweep;
    var g1 := FinState(g, o);
    FinAhead(g, o);
    forall x | x in g1.heap && x in g1.color ensures g1.color[x] == White(g1.cw) || ToSweep(g1, x) {
      assert g.color[x] == White(g.cw) || ToSweep(g, x);
    }
  }

  lemma Recolored1(g: Global, o: Id)
    requires Base(g) && Live(g, o)
    ensures var g1 := g.(color := g.color[o := White(g.cw)]);
      Base(g1) && SameLive(g, g1) && (SweptWhite(g) ==> SweptWhite(g1))
  {
    hide Points, UpvalsOk, LiveClosed, RootsLive, TwupsLive, Owned, SweptWhite;
    var g1 := g.(color := g.color[o := White(g.cw)]);
    assert forall x :: Live(g1, x) <==> Live(g, x);
    OwnedSame(g, g1);
    OwnedRecolored(g, g1);
    RolesSame(g, g1);
    if SweptWhite(g) { SweptStays(g, g1); }
  }

  lemma PosOk(g: Global)
    requires Inv(g)
    ensures SweepPosOk(g)
  {
    hide Base, MarkInv;
  }

  /** `luaC_checkfinalizer` (lgc.c 927-954): the object moves to `finobj`. In a sweep phase it is swept
      at once, and a position right behind it moves on (here after the move, as the position is a
      count and not a pointer into the object). */
  method CheckFinalizer(c: Collector, o: Id)
    requires Inv(c.g) && Live(c.g, o)
    modifies c
    ensures Inv(c.g) && c.g.phase == old(c.g).phase && FreedDead(old(c.g), c.g)
    ensures o !in old(c.g).allgc ==> c.g == old(c.g)
    ensures o in old(c.g).allgc ==> c.g.finobj == [o] + old(c.g).finobj && o !in c.g.allgc
    ensures o in old(c.g).allgc && !InSweep(c.g) ==> c.g.allgc == Without(old(c.g).allgc, o)
    ensures o in old(c.g).allgc && InSweep(c.g) ==> o in c.g.color && c.g.color[o] == White(c.g.cw)
    ensures HeapKept(old(c.g).heap, c.g.heap, false) && c.g.roots == old(c.g).roots && c.g.main == old(c.g).main
  {
    hide Base, PhaseOk, Inv, SweptWhite, Live, HeapKept, FreedDead, SameLive, ListsElse, FinState;
    PosOk(c.g);
    FreedNothing(c.g);
    KeptSame(c.g.heap, false);
    if o !in c.g.allgc {
      return;  // already marked for finalization
    }
    ghost var g0 := c.g;
    var here := c.g.phase.SwpAllGc? && c.g.sweep.Ahead? && c.g.sweep.n < |c.g.allgc|
             && c.g.allgc[|c.g.allgc| - c.g.sweep.n - 1] == o;
    FinMoved(c.g, o);
    if InSweep(c.g) {
      c.g := c.g.(color := c.g.color[o := White(c.g.cw)]);  // makewhite
    }
    c.g := FinState(c.g, o);
    if here {
      ghost var g2 := c.g;
      SweepToLive(c);
      FinSweptOn(g0, g2, c.g, o);
    }
  }

  ghost function Whitened(g: Global, o: Id): Global {
    if InSweep(g) then g.(color := g.color[o := White(g.cw)]) else g
  }

  lemma FinMoved(g: Global, o: Id)
    requires Inv(g) && Live(g, o) && o in g.allgc && SweepPosOk(g)
    ensures SweepPosOk(Whitened(g, o))
    ensures var g2 := FinState(Whitened(g, o), o);
      && Inv(g2) && SameLive(g, g2) && FreedDead(g, g2) && (InSweep(g) ==> Sweeping(g2))
      && g2.phase == g.phase && g2.heap == g.heap && g2.roots == g.roots && g2.main == g.main
      && g2.finobj == [o] + g.finobj && g2.allgc == Without(g.allgc, o)
      && (InSweep(g) ==> o in g2.color && g2.color[o] == White(g2.cw))
  {
    hide Base, SweptWhite, AllWhite, MarkPhaseOk, Live, FreedDead;
    if InSweep(g) { Recolored1(g, o); }
    var g1 := Whitened(g, o);
    FinDone(g1, o);
    FreedNothing(g);
    SameFreed(g, FinState(g1, o));
  }

  lemma SameFreed(g: Global, g1: Global)
    requires SameLive(g, g1)
    ensures FreedDead(g, g1)
  {}

  lemma FinSweptOn(g0: Global, g2: Global, g3: Global, o: Id)
    requires Inv(g0) && SameLive(g0, g2) && Sweeping(g2) && FreedDead(g2, g3) && Sweeping(g3) && g3.phase == g2.phase
    requires g2.phase.SwpAllGc? && o !in g2.allgc && ListsElse(g2, g3) && Live(g0, o) && g2.color[o] == White(g2.cw)
    ensures Inv(g3) && FreedDead(g0, g3) && g3.finobj == g2.finobj && o !in g3.allgc
    ensures g3.roots == g2.roots && g3.main == g2.main && o in g3.color && g3.color[o] == White(g3.cw)
  {
    hide LiveClosed, UpvalsOk, RootsLive, TwupsLive, SweptWhite, MetasOk;
    FreedSame(g0, g2, g3);
    LiveOn(g2, g3, o);
  }

  lemma LiveOn(g0: Global, g1: Global, o: Id)
    requires FreedDead(g0, g1) && Live(g0, o)
    ensures o in g1.color
  {}

  lemma FreedSame(g0: Global, g2: Global, g3: Global)
    requires SameLive(g0, g2) && FreedDead(g2, g3) && Base(g0) && Base(g2)
    ensures FreedDead(g0, g3)
  {
    hide LiveClosed, UpvalsOk, RootsLive, TwupsLive, Owned;
    forall o | o in g0.heap && o !in g3.heap ensures Dead(g0, o) { assert !Live(g2, o); }
  }

  lemma FinDone(g: Global, o: Id)
    requires Base(g) && PhaseOk(g) && Live(g, o) && o in g.allgc && SweepPosOk(g)
    requires InSweep(g) ==> g.color[o] == White(g.cw)
    ensures Inv(FinState(g, o)) && SameLive(g, FinState(g, o)) && OwnedOk(FinState(g, o))
  {
    hide UpvalsOk, LiveClosed, TwupsLive, SweptWhite, MarkPhaseOk, Points, Owned;
    var g1 := FinState(g, o);
    FinOwned(g, o);
    QuietBase(g, g1);
    if InMark(g) {
      AtEndMark(g);
      QuietMark(g, g1);
    } else if InSweep(g) {
      FinSwept(g, o);
    }
  }

  lemma AtEndMark(g: Global)
    requires MarkPhaseOk(g)
    ensures g.sweep.AtEnd?
  {}

  /** `GCTM` and `udata2finalize` (lgc.c 817-861): the first object waiting for its finalizer
      becomes an ordinary object again and is pushed on the running thread's stack. */
  method RunFinalizer(c: Collector, th: Id)
    requires Inv(c.g) && c.g.phase.CallFin? && c.g.tobefnz != [] && Live(c.g, th) && c.g.heap[th].Thread?
    modifies c
    ensures Inv(c.g) && SameLive(old(c.g), c.g)
    ensures c.g.tobefnz == old(c.g).tobefnz[1..] && c.g.allgc == [old(c.g).tobefnz[0]] + old(c.g).allgc
    ensures c.g.heap == old(c.g).heap[th := Thread(old(c.g).heap[th].stack + [Obj(old(c.g).tobefnz[0])],
        old(c.g).heap[th].open)]
  {
    hide Base, AllWhite, Live, SlotsCover;
    var o := c.g.tobefnz[0];
    ghost var g0 := c.g;
    FnzMoved(c.g);
    LiveColored(c.g, th);
    c.g := c.g.(tobefnz := c.g.tobefnz[1..], allgc := [o] + c.g.allgc);
    StackGrown(g0, c.g, th, o);
    SetStack(c, th, c.g.heap[th].stack + [Obj(o)]);
  }

  lemma FnzMoved(g: Global)
    requires Inv(g) && g.phase.CallFin? && g.tobefnz != []
    ensures var g1 := g.(tobefnz := g.tobefnz[1..], allgc := [g.tobefnz[0]] + g.allgc); Inv(g1) && SameLive(g, g1)
    ensures Live(g, g.tobefnz[0])
  {
    hide UpvalsOk, LiveClosed, TwupsLive, Points, Owned, OwnedOk;
    var g1 := g.(tobefnz := g.tobefnz[1..], allgc := [g.tobefnz[0]] + g.allgc);
    FnzOwned(g);
    QuietBase(g, g1);
  }

  lemma FnzOwned(g: Global)
    requires g.tobefnz != []
    ensures Owned(g.(tobefnz := g.tobefnz[1..], allgc := [g.tobefnz[0]] + g.allgc)) == Owned(g)
  {
    var g1 := g.(tobefnz := g.tobefnz[1..], allgc := [g.tobefnz[0]] + g.allgc);
    assert g.tobefnz == [g.tobefnz[0]] + g.tobefnz[1..];
    assert multiset(g1.allgc) == multiset{g.tobefnz[0]} + multiset(g.allgc);
  }

  /** A thread's stack may grow by a live object. */
  lemma StackGrown(g0: Global, g: Global, th: Id, o: Id)
    requires Base(g) && SameLive(g0, g) && Live(g0, th) && Live(g0, o) && th in g.heap && g.heap[th].Thread?
    ensures Live(g, th) && AllLive(g, g.heap[th].stack + [Obj(o)])
          && SlotsCover(g.heap, g.heap[th].open, |g.heap[th].stack| + 1)
  {
    hide OwnedOk, RootsLive, TwupsLive;
    forall v | v in g.heap[th].stack && v.Obj? ensures Live(g, v.id) { assert Points(g.heap, th, v.id); }
  }

  /** Changing the registry or the metatable of a basic type (lapi.c 922-924): roots need no barrier. */
  method SetRoot(c: Collector, i: nat, v: Ref)
    requires Inv(c.g) && i < |c.g.roots| && AllLive(c.g, [v])
    modifies c
    ensures Inv(c.g) && SameLive(old(c.g), c.g) && c.g == old(c.g).(roots := old(c.g).roots[i := v])
  {
    hide Base, MarkPhaseOk, SweptWhite, AllWhite, AllLive;
    RootSet(c.g, i, v);
    c.g := c.g.(roots := c.g.roots[i := v]);
  }

  lemma RootSet(g: Global, i: nat, v: Ref)
    requires Inv(g) && i < |g.roots| && AllLive(g, [v])
    ensures Inv(g.(roots := g.roots[i := v])) && SameLive(g, g.(roots := g.roots[i := v]))
  {
    hide UpvalsOk, LiveClosed, TwupsLive, SweptWhite, MarkPhaseOk, Points, Owned, OwnedOk;
    var g1 := g.(roots := g.roots[i := v]);
    OwnedSame(g, g1);
    forall r | r in g1.roots && r.Obj? ensures Live(g, r.id) {
      if r !in g.roots { assert r == v; assert v in [v]; }
    }
    QuietBase(g, g1);
    if InMark(g) { QuietMark(g, g1); } else if InSweep(g) { SweptStays(g, g1); }
  }

  /** `fullinc` (lgc.c 1585-1595) in the middle of marking: the marks are given up and a sweep begins;
      the white did not flip, so nothing is dead and nothing is freed. */
  method AbandonCycle(c: Collector)
    requires Inv(c.g) && InMark(c.g)
    modifies c
    ensures Inv(c.g) && c.g.phase.SwpAllGc? && c.g.heap.Keys == old(c.g).heap.Keys && SameLive(old(c.g), c.g)
    ensures HeapKept(old(c.g).heap, c.g.heap, false)
  {
    hide Base;
    ghost var g0 := c.g;
    EnterSweep(c);
    Abandoned(g0, c.g);
  }

  lemma Abandoned(g0: Global, g1: Global)
    requires Inv(g0) && InMark(g0) && FreedDead(g0, g1)
    ensures SameLive(g0, g1)
  {
    hide Points, MarkInv, UpvalsOk, LiveClosed, RootsLive, TwupsLive, Owned;
    MarkDomains(g0);
    MarkAllLive(g0);
  }
}
