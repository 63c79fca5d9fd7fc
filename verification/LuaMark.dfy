/** How the marking invariant moves through one elementary change of the collector's state.
    Every such change concerns one object: its colour, its gray list, or the visit owed to it. */
module LuaMarkSteps {
  import opened LuaHeap

  /** Nothing changed for `o`: neither its colour nor its lists nor the visit owed to it. */
  ghost predicate Same(g0: Global, p0: set<Id>, g1: Global, p1: set<Id>, o: Id) {
    && (o in p0 <==> o in p1) && Lists(g0)[o] == Lists(g1)[o]
    && (o in g0.gray <==> o in g1.gray) && (o in g0.grayagain <==> o in g1.grayagain)
    && (o in g0.weak <==> o in g1.weak) && (o in g0.allweak <==> o in g1.allweak)
    && (o in g0.ephemeron <==> o in g1.ephemeron) && (o in g0.twups <==> o in g1.twups)
  }

  /** The states differ at most at `x`; there, marks grow and dead keys may be dropped. */
  ghost predicate OnlyAt(g0: Global, p0: set<Id>, g1: Global, p1: set<Id>, x: Id) {
    && g0.heap.Keys == g0.color.Keys && x in g0.heap && x in g1.heap && x in g1.color
    && g1.heap == g0.heap[x := g1.heap[x]] && BodyCleared(g0.heap[x], g1.heap[x])
    && g1.color == g0.color[x := g1.color[x]] && (g1.color[x] == g0.color[x] || !g1.color[x].White?)
    && g1.cw == g0.cw
    && forall o :: o != x ==> Same(g0, p0, g1, p1, o)
  }

  lemma PointsShrink(h0: Heap, h1: Heap, o: Id, r: Id)
    requires Cleared(h0, h1) && o in h0 && Points(h1, o, r)
    ensures Points(h0, o, r)
  {
    assert BodyCleared(h0[o], h1[o]);
    if h0[o].OpenUp? {
      assert BodyCleared(h0[h0[o].th], h1[h0[o].th]);
    } else if h0[o].Table? && h1[o].mt != Obj(r) {
      if Obj(r) in h1[o].arr {
        var i :| 0 <= i < |h1[o].arr| && h1[o].arr[i] == Obj(r);
        assert h0[o].arr[i] == Obj(r);
      } else {
        var n :| n in h1[o].nodes && NodeRefs(n, r);
        var i :| 0 <= i < |h1[o].nodes| && h1[o].nodes[i] == n;
        assert NodeCleared(h0[o].nodes[i], n);
        assert NodeRefs(h0[o].nodes[i], r);
      }
    }
  }

  lemma DoneKept(g0: Global, g1: Global, o: Id)
    requires Cleared(g0.heap, g1.heap) && ColorsGrow(g0, g1) && o in g0.heap && Done(g0, o)
    ensures Done(g1, o)
  {
    hide Points;
    forall r | Points(g1.heap, o, r) ensures NonWhite(g1, r) {
      PointsShrink(g0.heap, g1.heap, o, r);
    }
  }

  /** The object itself is as it was; around it, marks grew and entries were cleared. */
  ghost predicate Untouched(g0: Global, p0: set<Id>, g1: Global, p1: set<Id>, o: Id) {
    && Cleared(g0.heap, g1.heap) && ColorsGrow(g0, g1) && g1.cw == g0.cw
    && o in g0.heap && o in g0.color && g1.heap[o] == g0.heap[o] && g1.color[o] == g0.color[o]
    && Same(g0, p0, g1, p1, o)
  }

  lemma UntouchedListed(g0: Global, p0: set<Id>, g1: Global, p1: set<Id>, o: Id)
    requires Untouched(g0, p0, g1, p1, o) && ListedOk(g0, p0, o)
    ensures ListedOk(g1, p1, o)
  {
    hide Points, Lists;
    if o in g0.grayagain && o !in p0 { DoneKept(g0, g1, o); }
  }

  /** A thread that was to be visited still is, or its visit is done. */
  ghost predicate StillCovers(g0: Global, p0: set<Id>, g1: Global, p1: set<Id>, th: Id) {
    th in g0.gray || th in p0 ==> th in g1.gray || th in p1 || (th in g1.heap && Done(g1, th))
  }

  lemma UntouchedColor(g0: Global, p0: set<Id>, g1: Global, p1: set<Id>, o: Id)
    requires Untouched(g0, p0, g1, p1, o) && ColorOk(g0, p0, o)
    requires g0.heap[o].OpenUp? ==> StillCovers(g0, p0, g1, p1, g0.heap[o].th)
    ensures ColorOk(g1, p1, o)
  {
    hide Points, Lists;
    if Done(g0, o) { DoneKept(g0, g1, o); }
    if g0.heap[o].OpenUp? {
      var th := g0.heap[o].th;
      if th in g1.heap && Done(g1, th) { CoveredByThread(g1, o); }
    }
  }

  /** When a thread's whole stack is marked, so are the values of its open upvalues. */
  lemma CoveredByThread(g: Global, uv: Id)
    requires uv in g.heap && g.heap[uv].OpenUp? && g.heap[uv].th in g.heap && Done(g, g.heap[uv].th)
    ensures Done(g, uv)
  {
    forall r | Points(g.heap, uv, r) ensures NonWhite(g, r) {
      assert Points(g.heap, g.heap[uv].th, r);
    }
  }

  lemma UpvalsKept(h0: Heap, h1: Heap)
    requires Cleared(h0, h1) && UpvalsOk(h0)
    ensures UpvalsOk(h1)
  {
    ClearedKeys(h0, h1);
    forall uv | uv in h1 && h1[uv].OpenUp?
      ensures h1[uv].th in h1 && h1[h1[uv].th].Thread? && h1[uv].slot < |h1[h1[uv].th].stack|
            && uv in h1[h1[uv].th].open
    {
      hide *;
      UpvalKept(h0, h1, uv);
    }
    forall th, uv | th in h1 && h1[th].Thread? && uv in h1[th].open ensures uv in h1 && h1[uv].OpenUp?
      && h1[uv].th == th {
      hide *;
      OpenKept(h0, h1, th, uv);
    }
  }

  lemma UpvalKept(h0: Heap, h1: Heap, uv: Id)
    requires Cleared(h0, h1) && UpvalsOk(h0) && uv in h1 && h1[uv].OpenUp?
    ensures h1[uv].th in h1 && h1[h1[uv].th].Thread? && h1[uv].slot < |h1[h1[uv].th].stack| && uv in h1[h1[uv].th].open
  {
    hide Cleared;
    ClearedKeys(h0, h1);
    OpenSame(h0, h1, uv);
    OpenSame(h0, h1, h0[uv].th);
  }

  lemma OpenKept(h0: Heap, h1: Heap, th: Id, uv: Id)
    requires Cleared(h0, h1) && UpvalsOk(h0) && th in h1 && h1[th].Thread? && uv in h1[th].open
    ensures uv in h1 && h1[uv].OpenUp? && h1[uv].th == th
  {
    hide Cleared;
    ClearedKeys(h0, h1);
    OpenSame(h0, h1, th);
    OpenSame(h0, h1, uv);
  }

  lemma ClearedKeys(h0: Heap, h1: Heap)
    requires Cleared(h0, h1)
    ensures h1.Keys == h0.Keys
  {}

  lemma OpenSame(h0: Heap, h1: Heap, o: Id)
    requires Cleared(h0, h1) && o in h0
    ensures o in h1 && (h0[o].OpenUp? || h0[o].Thread? || h1[o].OpenUp? || h1[o].Thread? ==> h1[o] == h0[o])
  {
    assert BodyCleared(h0[o], h1[o]);
  }

  lemma AllocatedKept(g0: Global, p0: set<Id>, g1: Global, p1: set<Id>, x: Id)
    requires OnlyAt(g0, p0, g1, p1, x) && AllAllocated(g0)
    ensures AllAllocated(g1)
  {
    hide Points, Lists, UpvalsOk;
    assert Cleared(g0.heap, g1.heap);
    UpvalsKept(g0.heap, g1.heap);
    forall o, r | o in g1.heap && Points(g1.heap, o, r) ensures r in g1.heap {
      PointsShrink(g0.heap, g1.heap, o, r);
    }
    forall o | o in Lists(g1) ensures o in g1.heap {
      if o != x { assert Same(g0, p0, g1, p1, o); }
    }
  }

  /** The one-object principle: whoever changes one object only has to show that object right. */
  lemma OneChanged(g0: Global, p0: set<Id>, g1: Global, p1: set<Id>, x: Id)
    requires MarkInv(g0, p0) && OnlyAt(g0, p0, g1, p1, x)
    requires g0.heap[x].Thread? ==> StillCovers(g0, p0, g1, p1, x)
    requires ObjOk(g1, p1, x)
    ensures MarkInv(g1, p1)
  {
    hide AllAllocated, StillCovers, ObjOk, OnlyAt;
    AllocatedKept(g0, p0, g1, p1, x);
    KeepUpvals(g0);
    KeepUpvals(g1);
    forall o | o in g1.heap ensures ObjOk(g1, p1, o) {
      if o != x { OtherKept(g0, p0, g1, p1, x, o); }
    }
  }

  lemma OtherKept(g0: Global, p0: set<Id>, g1: Global, p1: set<Id>, x: Id, o: Id)
    requires MarkInv(g0, p0) && OnlyAt(g0, p0, g1, p1, x) && o in g1.heap && o != x
    requires g0.heap[x].Thread? ==> StillCovers(g0, p0, g1, p1, x)
    ensures o in g1.color && ObjOk(g1, p1, o)
  {
    hide Points, Lists, ListedOk, ColorOk, AllAllocated, StillCovers, Cleared, ColorsGrow, BodyCleared;
    KeepUpvals(g0);
    OnlyGrows(g0, p0, g1, p1, x);
    assert ObjOk(g0, p0, o);
    assert Same(g0, p0, g1, p1, o);
    UntouchedListed(g0, p0, g1, p1, o);
    if g0.heap[o].OpenUp? && g0.heap[o].th != x {
      assert Same(g0, p0, g1, p1, g0.heap[o].th);
      SameCovers(g0, p0, g1, p1, g0.heap[o].th);
    }
    UntouchedColor(g0, p0, g1, p1, o);
  }

  lemma OnlyGrows(g0: Global, p0: set<Id>, g1: Global, p1: set<Id>, x: Id)
    requires OnlyAt(g0, p0, g1, p1, x)
    ensures Cleared(g0.heap, g1.heap) && ColorsGrow(g0, g1) && g1.heap.Keys == g1.color.Keys
  {
    hide Same;
  }

  lemma SameCovers(g0: Global, p0: set<Id>, g1: Global, p1: set<Id>, th: Id)
    requires Same(g0, p0, g1, p1, th)
    ensures StillCovers(g0, p0, g1, p1, th)
  {}

  /** Several objects change lists at once; colours and references stay. */
  lemma ManyMoved(g0: Global, p0: set<Id>, g1: Global, p1: set<Id>, X: set<Id>)
    requires MarkInv(g0, p0) && g1.heap == g0.heap && g1.color == g0.color && g1.cw == g0.cw
    requires forall o :: o !in X ==> Same(g0, p0, g1, p1, o)
    requires forall o :: o in X ==> o in g0.heap && o in g0.color && ObjOk(g1, p1, o)
    requires forall o :: o in X && g0.heap[o].Thread? ==> StillCovers(g0, p0, g1, p1, o)
    ensures MarkInv(g1, p1)
  {
    hide Points, Lists, ListedOk, ColorOk, StillCovers;
    forall o | o in g1.heap ensures ObjOk(g1, p1, o) {
      if o !in X {
        assert ObjOk(g0, p0, o);
        UntouchedListed(g0, p0, g1, p1, o);
        if g0.heap[o].OpenUp? && g0.heap[o].th !in X { SameCovers(g0, p0, g1, p1, g0.heap[o].th); }
        UntouchedColor(g0, p0, g1, p1, o);
      }
    }
    forall o | o in Lists(g1) ensures o in g1.heap {
      if o !in X { assert Same(g0, p0, g1, p1, o); }
    }
  }

  lemma KeepUpvals(g: Global)
    requires AllAllocated(g)
    ensures UpvalsOk(g.heap) && g.heap.Keys == g.color.Keys
  {}

  lemma StrongKept(h0: Heap, h1: Heap, o: Id, r: Id)
    requires Cleared(h0, h1) && o in h0 && StrongTo(h1, o, r)
    ensures StrongTo(h0, o, r)
  {
    assert BodyCleared(h0[o], h1[o]);
    if !h0[o].Table? {
      PointsShrink(h0, h1, o, r);
    } else if Obj(r) in h1[o].arr && (h0[o].mode.StrongT? || h0[o].mode.Ephemerons?) {
      var i :| 0 <= i < |h1[o].arr| && h1[o].arr[i] == Obj(r);
      assert h0[o].arr[i] == Obj(r);
    } else if h0[o].mode.StrongT? && !(h1[o].mt == Obj(r) || Obj(r) in h1[o].arr) {
      var n :| n in h1[o].nodes && n.val.Val? && NodeRefs(n, r);
      var i :| 0 <= i < |h1[o].nodes| && h1[o].nodes[i] == n;
      assert NodeCleared(h0[o].nodes[i], n);
    } else if h0[o].mode.WeakValues? && h1[o].mt != Obj(r) {
      var n :| n in h1[o].nodes && n.val.Val? && n.key == Obj(r);
      var i :| 0 <= i < |h1[o].nodes| && h1[o].nodes[i] == n;
      assert NodeCleared(h0[o].nodes[i], n);
    }
  }

  lemma ClosedKept(h0: Heap, h1: Heap, S: set<Id>, o: Id)
    requires Cleared(h0, h1) && o in h0 && ClosedAt(h0, S, o)
    ensures ClosedAt(h1, S, o)
  {
    hide StrongTo;
    assert BodyCleared(h0[o], h1[o]);
    forall r | StrongTo(h1, o, r) ensures r in S { StrongKept(h0, h1, o, r); }
    if h0[o].Table? && h0[o].mode.Ephemerons? {
      forall n, r | n in h1[o].nodes && n.val == Val(Obj(r)) && (n.key.NoRef? || n.key.id in S) ensures r in S {
        var i :| 0 <= i < |h1[o].nodes| && h1[o].nodes[i] == n;
        assert NodeCleared(h0[o].nodes[i], n);
      }
    }
  }

  /** The upper bound survives any change that marks only objects of `S`. */
  lemma BoundedKept(g0: Global, g1: Global, S: set<Id>)
    requires Bounded(g0, S) && Cleared(g0.heap, g1.heap)
    requires forall o :: o in g0.heap && NonWhite(g1, o) ==> o in S
    requires forall o :: o in g0.allweak ==> o in g1.allweak
    ensures Bounded(g1, S)
  {
    hide ClosedAt;
    forall o | o in g1.heap ensures BoundedAt(g1, S, o) {
      assert BoundedAt(g0, S, o);
      assert BodyCleared(g0.heap[o], g1.heap[o]);
      if o in S && o !in g1.allweak { ClosedKept(g0.heap, g1.heap, S, o); }
    }
  }
}
