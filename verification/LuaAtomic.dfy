/** The steps of the atomic phase: parking and resuming the `grayagain` list, remarking upvalues of
    unmarked threads, and clearing weak tables. */
module LuaAtomicSteps {
  import opened LuaHeap
  import opened LuaMarkSteps
  import opened LuaVisit

  // ---------------------------------------------------------------- the saved gray list

  /** Objects in a saved list: each once, gray, in no list of the collector. */
  ghost predicate Parked(g: Global, l: seq<Id>) {
    forall o :: o in l ==>
      multiset(l)[o] == 1 && o !in Lists(g) && o in g.heap && o in g.color && g.color[o].Gray? && HasGclist(g.heap[o])
  }

  lemma ParkLists(g: Global)
    ensures Lists(g) == Lists(g.(grayagain := [])) + multiset(g.grayagain)
  {}

  lemma ParkedObj(g: Global, pend: set<Id>, o: Id)
    requires MarkInv(g, pend) && o in g.grayagain && o in pend
    ensures o in g.heap && o in g.color && g.color[o].Gray? && HasGclist(g.heap[o])
    ensures ObjOk(g.(grayagain := [], phase := Atomic), pend, o)
    ensures multiset(g.grayagain)[o] == 1 && o !in Lists(g.(grayagain := [], phase := Atomic))
  {
    hide Points;
    assert o in Lists(g);
    assert ObjOk(g, pend, o);
    ParkLists(g);
    SameLists(g.(grayagain := []), g.(grayagain := [], phase := Atomic));
    NotListed(g.(grayagain := [], phase := Atomic), o);
  }

  /** Entering the atomic phase: the old `grayagain` list is put aside. */
  lemma ParkAgain(g: Global, pend: set<Id>, S: set<Id>)
    requires Marking(g, pend, S) && Elems(g.grayagain) <= pend
    ensures var g1 := g.(grayagain := [], phase := Atomic);
      Marking(g1, pend, S) && Parked(g1, g.grayagain)
  {
    hide Lists, Points, ClosedAt, ObjOk, AllAllocated;
    var g1 := g.(grayagain := [], phase := Atomic);
    ParkLists(g);
    SameLists(g.(grayagain := []), g1);
    forall o | o in Elems(g.grayagain)
      ensures o in g.heap && o in g.color && ObjOk(g1, pend, o) && g.color[o].Gray? && HasGclist(g.heap[o])
      ensures multiset(g.grayagain)[o] == 1 && o !in Lists(g1)
    {
      ParkedObj(g, pend, o);
    }
    ManyMoved(g, pend, g1, pend, Elems(g.grayagain));
    BoundedKept(g, g1, S) by { assert forall r :: r in g.heap && NonWhite(g, r) ==> BoundedAt(g, S, r); }
  }

  lemma ResumeLists(g: Global, saved: seq<Id>)
    requires g.gray == []
    ensures Lists(g.(gray := saved)) == Lists(g) + multiset(saved)
  {}

  lemma ResumedObj(g: Global, saved: seq<Id>, o: Id)
    requires MarkInv(g, Elems(saved)) && g.gray == [] && Parked(g, saved) && o in saved
    ensures o in g.heap && o in g.color && ObjOk(g.(gray := saved), {}, o)
  {
    hide Points;
    ResumeLists(g, saved);
    NotListed(g, o);
    assert ObjOk(g, Elems(saved), o);
  }

  /** The saved list becomes the gray list; nothing else is owed a visit. */
  lemma Resumed(g: Global, saved: seq<Id>, S: set<Id>)
    requires Marking(g, Elems(saved), S) && g.gray == [] && Parked(g, saved)
    ensures Marking(g.(gray := saved), {}, S)
  {
    hide Lists, Points, ClosedAt, ObjOk, AllAllocated, Parked;
    var g1 := g.(gray := saved);
    ResumeLists(g, saved);
    forall o | o in Elems(saved) ensures o in g.heap && o in g.color && ObjOk(g1, {}, o) {
      ResumedObj(g, saved, o);
    }
    ManyMoved(g, Elems(saved), g1, {}, Elems(saved));
    BoundedKept(g, g1, S) by { assert forall r :: r in g.heap && NonWhite(g, r) ==> BoundedAt(g, S, r); }
  }

  lemma ParkedStays(g0: Global, g1: Global, l: seq<Id>)
    requires Visited(g0, g1, {}) && Parked(g0, l)
    ensures Parked(g1, l)
  {
    hide Lists;
    forall o | o in l ensures o in g1.heap && HasGclist(g1.heap[o]) && o !in Lists(g1) && g1.color[o] == g0.color[o] {
      assert BodyKeysDropped(g0.heap[o], g1.heap[o]);
    }
  }

  // ---------------------------------------------------------------- open upvalues

  /** Open upvalues that are marked already; their threads' visits, or `remarkupvals`, mark their values. */
  ghost predicate UpsGray(g: Global, U: set<Id>) {
    forall uv :: uv in U ==> uv in g.heap && uv in g.color && g.heap[uv].OpenUp? && g.color[uv].Gray? && uv !in Lists(g)
  }

  lemma UpsStay(g0: Global, g1: Global, U: set<Id>)
    requires UpsGray(g0, U) && Visited(g0, g1, {})
    ensures UpsGray(g1, U)
  {
    hide Lists;
    forall uv | uv in U ensures uv in g1.heap && g1.heap[uv].OpenUp? {
      assert BodyKeysDropped(g0.heap[uv], g1.heap[uv]);
    }
  }

  lemma UpsMarked(g0: Global, g1: Global, U: set<Id>, tw: seq<Id>)
    requires UpsGray(g0, U) && MarkedMore(g0.(twups := tw), g1)
    ensures UpsGray(g1, U)
  {
    hide Lists;
    SameLists(g0, g0.(twups := tw));
  }

  /** A marked upvalue is settled once its value is marked or its thread is. */
  ghost predicate UpSeen(g: Global, uv: Id)
    requires uv in g.heap && g.heap[uv].OpenUp?
  {
    Done(g, uv) || NonWhite(g, g.heap[uv].th)
  }

  lemma UpCovered(g: Global, P: set<Id>, U: set<Id>, uv: Id)
    requires MarkInv(g, P + U) && UpsGray(g, U) && uv in U && UpSeen(g, uv)
    ensures UpvalCovered(g, P, uv)
  {
    hide Points, Lists;
    KeepDomains(g);
    var th := g.heap[uv].th;
    if !Done(g, uv) {
      assert th !in U;
      assert ObjOk(g, P + U, th);
      NotListed2(g, th);
      if th !in P && th !in g.gray {
        assert Done(g, th) by { if g.color[th].Gray? { if UpvalCovered(g, P + U, th) { assert false; } } }
        CoveredByThread(g, uv);
      }
    }
  }

  lemma UpObj(g: Global, P: set<Id>, U: set<Id>, uv: Id)
    requires MarkInv(g, P + U) && UpsGray(g, U) && uv in U && UpSeen(g, uv)
    ensures ObjOk(g, P, uv)
  {
    hide Points, Lists;
    UpCovered(g, P, U, uv);
    assert ObjOk(g, P + U, uv);
    NotListed(g, uv);
  }

  lemma UpsSettled(g: Global, P: set<Id>, U: set<Id>, S: set<Id>)
    requires Marking(g, P + U, S) && UpsGray(g, U)
    requires forall uv :: uv in U ==> UpSeen(g, uv)
    ensures Marking(g, P, S)
  {
    hide Lists, Points, ObjOk, AllAllocated, UpSeen;
    forall uv | uv in U ensures ObjOk(g, P, uv) { UpObj(g, P, U, uv); }
    ManyMoved(g, P + U, g, P, U);
  }

  // ---------------------------------------------------------------- clearing weak tables

  /** Weak entries were emptied, and strings met on the way were marked. */
  ghost predicate ClearedMore(g0: Global, g1: Global) {
    && g1 == g0.(heap := g1.heap, color := g1.color)
    && Cleared(g0.heap, g1.heap) && g1.color.Keys == g0.color.Keys
    && forall o :: o in g0.color && o in g0.heap ==>
         g1.color[o] == g0.color[o] || (g0.heap[o].Str? && g0.color[o].White? && g1.color[o].Black?)
  }

  lemma ClearedChain(g0: Global, g1: Global, g2: Global)
    requires ClearedMore(g0, g1) && ClearedMore(g1, g2)
    ensures ClearedMore(g0, g2)
  {
    forall o | o in g0.heap ensures BodyCleared(g0.heap[o], g2.heap[o]) && g1.heap[o].Str? == g0.heap[o].Str? {
      assert BodyCleared(g0.heap[o], g1.heap[o]) && BodyCleared(g1.heap[o], g2.heap[o]);
      BodyClearedChain(g0.heap[o], g1.heap[o], g2.heap[o]);
    }
  }

  lemma BodyClearedChain(b0: Body, b1: Body, b2: Body)
    requires BodyCleared(b0, b1) && BodyCleared(b1, b2)
    ensures BodyCleared(b0, b2)
  {
    if b0 != b1 && b1 != b2 {
      forall i | 0 <= i < |b0.nodes| ensures NodeCleared(b0.nodes[i], b2.nodes[i]) {
        assert NodeCleared(b0.nodes[i], b1.nodes[i]) && NodeCleared(b1.nodes[i], b2.nodes[i]);
      }
      forall i | 0 <= i < |b0.arr| ensures b2.arr[i] == b0.arr[i] || b2.arr[i].NoRef? {
        assert b1.arr[i] == b0.arr[i] || b1.arr[i].NoRef?;
      }
    }
  }

  lemma ClearedGrows(g0: Global, g1: Global)
    requires ClearedMore(g0, g1) && g0.heap.Keys == g0.color.Keys
    ensures ColorsGrow(g0, g1) && Cleared(g0.heap, g1.heap)
    ensures forall v :: RefMarked(g0, v) ==> RefMarked(g1, v)
  {}

  ghost predicate NodeValMarked(g: Global, n: Node) {
    n.val.Val? ==> RefMarked(g, n.val.ref)
  }

  lemma ClearedTable(g0: Global, g1: Global, h: Id)
    requires ClearedMore(g0, g1) && g0.heap.Keys == g0.color.Keys && h in g0.heap && g0.heap[h].Table?
    ensures h in g1.heap && g1.heap[h].Table? && g1.heap[h].mode == g0.heap[h].mode && g1.heap[h].mt == g0.heap[h].mt
    ensures ValsMarked(g0, h) ==> ValsMarked(g1, h)
    ensures KeysMarked(g0, h) ==> KeysMarked(g1, h)
    ensures EphemeronSettled(g0, h) ==> EphemeronSettled(g1, h)
  {
    hide RefMarked, EntrySettled;
    ClearedGrows(g0, g1);
    assert BodyCleared(g0.heap[h], g1.heap[h]);
    forall r | r in g1.heap[h].arr && ArrMarked(g0, h) ensures RefMarked(g1, r) {
      var i :| 0 <= i < |g1.heap[h].arr| && g1.heap[h].arr[i] == r;
      assert r == g0.heap[h].arr[i] || r == NoRef;
      if r == NoRef { NoRefMarked(g1); }
    }
    forall n | n in g1.heap[h].nodes
      ensures KeysMarked(g0, h) ==> RefMarked(g1, n.key)
      ensures ValsMarked(g0, h) && n.val.Val? ==> RefMarked(g1, n.val.ref)
      ensures EphemeronSettled(g0, h) ==> EntrySettled(g1, n)
    {
      var i :| 0 <= i < |g1.heap[h].nodes| && g1.heap[h].nodes[i] == n;
      assert NodeCleared(g0.heap[h].nodes[i], n) && g0.heap[h].nodes[i] in g0.heap[h].nodes;
      NoRefMarked(g1);
      if EphemeronSettled(g0, h) {
        assert EntrySettled(g0, g0.heap[h].nodes[i]);
        ClearedEntry(g0, g1, g0.heap[h].nodes[i], n);
      }
    }
  }

  lemma NoRefMarked(g: Global)
    ensures RefMarked(g, NoRef)
  {}

  lemma ClearedEntry(g0: Global, g1: Global, n0: Node, n1: Node)
    requires ClearedMore(g0, g1) && g0.heap.Keys == g0.color.Keys && NodeCleared(n0, n1) && EntrySettled(g0, n0)
    ensures EntrySettled(g1, n1)
  {
    ClearedGrows(g0, g1);
    if n1.val.Val? && n1.key.Obj? && n1.key.id in g0.heap {
      assert BodyCleared(g0.heap[n1.key.id], g1.heap[n1.key.id]);
    }
  }

  lemma ClearedObj(g: Global, pend: set<Id>, h: Id, b: Body)
    requires h in g.heap && h in g.color && ObjOk(g, pend, h) && g.heap[h].Table? && BodyCleared(g.heap[h], b)
    requires g.heap.Keys == g.color.Keys
    ensures ObjOk(g.(heap := g.heap[h := b]), pend, h)
  {
    hide Points, Lists;
    var g1 := g.(heap := g.heap[h := b]);
    SameLists(g, g1);
    assert ClearedMore(g, g1);
    ClearedTable(g, g1, h);
    ClearedGrows(g, g1);
    ClearedArr(g, g1, h);
    if Done(g, h) { DoneKept(g, g1, h); }
  }

  lemma ClearedArr(g0: Global, g1: Global, h: Id)
    requires ClearedMore(g0, g1) && g0.heap.Keys == g0.color.Keys && h in g0.heap && g0.heap[h].Table?
    ensures h in g1.heap && g1.heap[h].Table? && (ArrMarked(g0, h) ==> ArrMarked(g1, h))
  {
    hide RefMarked;
    ClearedGrows(g0, g1);
    NoRefMarked(g1);
    assert BodyCleared(g0.heap[h], g1.heap[h]);
    forall r | r in g1.heap[h].arr && ArrMarked(g0, h) ensures RefMarked(g1, r) {
      var i :| 0 <= i < |g1.heap[h].arr| && g1.heap[h].arr[i] == r;
      assert r == g0.heap[h].arr[i] || r == NoRef;
    }
  }

  lemma NodeEmptied(t: Body, i: nat, n: Node)
    requires t.Table? && i < |t.nodes| && n.val.Empty? && (n.key == t.nodes[i].key || n.key.NoRef?)
    ensures BodyCleared(t, t.(nodes := t.nodes[i := n]))
  {}

  /** Emptying entries of a table keeps the marking invariant. */
  lemma TableCleared(g: Global, S: set<Id>, h: Id, b: Body)
    requires Marking(g, {}, S) && h in g.heap && g.heap[h].Table? && BodyCleared(g.heap[h], b)
    ensures Marking(g.(heap := g.heap[h := b]), {}, S) && ClearedMore(g, g.(heap := g.heap[h := b]))
  {
    hide Points, ClosedAt, Lists, ListedOk, ColorOk, AllAllocated;
    var g1 := g.(heap := g.heap[h := b]);
    KeepDomains(g);
    SameLists(g, g1);
    assert ObjOk(g, {}, h);
    ClearedObj(g, {}, h, b);
    OneChanged(g, {}, g1, {}, h);
    BoundedKept(g, g1, S) by { assert forall r :: r in g.heap && NonWhite(g, r) ==> BoundedAt(g, S, r); }
  }

  // ---------------------------------------------------------------- small steps of the methods

  /** Every thread with open upvalues is in `twups`, and `twups` holds threads only. */
  ghost predicate TwupsAll(g: Global) {
    && (forall th :: th in g.heap && g.heap[th].Thread? && g.heap[th].open != [] ==> th in g.twups)
    && (forall th :: th in g.twups ==> th in g.heap && g.heap[th].Thread?)
  }

  lemma RemarkStart(g: Global, pend: set<Id>, S: set<Id>, U: set<Id>)
    requires Marking(g, pend, S) && TwupsAll(g) && UpsGray(g, U)
    ensures MarkedMore(g, g)
    ensures forall th :: th in g.twups ==> th in g.heap && th in g.color && g.heap[th].Thread?
    ensures forall uv :: uv in U ==> uv in g.heap && g.heap[uv].OpenUp? && g.heap[uv].th in g.twups
  {
    hide Lists;
    KeepDomains(g);
    forall uv | uv in U ensures g.heap[uv].th in g.twups {
      assert uv in g.heap[g.heap[uv].th].open;
    }
  }

  lemma MarkedThread(g: Global, U: set<Id>, th: Id)
    requires NonWhite(g, th)
    ensures forall uv :: uv in U && uv in g.heap && g.heap[uv].OpenUp? && g.heap[uv].th == th ==> UpSeen(g, uv)
  {
    hide Points;
  }

  /** Taking a thread out of `twups` that is not marked, or that holds no upvalue. */
  lemma Untwupped(g: Global, pend: set<Id>, S: set<Id>, kept: seq<Id>, th: Id, later: seq<Id>)
    requires Marking(g, pend, S) && g.twups == kept + ([th] + later)
    requires th in g.heap && th in g.color && g.heap[th].Thread? && (g.color[th].White? || g.heap[th].open == [])
    ensures Marking(g.(twups := kept + later), pend, S)
  {
    hide Points, AllAllocated, ClosedAt, Lists;
    var g1 := g.(twups := kept + later);
    KeepDomains(g);
    SameLists(g, g1);
    assert ObjOk(g, pend, th);
    assert g1.heap == g.heap[th := g1.heap[th]] && g1.color == g.color[th := g1.color[th]];
    if Done(g, th) { DoneKept(g, g1, th); }
    OneChanged(g, pend, g1, pend, th);
    BoundedKept(g, g1, S) by { assert forall r :: r in g.heap && NonWhite(g, r) ==> BoundedAt(g, S, r); }
  }

  lemma SameTwups(g0: Global, g1: Global, g: Global)
    requires MarkedMore(g0.(twups := g1.twups), g1) && g == g1.(twups := g.twups)
    ensures MarkedMore(g0.(twups := g.twups), g)
  {
    hide Lists;
    SameLists(g1, g);
    SameLists(g0.(twups := g1.twups), g0.(twups := g.twups));
    assert Whites(g0.(twups := g.twups)) == Whites(g0.(twups := g1.twups)) && Whites(g) == Whites(g1);
  }

  lemma TwupUps(g0: Global, g1: Global, U: set<Id>)
    requires UpsGray(g0, U) && g1 == g0.(twups := g1.twups)
    ensures UpsGray(g1, U)
  {
    SameLists(g0, g1);
  }

  lemma RemarkKept(g1: Global, g: Global, U: set<Id>, th: Id, kept: seq<Id>, rest: seq<Id>, later: seq<Id>)
    requires MarkedMore(g1.(twups := g.twups), g) && rest == [th] + later
    requires forall t :: t in kept ==> NonWhite(g1, t)
    requires forall t :: t in rest ==> t in g1.heap && t in g1.color && g1.heap[t].Thread?
    requires forall uv :: uv in U ==> uv in g1.heap && g1.heap[uv].OpenUp? && (g1.heap[uv].th in rest || UpSeen(g1, uv))
    requires forall uv :: uv in U && uv in g.heap[th].open && uv in g.heap && g.heap[uv].OpenUp? ==> Done(g, uv)
    requires UpvalsOk(g1.heap)
    ensures forall t :: t in kept ==> NonWhite(g, t)
    ensures forall t :: t in later ==> t in g.heap && t in g.color && g.heap[t].Thread?
    ensures forall uv :: uv in U ==> uv in g.heap && g.heap[uv].OpenUp? && (g.heap[uv].th in later || UpSeen(g, uv))
  {
    hide Lists, Points;
    forall uv | uv in U ensures g.heap[uv].th in later || UpSeen(g, uv) {
      if UpSeen(g1, uv) && Done(g1, uv) { DoneKept(g1, g, uv); }
    }
  }

  lemma MarkNothing(g: Global)
    ensures MarkedMore(g, g)
  {
    hide Lists;
  }

  lemma OpenUpvalue(g: Global, pend: set<Id>, S: set<Id>, th: Id, uv: Id)
    requires Marking(g, pend, S) && th in g.heap && g.heap[th].Thread? && uv in g.heap[th].open
    ensures uv in g.heap && uv in g.color && g.heap[uv].OpenUp? && g.heap[uv].th == th
    ensures g.heap[uv].slot < |g.heap[th].stack|
  {
    hide Lists, Points, ObjOk, Bounded;
    KeepDomains(g);
  }

  lemma MarkedUpvalue(g: Global, pend: set<Id>, S: set<Id>, uv: Id)
    requires Marking(g, pend, S) && uv in g.heap && uv in g.color && g.heap[uv].OpenUp? && !g.color[uv].White?
    ensures Markable(g, S, Content(g.heap, uv))
  {
    hide Lists, Points, ClosedAt, AllAllocated;
    assert ObjOk(g, pend, uv) && BoundedAt(g, S, uv);
    NotAllWeak(g, pend, uv);
    var v := Content(g.heap, uv);
    if v.Obj? { ContentStrong(g.heap, uv); StrongMarkable(g, pend, S, uv, v.id); }
  }

  lemma NotAllWeak(g: Global, pend: set<Id>, uv: Id)
    requires uv in g.heap && uv in g.color && ObjOk(g, pend, uv) && g.heap[uv].OpenUp?
    ensures uv !in g.allweak
  {
    hide Lists, Points;
  }

  lemma ContentStrong(h: Heap, o: Id)
    requires o in h && Content(h, o).Obj?
    ensures StrongTo(h, o, Content(h, o).id)
  {}

  lemma MarkingUpvals(g: Global, pend: set<Id>, S: set<Id>)
    requires Marking(g, pend, S)
    ensures UpvalsOk(g.heap) && g.heap.Keys == g.color.Keys
  {
    KeepDomains(g);
  }

  lemma MarkedTwups(g0: Global, g1: Global)
    requires MarkedMore(g0, g1)
    ensures g1.twups == g0.twups
  {}

  lemma DonesKept(g0: Global, g1: Global)
    requires MarkedMore(g0, g1)
    ensures forall o :: o in g0.heap && Done(g0, o) ==> Done(g1, o)
  {
    hide Lists, Points;
    forall o | o in g0.heap && Done(g0, o) ensures Done(g1, o) { DoneKept(g0, g1, o); }
  }

  lemma WhiteNotGray(g: Global, U: set<Id>, uv: Id)
    requires UpsGray(g, U) && uv in g.color && g.color[uv].White?
    ensures uv !in U
  {}

  ghost predicate AreTables(g: Global, l: seq<Id>) {
    forall h :: h in l ==> h in g.heap && g.heap[h].Table?
  }

  lemma TableIn(g: Global, l: seq<Id>, i: nat)
    requires AreTables(g, l) && i < |l|
    ensures l[i] in g.heap && g.heap[l[i]].Table?
  {}

  lemma ClearNothing(g: Global)
    ensures ClearedMore(g, g)
  {}

  lemma StillTables(g0: Global, g1: Global, pend: set<Id>, S: set<Id>, l: seq<Id>)
    requires Marking(g0, pend, S) && ClearedMore(g0, g1) && AreTables(g0, l)
    ensures AreTables(g1, l)
    ensures forall h :: h in l && ValsMarked(g0, h) ==> ValsMarked(g1, h)
    ensures forall h :: h in l && KeysMarked(g0, h) ==> KeysMarked(g1, h)
    ensures forall h :: h in l && EphemeronSettled(g0, h) ==> EphemeronSettled(g1, h)
  {
    hide ClearedMore, ValsMarked, KeysMarked, EphemeronSettled;
    KeepDomains(g0);
    forall h | h in l
      ensures h in g1.heap && g1.heap[h].Table?
      ensures ValsMarked(g0, h) ==> ValsMarked(g1, h)
      ensures KeysMarked(g0, h) ==> KeysMarked(g1, h)
      ensures EphemeronSettled(g0, h) ==> EphemeronSettled(g1, h)
    {
      ClearedTable(g0, g1, h);
    }
  }

  lemma SlotAllocated(g: Global, S: set<Id>, h: Id, v: Ref)
    requires Marking(g, {}, S) && h in g.heap && g.heap[h].Table? && v in g.heap[h].arr
    ensures v.Obj? ==> v.id in g.heap && v.id in g.color
  {
    if v.Obj? { assert Points(g.heap, h, v.id); }
  }

  lemma NodeSlots(g: Global, S: set<Id>, h: Id, n: Node)
    requires Marking(g, {}, S) && h in g.heap && g.heap[h].Table? && n in g.heap[h].nodes
    ensures n.key.Obj? ==> n.key.id in g.heap && n.key.id in g.color
    ensures n.val.Val? && n.val.ref.Obj? ==> n.val.ref.id in g.heap && n.val.ref.id in g.color
  {
    if n.key.Obj? { assert NodeRefs(n, n.key.id); NodePoints(g, h, n, n.key.id); }
    if n.val.Val? && n.val.ref.Obj? { assert NodeRefs(n, n.val.ref.id); NodePoints(g, h, n, n.val.ref.id); }
  }

  lemma ClearedRefs(g0: Global, g1: Global, S: set<Id>)
    requires Marking(g0, {}, S) && ClearedMore(g0, g1)
    ensures forall v :: RefMarked(g0, v) ==> RefMarked(g1, v)
    ensures forall h :: h in g0.heap && g0.heap[h].Table? && ArrMarked(g0, h) ==>
              h in g1.heap && g1.heap[h].Table? && ArrMarked(g1, h)
  {
    hide RefMarked, ArrMarked;
    KeepDomains(g0);
    ClearedGrows(g0, g1);
    forall h | h in g0.heap && g0.heap[h].Table? && ArrMarked(g0, h) ensures h in g1.heap && g1.heap[h].Table?
      && ArrMarked(g1, h) {
      ClearedArr(g0, g1, h);
    }
  }

  // ---------------------------------------------------------------- the atomic phase as a whole

  /** Gray open upvalues: no list holds them. */
  ghost function GrayUps(g: Global): set<Id> {
    set o | o in g.heap && o in g.color && g.heap[o].OpenUp? && g.color[o].Gray?
  }

  /** What is owed a visit between two steps of the mark phase. */
  ghost function Again(g: Global): set<Id> {
    Elems(g.grayagain) + GrayUps(g)
  }

  lemma GrayUpsFree(g: Global, pend: set<Id>, S: set<Id>)
    requires Marking(g, pend, S)
    ensures UpsGray(g, GrayUps(g))
  {
    hide Lists, Points, AllAllocated;
    forall uv | uv in GrayUps(g) ensures uv !in Lists(g) { assert ObjOk(g, pend, uv); }
  }

  ghost predicate AllValsMarked(g: Global, l: seq<Id>) {
    forall h :: h in l ==> h in g.heap && g.heap[h].Table? && ValsMarked(g, h)
  }

  ghost predicate AllKeysMarked(g: Global, l: seq<Id>) {
    forall h :: h in l ==> h in g.heap && g.heap[h].Table? && KeysMarked(g, h)
  }

  lemma ValsStay(g0: Global, g1: Global, X: set<Id>, l: seq<Id>)
    requires Visited(g0, g1, X) && AllValsMarked(g0, l)
    ensures AllValsMarked(g1, l)
  {
    hide Lists, ValsMarked, NewAllWeakOk;
    forall h | h in l ensures h in g1.heap && g1.heap[h].Table? && ValsMarked(g1, h) { ValsKept(g0, g1, h); }
  }

  lemma ClearKeeps(g0: Global, g1: Global, S: set<Id>, l: seq<Id>)
    requires Marking(g0, {}, S) && ClearedMore(g0, g1)
    ensures AllValsMarked(g0, l) ==> AllValsMarked(g1, l)
    ensures AllKeysMarked(g0, l) ==> AllKeysMarked(g1, l)
    ensures AllSettled(g0, l) ==> AllSettled(g1, l)
    ensures AreTables(g0, l) ==> AreTables(g1, l)
  {
    hide ClearedMore, ValsMarked, KeysMarked, EphemeronSettled, Marking;
    MarkingUpvals(g0, {}, S);
    forall h | h in l && h in g0.heap && g0.heap[h].Table?
      ensures h in g1.heap && g1.heap[h].Table?
      ensures ValsMarked(g0, h) ==> ValsMarked(g1, h)
      ensures KeysMarked(g0, h) ==> KeysMarked(g1, h)
      ensures EphemeronSettled(g0, h) ==> EphemeronSettled(g1, h)
    {
      ClearedTable(g0, g1, h);
    }
  }

  lemma ListTables(g: Global, S: set<Id>)
    requires Marking(g, {}, S)
    ensures AreTables(g, g.weak) && AreTables(g, g.allweak) && AreTables(g, g.ephemeron)
  {
    hide Lists, Points;
    forall h | h in g.weak || h in g.allweak || h in g.ephemeron ensures h in g.heap && g.heap[h].Table? {
      InLists(g, h);
      assert h in g.heap;
      assert ObjOk(g, {}, h);
    }
  }

  lemma InLists(g: Global, h: Id)
    requires h in g.weak || h in g.allweak || h in g.ephemeron
    ensures h in Lists(g)
  {}

  lemma TwupsStay(g0: Global, g1: Global)
    requires Visited(g0, g1, {}) && TwupsAll(g0)
    ensures TwupsAll(g1)
  {
    hide Lists;
    forall o | o in g0.heap ensures o in g1.heap && g1.heap[o].Thread? == g0.heap[o].Thread?
      && (g0.heap[o].Thread? ==> g1.heap[o] == g0.heap[o]) {
      assert BodyKeysDropped(g0.heap[o], g1.heap[o]);
    }
  }

  /** `twups` holds marked threads only. */
  ghost predicate TwupsMarked(g: Global) {
    forall th :: th in g.twups ==> NonWhite(g, th) && th in g.heap && g.heap[th].Thread?
  }

  lemma TwupsMarkedStay(g0: Global, g1: Global)
    requires Visited(g0, g1, {}) && TwupsMarked(g0)
    ensures TwupsMarked(g1)
  {
    hide Lists;
    forall o | o in g0.heap && g0.heap[o].Thread? ensures o in g1.heap && g1.heap[o] == g0.heap[o] {
      assert BodyKeysDropped(g0.heap[o], g1.heap[o]);
    }
  }

  lemma TwupsMarkedClear(g0: Global, g1: Global)
    requires ClearedMore(g0, g1) && TwupsMarked(g0) && g0.heap.Keys == g0.color.Keys
    ensures TwupsMarked(g1)
  {
    forall o | o in g0.heap && g0.heap[o].Thread? ensures o in g1.heap && g1.heap[o] == g0.heap[o] {
      assert BodyCleared(g0.heap[o], g1.heap[o]);
    }
  }

  /** All that the atomic phase changes. */
  ghost predicate AtomicFrame(g0: Global, g1: Global) {
    && g1 == g0.(heap := g1.heap, color := g1.color, gray := g1.gray, grayagain := g1.grayagain, weak := g1.weak,
                 allweak := g1.allweak, ephemeron := g1.ephemeron, twups := g1.twups,
                 finobj := g1.finobj, tobefnz := g1.tobefnz, phase := g1.phase)
    && Cleared(g0.heap, g1.heap) && g1.color.Keys == g0.color.Keys
    && (forall o :: NonWhite(g0, o) ==> NonWhite(g1, o))
    && (forall o :: o in g1.color && g1.color[o].White? ==> g1.color[o] == g0.color[o])
  }

  lemma FrameChain(g0: Global, g1: Global, g2: Global)
    requires AtomicFrame(g0, g1) && AtomicFrame(g1, g2)
    ensures AtomicFrame(g0, g2)
  {
    forall o | o in g0.heap ensures BodyCleared(g0.heap[o], g2.heap[o]) {
      assert BodyCleared(g0.heap[o], g1.heap[o]) && BodyCleared(g1.heap[o], g2.heap[o]);
      BodyClearedChain(g0.heap[o], g1.heap[o], g2.heap[o]);
    }
  }

  lemma VisitedFrame(g0: Global, g1: Global, X: set<Id>)
    requires Visited(g0, g1, X)
    ensures AtomicFrame(g0, g1)
  {
    hide Lists;
    forall o | o in g0.heap ensures BodyCleared(g0.heap[o], g1.heap[o]) {
      assert BodyKeysDropped(g0.heap[o], g1.heap[o]);
    }
  }

  lemma ClearedFrame(g0: Global, g1: Global)
    requires ClearedMore(g0, g1) && g0.heap.Keys == g0.color.Keys
    ensures AtomicFrame(g0, g1)
  {}

  lemma RemarkFrame(g0: Global, g1: Global)
    requires MarkedMore(g0.(twups := g1.twups), g1)
    ensures AtomicFrame(g0, g1)
  {
    hide Lists;
  }

  lemma RemarkParked(g0: Global, g1: Global, l: seq<Id>)
    requires MarkedMore(g0.(twups := g1.twups), g1) && Parked(g0, l)
    ensures Parked(g1, l)
  {
    hide Lists;
    var gm := g0.(twups := g1.twups);
    SameLists(g0, gm);
    MarkedVisited(gm, g1, {});
    ParkedStays(gm, g1, l);
  }

  /** The two object lists play no part in marking. */
  lemma FnzMoved(g: Global, S: set<Id>, f: seq<Id>, t: seq<Id>)
    requires Marking(g, {}, S)
    ensures Marking(g.(finobj := f, tobefnz := t), {}, S)
  {
    hide Lists, Points, ClosedAt, ObjOk, AllAllocated;
    var g1 := g.(finobj := f, tobefnz := t);
    SameLists(g, g1);
    ManyMoved(g, {}, g1, {}, {});
    BoundedKept(g, g1, S) by { assert forall r :: r in g.heap && NonWhite(g, r) ==> BoundedAt(g, S, r); }
  }

  /** Every marked object references only marked objects. */
  ghost predicate MarkedClosed(g: Global) {
    forall o :: o in g.heap && NonWhite(g, o) ==> Done(g, o)
  }

  lemma EphemeronDone(g: Global, h: Id)
    requires h in g.heap && g.heap[h].Table? && RefMarked(g, g.heap[h].mt) && ArrMarked(g, h)
    requires KeysMarked(g, h) && EphemeronSettled(g, h)
    ensures Done(g, h)
  {
    hide Points;
    forall n | n in g.heap[h].nodes ensures NodeMarked(g, n) { assert EntrySettled(g, n); }
    TableDone(g, h);
  }

  lemma WeakDone(g: Global, h: Id)
    requires h in g.heap && g.heap[h].Table? && RefMarked(g, g.heap[h].mt) && KeysMarked(g, h) && ValsMarked(g, h)
    ensures Done(g, h)
  {
    hide Points;
    forall n | n in g.heap[h].nodes ensures NodeMarked(g, n) {}
    TableDone(g, h);
  }

  predicate MetatablesMarked(g: Global, l: seq<Id>) {
    forall h :: h in l && h in g.heap && g.heap[h].Table? ==> RefMarked(g, g.heap[h].mt)
  }

  /** A table of the list whose metatable is not marked. */
  predicate MetaLost(g: Global, l: seq<Id>, o: Id)
    requires o in g.heap
  {
    o in l && g.heap[o].Table? && !RefMarked(g, g.heap[o].mt)
  }

  /** Marked objects reference only marked ones, those tables aside. */
  ghost predicate ClosedBut(g: Global, l: seq<Id>) {
    forall o :: o in g.heap && NonWhite(g, o) && !MetaLost(g, l, o) ==> Done(g, o)
  }

  lemma ClosedButNew(g0: Global, g1: Global)
    requires NewMetatables(g0, g1) && ClosedBut(g1, g1.allweak)
    ensures ClosedBut(g1, g0.allweak)
  {
    hide Done;
  }

  /** After the last clearing, marks are closed under every reference, weak ones included, if and
      only if the metatables of the tables in `allweak` are marked. */
  lemma AtomicClosed(g: Global, S: set<Id>)
    requires Marking(g, {}, S) && g.gray == []
    requires AllValsMarked(g, g.weak) && AllValsMarked(g, g.allweak)
    requires AllKeysMarked(g, g.allweak) && AllKeysMarked(g, g.ephemeron) && AllSettled(g, g.ephemeron)
    ensures MarkedClosed(g) <==> MetatablesMarked(g, g.allweak)
    ensures ClosedBut(g, g.allweak)
  {
    hide Lists, Points, ValsMarked, KeysMarked, EphemeronSettled, ArrMarked, AllAllocated, Done;
    MarkingParts(g, {}, S);
    forall o | o in g.heap && NonWhite(g, o) && !MetaLost(g, g.allweak, o) ensures Done(g, o) {
      assert ObjOk(g, {}, o);
      NotListed2(g, o);
      AtRestDone(g, o);
    }
    if MarkedClosed(g) {
      forall h | h in g.allweak && h in g.heap && g.heap[h].Table? ensures RefMarked(g, g.heap[h].mt) {
        InLists(g, h);
        KeepDomains(g);
        assert ObjOk(g, {}, h);
        assert g.color[h].Gray?;
        DoneMetatable(g, h);
      }
    }
  }

  lemma DoneMetatable(g: Global, h: Id)
    requires h in g.heap && g.heap[h].Table? && Done(g, h)
    ensures RefMarked(g, g.heap[h].mt)
  {
    if g.heap[h].mt.Obj? { assert Points(g.heap, h, g.heap[h].mt.id); }
  }

  lemma AtRestDone(g: Global, o: Id)
    requires o in g.heap && NonWhite(g, o) && ObjOk(g, {}, o) && g.gray == []
    requires o in Lists(g) ==> o in g.gray || o in g.grayagain || o in g.weak || o in g.allweak || o in g.ephemeron
    requires AllValsMarked(g, g.weak) && AllValsMarked(g, g.allweak)
    requires AllKeysMarked(g, g.allweak) && AllKeysMarked(g, g.ephemeron) && AllSettled(g, g.ephemeron)
    requires !MetaLost(g, g.allweak, o)
    ensures Done(g, o)
  {
    hide Lists, Points, ValsMarked, KeysMarked, EphemeronSettled, ArrMarked, Done;
    if o in g.weak || o in g.allweak {
      WeakDone(g, o);
    } else if o in g.ephemeron {
      EphemeronDone(g, o);
    }
  }

  lemma SplitList(l: seq<Id>, orig: seq<Id>, g: Global)
    requires Ext(orig, l) && AllValsMarked(g, orig) && AllValsMarked(g, l[..|l| - |orig|])
    ensures AllValsMarked(g, l)
  {
    hide ValsMarked;
    assert l == l[..|l| - |orig|] + orig;
  }

  lemma ParkFrame(g: Global, U: set<Id>)
    requires UpsGray(g, U) && TwupsAll(g)
    ensures var g1 := g.(grayagain := [], phase := Atomic);
      AtomicFrame(g, g1) && UpsGray(g1, U) && TwupsAll(g1)
  {
    var g1 := g.(grayagain := [], phase := Atomic);
    ParkLists(g);
    SameLists(g.(grayagain := []), g1);
  }

  lemma FrameRefs(g0: Global, g1: Global, refs: seq<Ref>)
    requires AtomicFrame(g0, g1) && forall v :: v in refs ==> RefMarked(g0, v)
    ensures forall v :: v in refs ==> RefMarked(g1, v)
  {}

  lemma TwupsThreads(g0: Global, g1: Global)
    requires TwupsAll(g0) && MarkedMore(g0.(twups := g1.twups), g1)
    requires forall th :: th in g1.twups ==> th in g0.twups && NonWhite(g1, th)
    ensures TwupsMarked(g1)
  {
    hide Lists;
  }

  lemma ResumeFrame(g: Global, saved: seq<Id>, g0: Global)
    requires AtomicFrame(g0, g) && TwupsMarked(g)
    ensures AtomicFrame(g0, g.(gray := saved)) && TwupsMarked(g.(gray := saved))
    ensures forall v :: RefMarked(g, v) ==> RefMarked(g.(gray := saved), v)
    ensures AtomicFrame(g, g.(gray := saved))
  {}

  /** Fields that visits never change. */
  ghost predicate SameFields(g0: Global, g1: Global) {
    && g1.phase == g0.phase && g1.finobj == g0.finobj && g1.tobefnz == g0.tobefnz && g1.cw == g0.cw
    && g1.roots == g0.roots && g1.main == g0.main && g1.allgc == g0.allgc && g1.sweep == g0.sweep
  }

  lemma VisitedFields(g0: Global, g1: Global, X: set<Id>)
    requires Visited(g0, g1, X)
    ensures SameFields(g0, g1)
  {}

  lemma RemarkFields(g0: Global, g1: Global)
    requires MarkedMore(g0.(twups := g1.twups), g1)
    ensures SameFields(g0, g1)
  {}

  lemma ClearedFields(g0: Global, g1: Global)
    requires ClearedMore(g0, g1)
    ensures SameFields(g0, g1) && g1.gray == g0.gray && g1.weak == g0.weak && g1.allweak == g0.allweak
          && g1.ephemeron == g0.ephemeron
  {}

  lemma FrameMarks(g0: Global, g1: Global)
    requires AtomicFrame(g0, g1)
    ensures forall o :: NonWhite(g0, o) ==> NonWhite(g1, o)
  {}

  lemma SeparatedFrame(g0: Global, g1: Global, S: set<Id>)
    requires g1 == g0.(finobj := g1.finobj, tobefnz := g1.tobefnz) && TwupsMarked(g0)
    requires AllValsMarked(g0, g0.weak) && AllValsMarked(g0, g0.allweak)
    requires multiset(g1.tobefnz) + multiset(g1.finobj) == multiset(g0.tobefnz) + multiset(g0.finobj)
    requires forall o :: o in g0.finobj || o in g0.tobefnz ==> Markable(g0, S, Obj(o))
    ensures AtomicFrame(g0, g1) && TwupsMarked(g1) && AllValsMarked(g1, g0.weak) && AllValsMarked(g1, g0.allweak)
    ensures forall o :: o in g1.tobefnz ==> Markable(g1, S, Obj(o))
  {
    hide ValsMarked, Markable;
    forall h | h in g0.weak || h in g0.allweak ensures ValsMarked(g0, h) ==> ValsMarked(g1, h) {
      if h in g0.heap && g0.heap[h].Table? { SameVals(g0, g1, h); }
    }
    forall o | o in g1.tobefnz ensures Markable(g1, S, Obj(o)) {
      assert o in multiset(g1.tobefnz) + multiset(g1.finobj);
      assert o in multiset(g0.tobefnz) + multiset(g0.finobj);
      SameMarkable(g0, g1, S, Obj(o));
    }
  }

  lemma SameVals(g0: Global, g1: Global, h: Id)
    requires g1 == g0.(finobj := g1.finobj, tobefnz := g1.tobefnz) && h in g0.heap && g0.heap[h].Table?
    ensures ValsMarked(g0, h) ==> ValsMarked(g1, h)
  {
    assert forall v :: RefMarked(g0, v) ==> RefMarked(g1, v);
  }

  lemma SameMarkable(g0: Global, g1: Global, S: set<Id>, v: Ref)
    requires g1 == g0.(finobj := g1.finobj, tobefnz := g1.tobefnz) && Markable(g0, S, v)
    ensures Markable(g1, S, v)
  {}

  lemma VisitedExt(g0: Global, g1: Global)
    requires Visited(g0, g1, {})
    ensures Ext(g0.weak, g1.weak) && Ext(g0.allweak, g1.allweak)
  {}

  lemma KeysDone(g: Global, l: seq<Id>)
    requires forall h :: h in l ==> h in g.heap && g.heap[h].Table? && KeysMarked(g, h)
    ensures AllKeysMarked(g, l)
  {
    hide KeysMarked;
  }

  lemma ValsDone(g: Global, l: seq<Id>)
    requires forall h :: h in l ==> h in g.heap && g.heap[h].Table? && ValsMarked(g, h)
    ensures AllValsMarked(g, l)
  {
    hide ValsMarked;
  }

  lemma FrontTables(g0: Global, g1: Global, S: set<Id>, l: seq<Id>, k: int)
    requires Marking(g0, {}, S) && ClearedMore(g0, g1) && AreTables(g0, l) && 0 <= k <= |l|
    ensures AreTables(g1, l[..k])
  {
    ClearKeeps(g0, g1, S, l);
  }

  lemma FrameMarkable(g0: Global, g1: Global, S: set<Id>)
    requires AtomicFrame(g0, g1) && g1.finobj == g0.finobj && g1.tobefnz == g0.tobefnz
    requires forall o :: o in g0.finobj || o in g0.tobefnz ==> Markable(g0, S, Obj(o))
    ensures forall o :: o in g1.finobj || o in g1.tobefnz ==> Markable(g1, S, Obj(o))
  {}

  lemma FrameSame(g0: Global, g1: Global)
    requires AtomicFrame(g0, g1)
    ensures g1.roots == g0.roots && g1.main == g0.main && g1.allgc == g0.allgc && g1.cw == g0.cw
  {}

  lemma MarksInside(g: Global, S: set<Id>)
    requires Marking(g, {}, S)
    ensures forall o :: o in g.heap && NonWhite(g, o) ==> o in S
    ensures MarkInv(g, {})
  {
    forall o | o in g.heap && NonWhite(g, o) ensures o in S { assert BoundedAt(g, S, o); }
  }

  lemma Flipped(g0: Global, g1: Global)
    requires g1 == g0.(cw := g1.cw) && TwupsMarked(g0)
    ensures (MarkedClosed(g1) <==> MarkedClosed(g0)) && TwupsMarked(g1)
    ensures forall l :: MetatablesMarked(g1, l) <==> MetatablesMarked(g0, l)
    ensures forall l :: ClosedBut(g1, l) <==> ClosedBut(g0, l)
    ensures MarkedOrString(g1) == MarkedOrString(g0)
    ensures forall v :: RefMarked(g0, v) ==> RefMarked(g1, v)
    ensures forall o :: NonWhite(g0, o) ==> NonWhite(g1, o)
    ensures forall o :: NonWhite(g1, o) ==> NonWhite(g0, o)
  {
    hide Points;
    assert forall r :: NonWhite(g0, r) <==> NonWhite(g1, r);
    assert forall o :: o in g0.heap ==> (Done(g0, o) <==> Done(g1, o));
  }

  // ---------------------------------------------------------------- tables in `allweak`

  /** Tables that joined `allweak` since `g0` have a marked metatable. */
  ghost predicate NewMetatables(g0: Global, g1: Global) {
    (forall h :: h in g0.allweak ==> h in g1.allweak)
    && forall h :: h in g1.allweak && h !in g0.allweak && h in g1.heap && g1.heap[h].Table? ==>
        RefMarked(g1, g1.heap[h].mt)
  }

  lemma NewMetaVisited(g0: Global, g1: Global)
    requires Visited(g0, g1, {})
    ensures NewMetatables(g0, g1)
  {
    hide Lists;
    ExtIn(g0.allweak, g1.allweak);
  }

  lemma ExtIn(s0: seq<Id>, s1: seq<Id>)
    requires Ext(s0, s1)
    ensures forall o :: o in s0 ==> o in s1
  {
    forall o | o in s0 ensures o in s1 { assert o in s1[|s1| - |s0|..]; }
  }

  lemma NewMetaChain(g0: Global, g1: Global, g2: Global)
    requires NewMetatables(g0, g1) && NewMetatables(g1, g2) && AtomicFrame(g1, g2)
    ensures NewMetatables(g0, g2)
  {
    forall h | h in g2.allweak && h !in g0.allweak && h in g2.heap && g2.heap[h].Table?
      ensures RefMarked(g2, g2.heap[h].mt) {
      if h in g1.allweak { assert BodyCleared(g1.heap[h], g2.heap[h]); }
    }
  }

  lemma NewMetaSame(g0: Global, g1: Global)
    requires g1.allweak == g0.allweak
    ensures NewMetatables(g0, g1)
  {}

  lemma NewMetaEnough(g0: Global, g1: Global)
    requires NewMetatables(g0, g1)
    ensures MetatablesMarked(g1, g1.allweak) <==> MetatablesMarked(g1, g0.allweak)
  {}

  lemma RemarkMeta(g0: Global, g1: Global)
    requires MarkedMore(g0.(twups := g1.twups), g1)
    ensures NewMetatables(g0, g1)
  {
    hide Lists;
  }

  /** Marking so far: keys dropped, colours grown, and the tables that joined `allweak` are right. */
  ghost predicate MarkTrail(g0: Global, g1: Global) {
    KeysDropped(g0.heap, g1.heap) && ColorsGrow(g0, g1) && NewAllWeakOk(g0, g1)
  }

  lemma TrailChain(g0: Global, g1: Global, g2: Global)
    requires MarkTrail(g0, g1) && MarkTrail(g1, g2)
    ensures MarkTrail(g0, g2)
  {
    hide KeysDropped, NewAllWeakOk;
    DroppedChain(g0.heap, g1.heap, g2.heap);
    NewAllWeakChain(g0, g1, g2);
  }

  lemma TrailSame(g0: Global, g1: Global)
    requires g1.heap == g0.heap && ColorsGrow(g0, g1) && g1.allweak == g0.allweak
    ensures MarkTrail(g0, g1)
  {}

  lemma TrailVisited(g0: Global, g1: Global)
    requires Visited(g0, g1, {})
    ensures MarkTrail(g0, g1)
  {
    VisitedTrail(g0, g1, {});
  }

  lemma TrailRemark(g0: Global, g1: Global)
    requires MarkedMore(g0.(twups := g1.twups), g1)
    ensures MarkTrail(g0, g1)
  {
    hide Lists;
  }

  // ---------------------------------------------------------------- what clearing may remove

  /** An entry was lost only if its key or its value is outside `M`. */
  ghost predicate NodeLost(n0: Node, n1: Node, M: set<Id>) {
    || n1 == n0
    || (n1.val.Empty? && (n1.key == n0.key || n1.key.NoRef?)
        && (n0.val.Val? ==> (n0.key.Obj? && n0.key.id !in M) || (n0.val.ref.Obj? && n0.val.ref.id !in M)))
  }

  ghost predicate BodyLost(b0: Body, b1: Body, M: set<Id>) {
    || b1 == b0
    || (b0.Table? && b1.Table? && b1 == b0.(arr := b1.arr, nodes := b1.nodes)
        && |b1.arr| == |b0.arr| && |b1.nodes| == |b0.nodes|
        && (forall i :: 0 <= i < |b0.arr| ==>
              b1.arr[i] == b0.arr[i] || (b1.arr[i].NoRef? && b0.arr[i].Obj? && b0.arr[i].id !in M))
        && (forall i :: 0 <= i < |b0.nodes| ==> NodeLost(b0.nodes[i], b1.nodes[i], M)))
  }

  /** The heap lost only weak entries whose key or value is outside `M`, and keys of empty entries. */
  ghost predicate LostOnly(h0: Heap, h1: Heap, M: set<Id>) {
    h1.Keys == h0.Keys && forall o :: o in h0 ==> BodyLost(h0[o], h1[o], M)
  }

  lemma LostChain(h0: Heap, h1: Heap, h2: Heap, M: set<Id>)
    requires LostOnly(h0, h1, M) && LostOnly(h1, h2, M)
    ensures LostOnly(h0, h2, M)
  {
    forall o | o in h0 ensures BodyLost(h0[o], h2[o], M) {
      assert BodyLost(h0[o], h1[o], M) && BodyLost(h1[o], h2[o], M);
      BodyLostChain(h0[o], h1[o], h2[o], M);
    }
  }

  lemma BodyLostChain(b0: Body, b1: Body, b2: Body, M: set<Id>)
    requires BodyLost(b0, b1, M) && BodyLost(b1, b2, M)
    ensures BodyLost(b0, b2, M)
  {
    if b0 != b1 && b1 != b2 {
      forall i | 0 <= i < |b0.nodes| ensures NodeLost(b0.nodes[i], b2.nodes[i], M) {
        assert NodeLost(b0.nodes[i], b1.nodes[i], M) && NodeLost(b1.nodes[i], b2.nodes[i], M);
      }
      forall i | 0 <= i < |b0.arr|
        ensures b2.arr[i] == b0.arr[i] || (b2.arr[i].NoRef? && b0.arr[i].Obj? && b0.arr[i].id !in M)
      {
        assert b1.arr[i] == b0.arr[i] || (b1.arr[i].NoRef? && b0.arr[i].Obj? && b0.arr[i].id !in M);
      }
    }
  }

  lemma DroppedLost(h0: Heap, h1: Heap, M: set<Id>)
    requires KeysDropped(h0, h1)
    ensures LostOnly(h0, h1, M)
  {
    forall o | o in h0 ensures BodyLost(h0[o], h1[o], M) { assert BodyKeysDropped(h0[o], h1[o]); }
  }

  lemma LostAt(h: Heap, o: Id, b: Body, M: set<Id>)
    requires o in h && BodyLost(h[o], b, M)
    ensures LostOnly(h, h[o := b], M)
  {}

  lemma LostNothing(h: Heap, M: set<Id>)
    ensures LostOnly(h, h, M)
  {}

  /** Everything of `M` is marked. */
  ghost predicate Kept(g: Global, M: set<Id>) {
    forall o :: o in M ==> NonWhite(g, o)
  }

  lemma KeptStays(g0: Global, g1: Global, M: set<Id>)
    requires AtomicFrame(g0, g1) && Kept(g0, M)
    ensures Kept(g1, M)
  {}

  lemma KeptCleared(g0: Global, g1: Global, M: set<Id>)
    requires ClearedMore(g0, g1) && g0.heap.Keys == g0.color.Keys && Kept(g0, M)
    ensures Kept(g1, M)
  {
    ClearedFrame(g0, g1);
    KeptStays(g0, g1, M);
  }

  lemma KeptStart(g: Global)
    ensures Kept(g, Marked(g))
  {}

  lemma NotKept(g: Global, M: set<Id>, v: Ref)
    requires Kept(g, M) && v.Obj? && v.id in g.heap && v.id in g.color && g.color[v.id].White?
    ensures v.id !in M
  {}

  lemma RootsKept(g: Global, S: set<Id>, refs: seq<Ref>)
    requires Marking(g, {}, S) && forall v :: v in refs ==> RefMarked(g, v)
    ensures forall v :: v in refs && v.Obj? ==> v.id in Marked(g)
  {
    hide Lists, Points, ObjOk;
    KeepDomains(g);
    forall v | v in refs && v.Obj? ensures v.id in Marked(g) { assert RefMarked(g, v); }
  }

  lemma KeptFlipped(g0: Global, g1: Global, M: set<Id>)
    requires g1 == g0.(cw := g1.cw) && Kept(g0, M)
    ensures Kept(g1, M)
  {
    forall o | o in M ensures NonWhite(g1, o) { assert NonWhite(g0, o); }
  }

  /** When marking ends, the marked objects are closed under strong references and the ephemeron rule,
      as the heap was when the atomic phase began; tables put into `allweak` before it are the exception. */
  lemma StrongClosure(g0: Global, g: Global, S: set<Id>)
    requires Marking(g, {}, S) && g.gray == [] && AllSettled(g, g.ephemeron) && MarkTrail(g0, g)
    ensures forall o :: o in Marked(g) && o !in g0.allweak ==> o in g0.heap && ClosedAt(g0.heap, Marked(g), o)
    ensures KeysDropped(g0.heap, g.heap)
  {
    hide Lists, Points, AllSettled, ClosedAt, MarkInv;
    MarkingParts(g, {}, S);
    forall o | o in Marked(g) && o !in g0.allweak ensures o in g0.heap && ClosedAt(g0.heap, Marked(g), o) {
      MarkedClosedAt(g0, g, o);
      ClosedBack(g0.heap, g.heap, Marked(g), o);
    }
  }

  /** Clearing since `g0`: the marking invariant holds, and only weak entries outside `M` were lost. */
  ghost predicate Clearing(g0: Global, g1: Global, S: set<Id>, M: set<Id>) {
    Marking(g1, {}, S) && ClearedMore(g0, g1) && LostOnly(g0.heap, g1.heap, M) && Kept(g1, M)
  }

  lemma ClearingStart(g: Global, S: set<Id>, M: set<Id>)
    requires Marking(g, {}, S) && Kept(g, M)
    ensures Clearing(g, g, S, M)
  {
    hide Marking;
  }

  lemma ClearingParts(g0: Global, g1: Global, S: set<Id>, M: set<Id>)
    requires Clearing(g0, g1, S, M)
    ensures Marking(g1, {}, S) && Kept(g1, M) && Clearing(g1, g1, S, M)
  {
    hide Marking;
  }

  lemma ClearingChain(g0: Global, g1: Global, g2: Global, S: set<Id>, M: set<Id>)
    requires Clearing(g0, g1, S, M) && Clearing(g1, g2, S, M)
    ensures Clearing(g0, g2, S, M)
  {
    hide Marking, ClearedMore, LostOnly, Kept;
    ClearedChain(g0, g1, g2);
    LostChain(g0.heap, g1.heap, g2.heap, M);
  }

  lemma ClearingRefs(g0: Global, g1: Global, S: set<Id>, M: set<Id>)
    requires Clearing(g0, g1, S, M) && Marking(g0, {}, S)
    ensures forall v :: RefMarked(g0, v) ==> RefMarked(g1, v)
    ensures forall n :: NodeValMarked(g0, n) ==> NodeValMarked(g1, n)
    ensures forall h :: h in g0.heap && g0.heap[h].Table? && ArrMarked(g0, h) ==>
              h in g1.heap && g1.heap[h].Table? && ArrMarked(g1, h)
  {
    hide Marking, ClearedMore, LostOnly, Kept, RefMarked, ArrMarked;
    ClearedRefs(g0, g1, S);
  }

  lemma EmptyLost(g0: Global, g1: Global, h: Id, i: nat, M: set<Id>)
    requires h in g0.heap && g0.heap[h].Table? && i < |g0.heap[h].nodes| && h in g1.heap && g1.heap[h].Table?
    requires i < |g1.heap[h].nodes| && g1.heap ==
        g0.heap[h := g0.heap[h].(nodes := g0.heap[h].nodes[i := g1.heap[h].nodes[i]])]
    requires NodeLost(g0.heap[h].nodes[i], g1.heap[h].nodes[i], M)
    ensures LostOnly(g0.heap, g1.heap, M)
  {
    LostAt(g0.heap, h, g1.heap[h], M);
  }

  lemma MarksKept(g0: Global, g1: Global)
    requires AtomicFrame(g0, g1)
    ensures forall o :: o in g0.heap && NonWhite(g0, o) ==> o in Marked(g1)
  {}

  /** Clearing changes the colour of strings only. */
  lemma ClearedWhites(g0: Global, g1: Global)
    requires ClearedMore(g0, g1) && g0.heap.Keys == g0.color.Keys
    ensures forall o :: o in g0.heap && !g0.heap[o].Str? ==> (o in Whites(g1) <==> !NonWhite(g0, o))
  {}

  lemma PickedNone(W: set<Id>)
    ensures Picked([], W) == [] && Unpicked([], W) == []
  {}

  lemma PickedNext(l: seq<Id>, i: nat, W: set<Id>)
    requires i < |l|
    ensures Picked(l[..i + 1], W) == Picked(l[..i], W) + if l[i] in W then [l[i]] else []
    ensures Unpicked(l[..i + 1], W) == Unpicked(l[..i], W) + if l[i] in W then [] else [l[i]]
  {
    assert l[..i + 1][..i] == l[..i];
  }

  lemma {:induction false} PickedAll(l: seq<Id>, W: set<Id>)
    ensures multiset(Picked(l, W)) + multiset(Unpicked(l, W)) == multiset(l)
  {
    if l != [] {
      var front, last := l[..|l| - 1], l[|l| - 1];
      PickedAll(front, W);
      assert l == front + [last];
    }
  }

  lemma MovedAll(t: seq<Id>, p: seq<Id>, u: seq<Id>, l: seq<Id>)
    requires multiset(p) + multiset(u) == multiset(l)
    ensures multiset(t + p) + multiset(u) == multiset(t) + multiset(l)
  {}

  lemma {:induction false} UnpickedMarked(g: Global, l: seq<Id>)
    requires forall o :: o in l ==> o in g.color
    ensures forall o :: o in Unpicked(l, Whites(g)) ==> o in l && !g.color[o].White?
  {
    if l != [] {
      var front := l[..|l| - 1];
      assert forall o :: o in front ==> o in l;
      UnpickedMarked(g, front);
    }
  }

  lemma MetaKept(g0: Global, g1: Global)
    requires NewMetatables(g0, g1)
    ensures forall h :: h in g0.allweak ==> h in g1.allweak
  {}

  lemma MarkingOn(g: Global, pend: set<Id>, S: set<Id>)
    requires MarkInv(g, pend) && Bounded(g, S)
    ensures Marking(g, pend, S)
  {
    hide MarkInv, Bounded;
  }

  lemma FirstConverged(g0: Global, g: Global, S: set<Id>)
    requires Marking(g, {}, S) && g.gray == [] && AllSettled(g, g.ephemeron) && MarkTrail(g0, g)
    ensures Bounded(g0, MarkedOrString(g))
  {
    hide MarkInv, AllSettled, Bounded, MarkedOrString, KeysDropped, NewAllWeakOk;
    Converged(g0, g);
  }
}
