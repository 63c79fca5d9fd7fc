/** What marking and visiting do to the collector's state, and how the marking invariant, the upper
    bound on marks and the progress measure go through each elementary change. */
module LuaVisit {
  import opened LuaHeap
  import opened LuaMarkSteps

  ghost predicate Marking(g: Global, pend: set<Id>, S: set<Id>) {
    MarkInv(g, pend) && Bounded(g, S)
  }

  // ---------------------------------------------------------------- elementary changes

  /** A white object leaves white; it is owed a visit until it is settled. */
  lemma Grayed(g: Global, pend: set<Id>, S: set<Id>, o: Id, c: Color)
    requires Marking(g, pend, S) && o in g.heap && o in g.color && o in S && g.color[o].White? && !c.White?
    ensures Marking(g.(color := g.color[o := c]), pend + {o}, S)
    ensures o !in Lists(g)
  {
    hide Points, AllAllocated, ClosedAt, Lists;
    var g1 := g.(color := g.color[o := c]);
    assert ObjOk(g, pend, o);
    KeepDomains(g);
    NotListed(g, o);
    assert Lists(g1) == Lists(g) by { SameLists(g, g1); }
    OneChanged(g, pend, g1, pend + {o}, o);
    assert forall r :: r in g.heap && NonWhite(g1, r) && r != o ==> BoundedAt(g, S, r);
    BoundedKept(g, g1, S);
  }

  lemma SameLists(g0: Global, g1: Global)
    requires g1.gray == g0.gray && g1.grayagain == g0.grayagain && g1.weak == g0.weak
    requires g1.allweak == g0.allweak && g1.ephemeron == g0.ephemeron
    ensures Lists(g1) == Lists(g0)
  {}

  /** The upper bound survives a change that marks nothing new. */
  lemma BoundsKept(g: Global, g1: Global, S: set<Id>)
    requires Bounded(g, S) && Cleared(g.heap, g1.heap) && forall o :: o in g.allweak ==> o in g1.allweak
    requires forall o :: o in g.heap && NonWhite(g1, o) ==> NonWhite(g, o)
    ensures Bounded(g1, S)
  {
    hide ClosedAt, Cleared;
    forall o | o in g.heap && NonWhite(g1, o) ensures o in S { assert BoundedAt(g, S, o); }
    BoundedKept(g, g1, S);
  }

  /** The head of the gray list is taken off to be visited. */
  lemma Popped(g: Global, pend: set<Id>, S: set<Id>)
    requires Marking(g, pend, S) && g.gray != [] && g.gray[0] in g.heap && g.gray[0] in g.color
    ensures var o := g.gray[0];
      var g1 := g.(gray := g.gray[1..], color := g.color[o := Black]);
      Marking(g1, pend + {o}, S) && o !in Lists(g1) && g.color[o].Gray? && HasGclist(g.heap[o])
    ensures forall x :: x in Lists(g.(gray := g.gray[1..])) ==> x in Lists(g)
  {
    hide AllAllocated, Lists, Bounded, ListedOk, ColorOk, TwupOk;
    var o := g.gray[0];
    var g1 := g.(gray := g.gray[1..], color := g.color[o := Black]);
    KeepDomains(g);
    PopLists(g, g1);
    assert ObjOk(g, pend, o);
    PoppedObj(g, pend);
    OneChanged(g, pend, g1, pend + {o}, o);
    BoundsKept(g, g1, S);
    PopLists(g, g.(gray := g.gray[1..]));
  }

  lemma PoppedObj(g: Global, pend: set<Id>)
    requires g.gray != [] && g.gray[0] in g.heap && g.gray[0] in g.color && ObjOk(g, pend, g.gray[0])
    ensures var o := g.gray[0];
      var g1 := g.(gray := g.gray[1..], color := g.color[o := Black]);
      ObjOk(g1, pend + {o}, o) && o !in Lists(g1) && g.color[o].Gray? && HasGclist(g.heap[o])
  {
    hide Points, Lists;
    var o := g.gray[0];
    var g1 := g.(gray := g.gray[1..], color := g.color[o := Black]);
    PopLists(g, g1);
    NotListed(g1, o);
  }

  lemma PopLists(g: Global, g1: Global)
    requires g.gray != [] && g1 == g.(gray := g.gray[1..], color := g1.color)
    ensures Lists(g) == Lists(g1) + multiset{g.gray[0]}
    ensures forall x :: x in g1.gray ==> x in g.gray
    ensures forall x :: x in g.gray && x != g.gray[0] ==> x in g1.gray
    ensures g.gray[0] in Lists(g)
  {
    assert g.gray == [g.gray[0]] + g.gray[1..];
    assert multiset(g.gray) == multiset{g.gray[0]} + multiset(g.gray[1..]);
  }

  /** An object being visited changes between gray and black, and may lose keys of empty entries. */
  lemma Reworked(g: Global, pend: set<Id>, S: set<Id>, o: Id, c: Color, b: Body)
    requires Marking(g, pend + {o}, S) && o in g.heap && o in g.color && o !in Lists(g)
    requires !g.color[o].White? && !c.White? && BodyCleared(g.heap[o], b)
    ensures Marking(g.(heap := g.heap[o := b], color := g.color[o := c]), pend + {o}, S)
    ensures o !in Lists(g.(heap := g.heap[o := b], color := g.color[o := c]))
  {
    hide AllAllocated, Lists, Bounded, ListedOk, ColorOk, TwupOk, BodyCleared;
    var g1 := g.(heap := g.heap[o := b], color := g.color[o := c]);
    KeepDomains(g);
    SameLists(g, g1);
    assert ObjOk(g, pend + {o}, o);
    ReworkedObj(g, pend, o, c, b);
    assert Cleared(g.heap, g1.heap) by { OneCleared(g.heap, o, b); }
    OneChanged(g, pend + {o}, g1, pend + {o}, o);
    BoundsKept(g, g1, S);
  }

  lemma OneCleared(h: Heap, o: Id, b: Body)
    requires o in h && BodyCleared(h[o], b)
    ensures Cleared(h, h[o := b])
  {}

  lemma ReworkedObj(g: Global, pend: set<Id>, o: Id, c: Color, b: Body)
    requires o in g.heap && o in g.color && o !in Lists(g) && ObjOk(g, pend + {o}, o)
    requires !g.color[o].White? && !c.White? && BodyCleared(g.heap[o], b)
    ensures ObjOk(g.(heap := g.heap[o := b], color := g.color[o := c]), pend + {o}, o)
  {
    hide Points, Lists;
    SameLists(g, g.(heap := g.heap[o := b], color := g.color[o := c]));
    NotListed(g, o);
  }

  lemma KeepDomains(g: Global)
    requires AllAllocated(g)
    ensures g.heap.Keys == g.color.Keys && UpvalsOk(g.heap)
  {}

  /** An object that was visited, or that a list or its thread covers, is owed nothing more. */
  lemma Settled(g: Global, pend: set<Id>, S: set<Id>, o: Id)
    requires Marking(g, pend + {o}, S) && o in g.heap && o in g.color
    requires o !in g.grayagain || Done(g, o)
    requires ColorOk(g, pend, o) && TwupOk(g, pend, o)
    requires g.heap[o].Thread? ==> o in g.gray || Done(g, o)
    ensures Marking(g, pend, S)
  {
    hide Points, AllAllocated, ClosedAt, Lists, ColorOk, TwupOk, Bounded;
    KeepDomains(g);
    assert ObjOk(g, pend + {o}, o);
    assert g.heap == g.heap[o := g.heap[o]] && g.color == g.color[o := g.color[o]];
    OneChanged(g, pend + {o}, g, pend, o);
  }

  datatype GrayList = InGray | InGrayAgain | InWeak | InAllWeak | InEphemeron

  function Put(g: Global, l: GrayList, o: Id): Global {
    match l
    case InGray => g.(gray := [o] + g.gray)
    case InGrayAgain => g.(grayagain := [o] + g.grayagain)
    case InWeak => g.(weak := [o] + g.weak)
    case InAllWeak => g.(allweak := [o] + g.allweak)
    case InEphemeron => g.(ephemeron := [o] + g.ephemeron)
  }

  lemma PutLists(g: Global, l: GrayList, o: Id)
    ensures Lists(Put(g, l, o)) == Lists(g) + multiset{o}
  {
    match l
    case InGray => assert multiset([o] + g.gray) == multiset{o} + multiset(g.gray);
    case InGrayAgain => assert multiset([o] + g.grayagain) == multiset{o} + multiset(g.grayagain);
    case InWeak => assert multiset([o] + g.weak) == multiset{o} + multiset(g.weak);
    case InAllWeak => assert multiset([o] + g.allweak) == multiset{o} + multiset(g.allweak);
    case InEphemeron => assert multiset([o] + g.ephemeron) == multiset{o} + multiset(g.ephemeron);
  }

  lemma PutOthers(g: Global, pend: set<Id>, p1: set<Id>, l: GrayList, o: Id, x: Id)
    requires x != o && (x in pend <==> x in p1)
    ensures Same(g, pend, Put(g, l, o), p1, x)
  {
    hide Lists;
    PutLists(g, l, o);
  }

  lemma NotListed(g: Global, o: Id)
    requires o !in Lists(g)
    ensures o !in g.gray && o !in g.grayagain && o !in g.weak && o !in g.allweak && o !in g.ephemeron
  {}

  /** What a visit must have established before the object goes to list `l`. */
  ghost predicate ReadyFor(g: Global, pend: set<Id>, l: GrayList, o: Id)
    requires o in g.heap
  {
    match l
    case InGray => true
    case InGrayAgain => (o in pend || Done(g, o)) && (g.heap[o].Thread? ==> o in pend || (Done(g, o) && TwupIn(g, o)))
    case InWeak => g.heap[o].Table? && g.heap[o].mode.WeakValues? && RefMarked(g, g.heap[o].mt) && KeysMarked(g, o)
    case InAllWeak => g.heap[o].Table?
    case InEphemeron => g.heap[o].Table? && g.heap[o].mode.Ephemerons? && RefMarked(g, g.heap[o].mt) && ArrMarked(g, o)
  }

  ghost predicate TwupIn(g: Global, o: Id)
    requires o in g.heap
  {
    g.heap[o].Thread? && g.heap[o].open != [] ==> o in g.twups
  }

  lemma Linked(g: Global, pend: set<Id>, S: set<Id>, l: GrayList, o: Id)
    requires Marking(g, pend + {o}, S)
    requires o in g.heap && o in g.color && g.color[o].Gray? && HasGclist(g.heap[o]) && o !in Lists(g)
    requires ReadyFor(g, pend, l, o)
    ensures Marking(Put(g, l, o), pend, S)
  {
    hide AllAllocated, Lists, ObjOk, ReadyFor, Bounded, HasGclist, Same, OnlyAt, StillCovers;
    var g1 := Put(g, l, o);
    KeepDomains(g);
    assert ObjOk(g1, pend, o) by { PutObj(g, pend, l, o); }
    forall x | x != o ensures Same(g, pend + {o}, g1, pend, x) { PutOthers(g, pend + {o}, pend, l, o, x); }
    if g.heap[o].Thread? { PutCovers(g, pend, l, o); }
    PutOnly(g, pend, l, o);
    OneChanged(g, pend + {o}, g1, pend, o);
    BoundsKept(g, g1, S);
  }

  lemma PutCovers(g: Global, pend: set<Id>, l: GrayList, o: Id)
    requires o in g.heap && HasGclist(g.heap[o]) && ReadyFor(g, pend, l, o) && g.heap[o].Thread?
    ensures StillCovers(g, pend + {o}, Put(g, l, o), pend, o)
  {
    hide Points;
    if l == InGrayAgain && o !in pend { DoneKept(g, Put(g, l, o), o); }
  }

  lemma PutOnly(g: Global, pend: set<Id>, l: GrayList, o: Id)
    requires g.heap.Keys == g.color.Keys && o in g.heap
    requires forall x :: x != o ==> Same(g, pend + {o}, Put(g, l, o), pend, x)
    ensures OnlyAt(g, pend + {o}, Put(g, l, o), pend, o) && Cleared(g.heap, Put(g, l, o).heap)
    ensures Put(g, l, o) == g.(gray := Put(g, l, o).gray, grayagain := Put(g, l, o).grayagain,
                               weak := Put(g, l, o).weak,
                               allweak := Put(g, l, o).allweak, ephemeron := Put(g, l, o).ephemeron)
    ensures forall x :: x in g.allweak ==> x in Put(g, l, o).allweak
  {
    hide Same;
    var g1 := Put(g, l, o);
    assert g1.heap == g.heap[o := g1.heap[o]] && g1.color == g.color[o := g1.color[o]];
  }

  lemma PutObj(g: Global, pend: set<Id>, l: GrayList, o: Id)
    requires o in g.heap && o in g.color && g.color[o].Gray? && HasGclist(g.heap[o]) && o !in Lists(g)
    requires ReadyFor(g, pend, l, o)
    ensures ObjOk(Put(g, l, o), pend, o)
  {
    hide Points, Lists;
    PutLists(g, l, o);
    NotListed(g, o);
    var g1 := Put(g, l, o);
    assert g1.heap == g.heap && g1.color == g.color;
    if Done(g, o) { DoneKept(g, g1, o); }
  }

  // ---------------------------------------------------------------- relations between states

  /** The gray list changes only when white objects become gray. */
  ghost predicate GrayKept(g0: Global, g1: Global) {
    g1.gray == g0.gray || Whites(g1) < Whites(g0)
  }

  /** Marking only: nothing but colours and the gray list changed, and only for white objects. */
  ghost predicate MarkedMore(g0: Global, g1: Global) {
    && GrayKept(g0, g1)
    && g1 == g0.(color := g1.color, gray := g1.gray)
    && g1.color.Keys == g0.color.Keys
    && (forall o :: o in g0.color && !g0.color[o].White? ==> g1.color[o] == g0.color[o])
    && (forall o :: o in g1.color && g1.color[o].White? ==> g0.color[o] == g1.color[o])
    && (forall o :: o in Lists(g1) ==> o in Lists(g0) || (o in g0.color && g0.color[o].White?))
  }

  lemma PutGrayMarks(g0: Global, g: Global, o: Id)
    requires MarkedMore(g0, g) && o in g0.color && g0.color[o].White? && NonWhite(g, o)
    ensures MarkedMore(g0, Put(g, InGray, o))
  {
    hide Lists;
    assert o in g.color && !g.color[o].White? ==> o in Whites(g0) && o !in Whites(g);
    PutLists(g, InGray, o);
  }

  lemma MarksChain(g0: Global, g1: Global, g2: Global)
    requires MarkedMore(g0, g1) && MarkedMore(g1, g2)
    ensures MarkedMore(g0, g2)
  {
    hide Lists;
    assert Whites(g1) <= Whites(g0) && Whites(g2) <= Whites(g1);
  }

  /** A reference that marking may follow: its target is allocated and inside the bound. */
  ghost predicate Markable(g: Global, S: set<Id>, v: Ref) {
    v.Obj? ==> v.id in g.heap && v.id in g.color && v.id in S
  }

  lemma StrongMarkable(g: Global, pend: set<Id>, S: set<Id>, o: Id, r: Id)
    requires Marking(g, pend, S) && o in g.heap && o in S && o !in g.allweak && StrongTo(g.heap, o, r)
    ensures Markable(g, S, Obj(r))
  {
    assert BoundedAt(g, S, o);
    assert Points(g.heap, o, r);
  }

  function Content(h: Heap, o: Id): Ref
    requires o in h
  {
    match h[o]
    case Udata(mt) => mt
    case ClosedUp(v) => v
    case OpenUp(th, slot) =>
      if th in h && h[th].Thread? && slot < |h[th].stack| then h[th].stack[slot] else NoRef
    case _ => NoRef
  }

  lemma ContentMarkable(g: Global, pend: set<Id>, S: set<Id>, o: Id)
    requires Marking(g, pend, S) && o in g.heap && o in S && o !in Lists(g)
    ensures Markable(g, S, Content(g.heap, o))
  {
    NotListed(g, o);
    var v := Content(g.heap, o);
    if v.Obj? { StrongMarkable(g, pend, S, o, v.id); }
  }

  lemma ContentDone(g: Global, o: Id)
    requires o in g.heap && (g.heap[o].Udata? || g.heap[o].ClosedUp? || g.heap[o].OpenUp?)
    requires RefMarked(g, Content(g.heap, o))
    ensures Done(g, o)
  {}

  /** A visit in progress: marks grow and the visited table may lose keys of empty entries. */
  ghost predicate VisitMore(g0: Global, g1: Global, cur: Id) {
    && GrayKept(g0, g1)
    && g1 == g0.(heap := g1.heap, color := g1.color, gray := g1.gray)
    && cur in g0.heap && cur in g1.heap && g1.heap == g0.heap[cur := g1.heap[cur]]
    && BodyKeysDropped(g0.heap[cur], g1.heap[cur])
    && g1.color.Keys == g0.color.Keys
    && (forall o :: o in g0.color && !g0.color[o].White? ==> g1.color[o] == g0.color[o])
    && (forall o :: o in g1.color && g1.color[o].White? ==> g0.color[o] == g1.color[o])
    && (forall o :: o in Lists(g1) ==> o in Lists(g0) || (o in g0.color && g0.color[o].White?))
  }

  lemma VisitChain(g0: Global, g1: Global, g2: Global, cur: Id)
    requires VisitMore(g0, g1, cur)
    requires VisitMore(g1, g2, cur) || MarkedMore(g1, g2)
    ensures VisitMore(g0, g2, cur)
  {
    hide Lists;
    assert Whites(g1) <= Whites(g0) && Whites(g2) <= Whites(g1);
    if g1.heap[cur] != g2.heap[cur] && g0.heap[cur] != g1.heap[cur] {
      forall i | 0 <= i < |g0.heap[cur].nodes|
        ensures g2.heap[cur].nodes[i] == g0.heap[cur].nodes[i]
             || (g0.heap[cur].nodes[i].val.Empty? && g2.heap[cur].nodes[i] == Node(NoRef, Empty))
      {
        assert g1.heap[cur].nodes[i] == g0.heap[cur].nodes[i] || g1.heap[cur].nodes[i] == Node(NoRef, Empty);
      }
    }
  }

  lemma VisitStart(g: Global, cur: Id)
    requires cur in g.heap
    ensures VisitMore(g, g, cur)
  {
    hide Lists;
  }

  /** The visit of `cur` is under way: it left the gray list and is owed the rest of its visit. */
  ghost predicate AtVisit(g: Global, pend: set<Id>, S: set<Id>, cur: Id) {
    && Marking(g, pend + {cur}, S) && cur in g.heap && cur in g.color
    && !g.color[cur].White? && cur !in Lists(g) && cur in S
  }

  lemma VisitKeeps(g0: Global, g1: Global, pend: set<Id>, S: set<Id>, cur: Id)
    requires AtVisit(g0, pend, S, cur) && Marking(g1, pend + {cur}, S)
    requires VisitMore(g0, g1, cur) || MarkedMore(g0, g1)
    ensures AtVisit(g1, pend, S, cur)
  {
    hide Marking, Lists;
  }

  lemma VisitGrows(g0: Global, g1: Global, cur: Id)
    requires VisitMore(g0, g1, cur)
    ensures KeysDropped(g0.heap, g1.heap) && ColorsGrow(g0, g1)
    ensures forall r :: NonWhite(g0, r) ==> NonWhite(g1, r)
  {
    hide Lists;
  }

  lemma MarkGrows(g0: Global, g1: Global)
    requires MarkedMore(g0, g1)
    ensures ColorsGrow(g0, g1)
    ensures forall r :: NonWhite(g0, r) ==> NonWhite(g1, r)
  {
    hide Lists;
  }

  ghost predicate AllMarkable(g: Global, S: set<Id>, refs: seq<Ref>) {
    forall v :: v in refs ==> Markable(g, S, v)
  }

  lemma RefsMarkable(g: Global, pend: set<Id>, S: set<Id>, cur: Id, refs: seq<Ref>)
    requires AtVisit(g, pend, S, cur)
    requires forall r :: Obj(r) in refs ==> StrongTo(g.heap, cur, r)
    ensures AllMarkable(g, S, refs)
  {
    hide Marking, StrongTo, Lists;
    NotListed(g, cur);
    forall v | v in refs ensures Markable(g, S, v) {
      if v.Obj? { StrongMarkable(g, pend + {cur}, S, cur, v.id); }
    }
  }

  /** The white target of `v` did not change, or is marked now. */
  ghost predicate OnlyStrings(g0: Global, g1: Global) {
    && g1.gray == g0.gray && g1.color.Keys == g0.color.Keys
    && forall o :: o in g0.color && o in g0.heap && !g0.heap[o].Str? ==> g1.color[o] == g0.color[o]
  }

  ghost predicate NodeMarked(g: Global, n: Node) {
    RefMarked(g, n.key) && (n.val.Val? ==> RefMarked(g, n.val.ref))
  }

  ghost predicate NodesMarked(g: Global, cur: Id, k: nat)
    requires cur in g.heap && g.heap[cur].Table? && k <= |g.heap[cur].nodes|
  {
    forall j :: 0 <= j < k ==> NodeMarked(g, g.heap[cur].nodes[j])
  }

  lemma TableDone(g: Global, cur: Id)
    requires cur in g.heap && g.heap[cur].Table? && RefMarked(g, g.heap[cur].mt) && ArrMarked(g, cur)
    requires forall n :: n in g.heap[cur].nodes ==> NodeMarked(g, n)
    ensures Done(g, cur)
  {
    forall r | Points(g.heap, cur, r) ensures NonWhite(g, r) {
      if g.heap[cur].mt == Obj(r) {
      } else if Obj(r) in g.heap[cur].arr {
      } else {
        var n :| n in g.heap[cur].nodes && NodeRefs(n, r);
        assert NodeMarked(g, n);
      }
    }
  }

  /** A visit of a thread: everything it references is marked, and in the atomic phase it is back
      in `twups` if it holds open upvalues. */
  ghost predicate ThreadMore(g0: Global, g1: Global, cur: Id) {
    && (g1.twups == g0.twups || g1.twups == [cur] + g0.twups)
    && MarkedMore(g0.(twups := g1.twups), g1)
    && cur in g1.heap && Done(g1, cur)
    && (g1.phase.Atomic? ==> TwupIn(g1, cur)) && NonWhite(g1, cur) && g1.heap[cur].Thread?
  }

  lemma ThreadDone(g: Global, cur: Id)
    requires cur in g.heap && g.heap[cur].Thread?
    requires forall v :: v in g.heap[cur].stack ==> RefMarked(g, v)
    requires forall uv :: uv in g.heap[cur].open ==> NonWhite(g, uv)
    ensures Done(g, cur)
  {
    forall r | Points(g.heap, cur, r) ensures NonWhite(g, r) {
      if Obj(r) in g.heap[cur].stack { assert RefMarked(g, Obj(r)); }
    }
  }

  /** Both references of a non-empty node of a strong table may be marked. */
  lemma StrongNode(g: Global, pend: set<Id>, S: set<Id>, cur: Id, i: nat)
    requires AtVisit(g, pend, S, cur) && g.heap[cur].Table? && i < |g.heap[cur].nodes|
    requires g.heap[cur].nodes[i].val.Val?
    ensures g.heap[cur].mode.StrongT? ==>
      Markable(g, S, g.heap[cur].nodes[i].key) && Markable(g, S, g.heap[cur].nodes[i].val.ref)
    ensures g.heap[cur].mode.WeakValues? ==> Markable(g, S, g.heap[cur].nodes[i].key)
  {
    hide Marking, Lists;
    NotListed(g, cur);
    var n := g.heap[cur].nodes[i];
    assert n in g.heap[cur].nodes;
    if n.key.Obj? && (g.heap[cur].mode.StrongT? || g.heap[cur].mode.WeakValues?) {
      assert NodeRefs(n, n.key.id);
      StrongMarkable(g, pend + {cur}, S, cur, n.key.id);
    }
    if n.val.ref.Obj? && g.heap[cur].mode.StrongT? {
      assert NodeRefs(n, n.val.ref.id);
      StrongMarkable(g, pend + {cur}, S, cur, n.val.ref.id);
    }
  }

  ghost predicate Ext(s0: seq<Id>, s1: seq<Id>) {
    |s0| <= |s1| && s1[|s1| - |s0|..] == s0
  }

  lemma ExtChain(s0: seq<Id>, s1: seq<Id>, s2: seq<Id>)
    requires Ext(s0, s1) && Ext(s1, s2)
    ensures Ext(s0, s2)
  {
    assert s2[|s2| - |s0|..] == s2[|s2| - |s1|..][|s1| - |s0|..];
  }

  /** Tables that joined `allweak` have a marked metatable, and ephemeron tables among them have
      only keys to clear: their values are marked. */
  ghost predicate NewAllWeakOk(g0: Global, g1: Global) {
    forall o :: o in g1.allweak && o !in g0.allweak && o in g1.heap && g1.heap[o].Table? ==>
      RefMarked(g1, g1.heap[o].mt) && (g1.heap[o].mode.AllWeak? || (g1.heap[o].mode.Ephemerons? && ValsMarked(g1, o)))
  }

  lemma ValsKept(g0: Global, g1: Global, o: Id)
    requires KeysDropped(g0.heap, g1.heap) && ColorsGrow(g0, g1) && o in g0.heap && g0.heap[o].Table?
    requires ValsMarked(g0, o)
    ensures g1.heap[o].Table? && ValsMarked(g1, o)
  {
    assert BodyKeysDropped(g0.heap[o], g1.heap[o]);
    forall n | n in g1.heap[o].nodes && n.val.Val? ensures RefMarked(g1, n.val.ref) {
      var i :| 0 <= i < |g1.heap[o].nodes| && g1.heap[o].nodes[i] == n;
      assert g0.heap[o].nodes[i] == n;
      assert RefMarked(g0, n.val.ref);
    }
    forall r | r in g1.heap[o].arr ensures RefMarked(g1, r) { assert RefMarked(g0, r); }
  }

  lemma NewAllWeakChain(g0: Global, g1: Global, g2: Global)
    requires NewAllWeakOk(g0, g1) && NewAllWeakOk(g1, g2) && KeysDropped(g1.heap, g2.heap) && ColorsGrow(g1, g2)
    ensures NewAllWeakOk(g0, g2)
  {
    hide ValsMarked;
    forall o | o in g2.allweak && o !in g0.allweak && o in g2.heap && g2.heap[o].Table?
      ensures RefMarked(g2, g2.heap[o].mt)
            && (g2.heap[o].mode.AllWeak? || (g2.heap[o].mode.Ephemerons? && ValsMarked(g2, o)))
    {
      if o in g1.allweak {
        assert BodyKeysDropped(g1.heap[o], g2.heap[o]);
        if g1.heap[o].mode.Ephemerons? { ValsKept(g1, g2, o); }
      }
    }
  }

  /** Whole visits: marks grow, keys of empty entries are dropped, and what is in a gray list
      was in one before, was white before, or is in `X`. Tables join the weak lists in front. */
  ghost predicate Visited(g0: Global, g1: Global, X: set<Id>) {
    && g1 == g0.(heap := g1.heap, color := g1.color, gray := g1.gray, grayagain := g1.grayagain,
                 weak := g1.weak, allweak := g1.allweak, ephemeron := g1.ephemeron, twups := g1.twups)
    && KeysDropped(g0.heap, g1.heap) && ColorsGrow(g0, g1)
    && (forall o :: o in g1.color && g1.color[o].White? ==> g0.color[o] == g1.color[o])
    && (forall o :: o in Lists(g1) ==> o in Lists(g0) || o in X || (o in g0.color && g0.color[o].White?))
    && (forall o :: o in g0.color && !g0.color[o].White? && o !in Lists(g0) && o !in X ==> g1.color[o] == g0.color[o])
    && Ext(g0.weak, g1.weak) && Ext(g0.allweak, g1.allweak) && NewAllWeakOk(g0, g1)
    && (g0.phase.Propagate? ==> g1.weak == g0.weak && g1.ephemeron == g0.ephemeron)
    && (forall o :: o in g0.twups ==> o in g1.twups) && (forall o :: o in g0.grayagain ==> o in g1.grayagain)
    && (forall o :: o in g1.twups ==> o in g0.twups || (NonWhite(g1, o) && o in g1.heap && g1.heap[o].Thread?))
  }

  lemma DroppedChain(h0: Heap, h1: Heap, h2: Heap)
    requires KeysDropped(h0, h1) && KeysDropped(h1, h2)
    ensures KeysDropped(h0, h2)
  {
    forall o | o in h0 ensures BodyKeysDropped(h0[o], h2[o]) {
      assert BodyKeysDropped(h0[o], h1[o]) && BodyKeysDropped(h1[o], h2[o]);
      if h1[o] != h0[o] && h2[o] != h1[o] {
        forall i | 0 <= i < |h0[o].nodes|
          ensures h2[o].nodes[i] == h0[o].nodes[i]
                || (h0[o].nodes[i].val.Empty? && h2[o].nodes[i] == Node(NoRef, Empty))
        {
          assert h1[o].nodes[i] == h0[o].nodes[i] || h1[o].nodes[i] == Node(NoRef, Empty);
        }
      }
    }
  }

  lemma ThreadsStay(h0: Heap, h1: Heap)
    requires KeysDropped(h0, h1)
    ensures h1.Keys == h0.Keys && forall o :: o in h0 && h0[o].Thread? ==> h1[o] == h0[o]
  {
    forall o | o in h0 && h0[o].Thread? ensures h1[o] == h0[o] { assert BodyKeysDropped(h0[o], h1[o]); }
  }

  lemma VisitedChain(g0: Global, g1: Global, g2: Global, X: set<Id>)
    requires Visited(g0, g1, X) && Visited(g1, g2, X)
    ensures Visited(g0, g2, X)
  {
    hide Lists, KeysDropped, Ext, NewAllWeakOk;
    ThreadsStay(g1.heap, g2.heap);
    DroppedChain(g0.heap, g1.heap, g2.heap);
    ExtChain(g0.weak, g1.weak, g2.weak);
    ExtChain(g0.allweak, g1.allweak, g2.allweak);
    NewAllWeakChain(g0, g1, g2);
  }

  lemma MarkedVisited(g0: Global, g1: Global, X: set<Id>)
    requires MarkedMore(g0, g1)
    ensures Visited(g0, g1, X)
  {
    hide Lists;
  }

  lemma VisitVisited(g0: Global, g1: Global, cur: Id)
    requires VisitMore(g0, g1, cur)
    ensures Visited(g0, g1, {cur}) && GrayKept(g0, g1)
  {
    hide Lists;
  }

  lemma PutVisited(g0: Global, g1: Global, l: GrayList, cur: Id)
    requires VisitMore(g0, g1, cur) && (l == InWeak || l == InEphemeron ==> !g0.phase.Propagate?)
    requires l == InAllWeak && g1.heap[cur].Table? ==>
      RefMarked(g1, g1.heap[cur].mt) && (g1.heap[cur].mode.AllWeak?
                                         || (g1.heap[cur].mode.Ephemerons? && ValsMarked(g1, cur)))
    ensures Visited(g0, Put(g1, l, cur), {cur})
    ensures l != InGray ==> GrayKept(g0, Put(g1, l, cur))
  {
    hide Lists, Visited, Whites, VisitMore, Ext, NewAllWeakOk, GrayKept;
    var g2 := Put(g1, l, cur);
    PutLists(g1, l, cur);
    PutExt(g0, g1, l, cur);
    VisitedByMore(g0, g1, g2, cur);
    if l != InGray { PutGrayKept(g0, g1, l, cur); }
  }

  lemma PutExt(g0: Global, g1: Global, l: GrayList, cur: Id)
    requires VisitMore(g0, g1, cur) && (l == InWeak || l == InEphemeron ==> !g0.phase.Propagate?)
    requires l == InAllWeak && g1.heap[cur].Table? ==>
      RefMarked(g1, g1.heap[cur].mt) && (g1.heap[cur].mode.AllWeak?
                                         || (g1.heap[cur].mode.Ephemerons? && ValsMarked(g1, cur)))
    ensures var g2 := Put(g1, l, cur);
      && Ext(g0.weak, g2.weak) && Ext(g0.allweak, g2.allweak) && NewAllWeakOk(g0, g2)
      && (g0.phase.Propagate? ==> g2.weak == g0.weak && g2.ephemeron == g0.ephemeron)
      && forall o :: o in g0.grayagain ==> o in g2.grayagain
  {
    hide Lists, Whites, KeysDropped, GrayKept, BodyKeysDropped, NewAllWeakOk;
    assert g1.weak == g0.weak && g1.allweak == g0.allweak && g1.ephemeron == g0.ephemeron
      && g1.grayagain == g0.grayagain;
    PutNewOk(g0, g1, l, cur);
  }

  lemma PutNewOk(g0: Global, g1: Global, l: GrayList, cur: Id)
    requires g1.allweak == g0.allweak && cur in g1.heap
    requires l == InAllWeak && g1.heap[cur].Table? ==>
      RefMarked(g1, g1.heap[cur].mt) && (g1.heap[cur].mode.AllWeak?
                                         || (g1.heap[cur].mode.Ephemerons? && ValsMarked(g1, cur)))
    ensures NewAllWeakOk(g0, Put(g1, l, cur))
  {
    var g2 := Put(g1, l, cur);
    assert forall v :: RefMarked(g2, v) <==> RefMarked(g1, v);
  }

  lemma PutGrayKept(g0: Global, g1: Global, l: GrayList, cur: Id)
    requires VisitMore(g0, g1, cur) && l != InGray
    ensures GrayKept(g0, Put(g1, l, cur))
  {
    hide Lists, KeysDropped;
    SameWhites(g1, Put(g1, l, cur));
  }

  lemma SameWhites(g: Global, g1: Global)
    requires g1.color == g.color
    ensures Whites(g1) == Whites(g)
  {
  }

  /** After a visit of `cur`, linking it into a list or turning it gray again. */
  lemma VisitedByMore(g0: Global, g1: Global, g2: Global, cur: Id)
    requires VisitMore(g0, g1, cur)
    requires g2 == g1.(color := g2.color, gray := g2.gray, grayagain := g2.grayagain, weak := g2.weak,
                       allweak := g2.allweak, ephemeron := g2.ephemeron)
    requires g2.color == g1.color || (cur in g1.color && NonWhite(g0, cur) && g2.color == g1.color[cur := Gray])
    requires forall o :: o in Lists(g2) ==> o in Lists(g1) || o == cur
    requires Ext(g0.weak, g2.weak) && Ext(g0.allweak, g2.allweak) && NewAllWeakOk(g0, g2)
    requires g0.phase.Propagate? ==> g2.weak == g0.weak && g2.ephemeron == g0.ephemeron
    requires forall o :: o in g0.grayagain ==> o in g2.grayagain
    ensures Visited(g0, g2, {cur})
  {
    hide Lists, Ext, NewAllWeakOk, GrayKept;
  }

  /** An entry of an ephemeron table that asks for nothing more: its key is a white object that is
      no string, or key and value are marked. */
  ghost predicate EntrySettled(g: Global, n: Node) {
    n.val.Val? ==>
      || (n.key.Obj? && n.key.id in g.heap && n.key.id in g.color && !g.heap[n.key.id].Str? && g.color[n.key.id].White?)
      || (RefMarked(g, n.key) && RefMarked(g, n.val.ref))
  }

  /** No entry of the ephemeron table `o` has a marked key and an unmarked value. */
  ghost predicate EphemeronSettled(g: Global, o: Id)
    requires o in g.heap && g.heap[o].Table?
  {
    forall n :: n in g.heap[o].nodes ==> EntrySettled(g, n)
  }

  lemma EphemeronValue(g: Global, pend: set<Id>, S: set<Id>, cur: Id, i: nat)
    requires AtVisit(g, pend, S, cur) && g.heap[cur].Table? && g.heap[cur].mode.Ephemerons?
    requires i < |g.heap[cur].nodes| && g.heap[cur].nodes[i].val.Val? && RefMarked(g, g.heap[cur].nodes[i].key)
    ensures Markable(g, S, g.heap[cur].nodes[i].val.ref)
  {
    hide Lists, StrongTo;
    NotListed(g, cur);
    NodeAllocated(g, pend, S, cur, i);
    var n := g.heap[cur].nodes[i];
    assert n in g.heap[cur].nodes;
    if n.val.ref.Obj? {
      assert BoundedAt(g, S, cur);
      if n.key.Obj? { assert BoundedAt(g, S, n.key.id); }
      assert n.val == Val(Obj(n.val.ref.id));
    }
  }

  ghost predicate KeysMarkedTo(g: Global, cur: Id, k: nat)
    requires cur in g.heap && g.heap[cur].Table? && k <= |g.heap[cur].nodes|
  {
    forall j :: 0 <= j < k ==> RefMarked(g, g.heap[cur].nodes[j].key)
  }

  /** What a visit leaves of the table being visited, and of what was already marked in it. */
  lemma TableKept(g0: Global, g1: Global, cur: Id)
    requires VisitMore(g0, g1, cur) && g0.heap[cur].Table?
    ensures g1.heap[cur].Table? && |g1.heap[cur].nodes| == |g0.heap[cur].nodes|
    ensures g1.heap[cur] == g0.heap[cur].(nodes := g1.heap[cur].nodes)
    ensures forall k: nat :: k <= |g0.heap[cur].nodes| && NodesMarked(g0, cur, k) ==> NodesMarked(g1, cur, k)
    ensures forall k: nat :: k <= |g0.heap[cur].nodes| && KeysMarkedTo(g0, cur, k) ==> KeysMarkedTo(g1, cur, k)
    ensures ArrMarked(g0, cur) ==> ArrMarked(g1, cur)
    ensures forall v :: RefMarked(g0, v) ==> RefMarked(g1, v)
    ensures g1.phase == g0.phase && g1.color.Keys == g0.color.Keys
    ensures cur in g0.color && !g0.color[cur].White? ==> g1.color[cur] == g0.color[cur]
  {
    hide Lists;
    VisitGrows(g0, g1, cur);
    assert forall j :: 0 <= j < |g0.heap[cur].nodes| && NodeMarked(g0, g0.heap[cur].nodes[j]) ==>
        NodeMarked(g1, g1.heap[cur].nodes[j]);
  }

  /** The indices that a loop in direction `inv` has passed after `i` rounds over `n` nodes. */
  predicate Passed(n: nat, inv: bool, i: nat, k: nat) {
    k < n && (if inv then k >= n - i else k < i)
  }

  /** What a visit of an ephemeron table has found so far. */
  ghost predicate EphemeronSoFar(g: Global, cur: Id, inv: bool, i: nat, marked: bool, hasclears: bool, hasww: bool)
    requires cur in g.heap && g.heap[cur].Table?
  {
    forall k :: 0 <= k < |g.heap[cur].nodes| && Passed(|g.heap[cur].nodes|, inv, i, k) ==>
      && (!hasclears ==> NodeMarked(g, g.heap[cur].nodes[k]))
      && (!hasww && g.heap[cur].nodes[k].val.Val? ==> RefMarked(g, g.heap[cur].nodes[k].val.ref))
      && (!marked ==> EntrySettled(g, g.heap[cur].nodes[k]))
  }

  lemma EntryKept(g0: Global, g1: Global, cur: Id, n: Node)
    requires VisitMore(g0, g1, cur)
    requires g1.color == g0.color || (g1.heap == g0.heap && OnlyStrings(g0, g1))
    requires EntrySettled(g0, n)
    ensures EntrySettled(g1, n)
  {
    hide Lists;
    VisitGrows(g0, g1, cur);
    assert forall x :: x in g0.heap ==> x in g1.heap && g1.heap[x].Str? == g0.heap[x].Str?;
  }

  /** The node visited now joins what was found before. */
  lemma EphemeronStep(g0: Global, g1: Global, cur: Id, inv: bool, i: nat, k: nat,
      marked0: bool, clears0: bool, ww0: bool, marked1: bool, clears1: bool, ww1: bool)
    requires VisitMore(g0, g1, cur) && cur in g0.heap && cur in g1.heap && g0.heap[cur].Table?
          && i < |g0.heap[cur].nodes|
    requires k == if inv then |g0.heap[cur].nodes| - 1 - i else i
    requires EphemeronSoFar(g0, cur, inv, i, marked0, clears0, ww0)
    requires (marked0 ==> marked1) && (clears0 ==> clears1) && (ww0 ==> ww1)
    requires !marked1 ==> g1.color == g0.color || (g1.heap == g0.heap && OnlyStrings(g0, g1))
    requires g1.heap[cur].Table? && |g1.heap[cur].nodes| == |g0.heap[cur].nodes|
    requires forall j :: 0 <= j < |g0.heap[cur].nodes| && j != k ==> g1.heap[cur].nodes[j] == g0.heap[cur].nodes[j]
    requires !clears1 ==> NodeMarked(g1, g1.heap[cur].nodes[k])
    requires !marked1 ==> EntrySettled(g1, g1.heap[cur].nodes[k])
    requires !ww1 && g1.heap[cur].nodes[k].val.Val? ==> RefMarked(g1, g1.heap[cur].nodes[k].val.ref)
    ensures EphemeronSoFar(g1, cur, inv, i + 1, marked1, clears1, ww1)
  {
    hide VisitMore, OnlyStrings, EntrySettled, RefMarked;
    assert forall v :: RefMarked(g0, v) ==> RefMarked(g1, v) by { TableKept(g0, g1, cur); }
    forall j | 0 <= j < |g1.heap[cur].nodes| && Passed(|g1.heap[cur].nodes|, inv, i + 1, j)
      ensures !clears1 ==> NodeMarked(g1, g1.heap[cur].nodes[j])
      ensures !marked1 ==> EntrySettled(g1, g1.heap[cur].nodes[j])
      ensures !ww1 && g1.heap[cur].nodes[j].val.Val? ==> RefMarked(g1, g1.heap[cur].nodes[j].val.ref)
    {
      if j != k {
        assert Passed(|g0.heap[cur].nodes|, inv, i, j);
        if !marked1 { EntryKept(g0, g1, cur, g0.heap[cur].nodes[j]); }
      }
    }
  }

  /** Visits happen in the propagate phase, which leaves weak tables for later, and in the atomic one. */
  ghost predicate VisitPhase(g: Global, pend: set<Id>, cur: Id) {
    g.phase.Atomic? || (g.phase.Propagate? && cur in pend)
  }

  lemma FirstMark(g: Global, o: Id, c: Color)
    requires o in g.color && g.color[o].White? && !c.White?
    ensures MarkedMore(g, g.(color := g.color[o := c])) && Whites(g.(color := g.color[o := c])) < Whites(g)
  {
    hide Lists;
    var g1 := g.(color := g.color[o := c]);
    SameLists(g, g1);
    assert o in Whites(g) && o !in Whites(g1);
  }

  lemma RecolorMarked(g0: Global, g: Global, o: Id)
    requires MarkedMore(g0, g) && o in g0.color && g0.color[o].White? && NonWhite(g, o)
    ensures MarkedMore(g0, g.(color := g.color[o := Black]))
  {
    hide Lists;
    var g1 := g.(color := g.color[o := Black]);
    SameLists(g, g1);
    assert Whites(g1) == Whites(g);
  }

  lemma MarkingParts(g: Global, pend: set<Id>, S: set<Id>)
    requires Marking(g, pend, S)
    ensures MarkInv(g, pend) && Bounded(g, S)
  {}

  lemma VisitedKeys(g0: Global, g1: Global, X: set<Id>)
    requires Visited(g0, g1, X)
    ensures g1.heap.Keys == g0.heap.Keys && g1.color.Keys == g0.color.Keys
  {}

  /** Tables taken off the ephemeron list and still to be traversed: each once, gray, in no list. */
  ghost predicate Waiting(g: Global, next: seq<Id>) {
    forall o :: o in next ==>
      && multiset(next)[o] == 1 && o !in Lists(g) && o in g.heap && o in g.color && g.color[o].Gray?
      && g.heap[o].Table? && g.heap[o].mode.Ephemerons? && RefMarked(g, g.heap[o].mt)
  }

  ghost predicate AllSettled(g: Global, l: seq<Id>) {
    forall o :: o in l ==> o in g.heap && g.heap[o].Table? && EphemeronSettled(g, o)
  }

  lemma NoneSettled(g: Global)
    ensures g.ephemeron == [] ==> AllSettled(g, g.ephemeron)
  {}

  lemma VisitedWhites(g0: Global, g1: Global, X: set<Id>)
    requires Visited(g0, g1, X)
    ensures Whites(g1) <= Whites(g0)
  {}

  lemma UnlistLists(g: Global)
    ensures Lists(g) == Lists(g.(ephemeron := [])) + multiset(g.ephemeron)
  {}

  lemma Unlisted(g: Global, S: set<Id>)
    requires Marking(g, {}, S)
    ensures Marking(g.(ephemeron := []), Elems(g.ephemeron), S)
    ensures Waiting(g.(ephemeron := []), g.ephemeron)
  {
    hide Lists, Points, ClosedAt, ObjOk, AllAllocated;
    var g1, p1 := g.(ephemeron := []), Elems(g.ephemeron);
    UnlistLists(g);
    forall o | o in p1
      ensures o in g.heap && o in g.color && ObjOk(g1, p1, o) && !g.heap[o].Thread?
      ensures multiset(g.ephemeron)[o] == 1 && o !in Lists(g1) && g.color[o].Gray? && ListedOk(g, {}, o)
    {
      UnlistedObj(g, o);
    }
    ManyMoved(g, {}, g1, p1, p1);
    BoundedKept(g, g1, S) by { assert forall r :: r in g.heap && NonWhite(g, r) ==> BoundedAt(g, S, r); }
  }

  lemma UnlistedObj(g: Global, o: Id)
    requires MarkInv(g, {}) && o in g.ephemeron
    ensures o in g.heap && o in g.color && !g.heap[o].Thread? && g.color[o].Gray? && ListedOk(g, {}, o)
    ensures ObjOk(g.(ephemeron := []), Elems(g.ephemeron), o)
    ensures multiset(g.ephemeron)[o] == 1 && o !in Lists(g.(ephemeron := []))
  {
    hide Points;
    assert o in Lists(g);
    assert ObjOk(g, {}, o);
    UnlistLists(g);
    NotListed(g.(ephemeron := []), o);
  }

  lemma UnlistVisited(g: Global)
    requires g.phase.Atomic?
    ensures Visited(g, g.(ephemeron := []), {})
  {
    hide Lists;
    UnlistLists(g);
  }

  lemma NextTable(g: Global, S: set<Id>, next: seq<Id>)
    requires Marking(g, Elems(next), S) && Waiting(g, next) && next != []
    ensures AtVisit(g, Elems(next[1..]), S, next[0]) && Waiting(g, next[1..]) && next[0] !in next[1..]
    ensures g.heap[next[0]].Table? && g.heap[next[0]].mode.Ephemerons? && RefMarked(g, g.heap[next[0]].mt)
    ensures g.color[next[0]].Gray?
  {
    hide MarkInv, Lists, ClosedAt;
    assert next == [next[0]] + next[1..];
    assert multiset(next) == multiset{next[0]} + multiset(next[1..]);
    assert Elems(next) == Elems(next[1..]) + {next[0]};
    assert next[0] in next;
    assert BoundedAt(g, S, next[0]);
    forall o | o in next[1..] ensures o in next && multiset(next[1..])[o] == 1 {
      assert multiset(next[1..])[o] >= 1;
    }
  }

  lemma TableShape(g0: Global, g1: Global, o: Id)
    requires KeysDropped(g0.heap, g1.heap) && o in g0.heap && g0.heap[o].Table?
    ensures o in g1.heap && g1.heap[o].Table? && g1.heap[o].mode == g0.heap[o].mode && g1.heap[o].mt == g0.heap[o].mt
  {
    assert BodyKeysDropped(g0.heap[o], g1.heap[o]);
  }

  lemma WaitingKept(g0: Global, g1: Global, w: Id, next: seq<Id>)
    requires Visited(g0, g1, {w}) && Waiting(g0, next) && w !in next
    ensures Waiting(g1, next)
  {
    hide Lists, BodyKeysDropped;
    forall o | o in next ensures o !in Lists(g1) && o in g1.heap && g1.heap[o].Table? && g1.heap[o].mode.Ephemerons?
        && g1.heap[o].mt == g0.heap[o].mt && o in g1.color && g1.color[o] == g0.color[o]
    {
      assert o in g0.heap;
      TableShape(g0, g1, o);
    }
  }

  lemma WaitingStays(g0: Global, g1: Global, next: seq<Id>)
    requires Visited(g0, g1, {}) && Waiting(g0, next)
    ensures Waiting(g1, next)
  {
    hide Lists, BodyKeysDropped;
    forall o | o in next ensures o !in Lists(g1) && o in g1.heap && g1.heap[o].Table? && g1.heap[o].mode.Ephemerons?
        && g1.heap[o].mt == g0.heap[o].mt && o in g1.color && g1.color[o] == g0.color[o]
    {
      assert o in g0.heap;
      TableShape(g0, g1, o);
    }
  }

  lemma PassVisited(g0: Global, g1: Global, g2: Global, w: Id)
    requires Visited(g0, g1, {}) && Visited(g1, g2, {w}) && w in Lists(g0)
    ensures Visited(g0, g2, {})
  {
    hide Lists, KeysDropped, Ext, NewAllWeakOk;
    ThreadsStay(g1.heap, g2.heap);
    DroppedChain(g0.heap, g1.heap, g2.heap);
    ExtChain(g0.weak, g1.weak, g2.weak);
    ExtChain(g0.allweak, g1.allweak, g2.allweak);
    NewAllWeakChain(g0, g1, g2);
  }

  lemma EntryQuiet(g0: Global, g1: Global, n: Node)
    requires Quiet(g0, g1) && ColorsGrow(g0, g1) && g0.heap.Keys == g1.heap.Keys && EntrySettled(g0, n)
    ensures EntrySettled(g1, n)
  {}

  lemma EmptyNodeSettled(g: Global)
    ensures EntrySettled(g, Node(NoRef, Empty))
  {}

  lemma PassSettled(g0: Global, g1: Global, w: Id)
    requires Visited(g0, g1, {w}) && EphemeronQuiet(g0, g1, w) && AllSettled(g0, g0.ephemeron)
    ensures AllSettled(g1, g1.ephemeron)
  {
    hide Lists, EntrySettled, Quiet, NewAllWeakOk;
    assert g1.heap.Keys == g0.heap.Keys;
    forall o | o in g1.ephemeron && o != w ensures o in g1.heap && g1.heap[o].Table? && EphemeronSettled(g1, o) {
      assert o in g0.ephemeron;
      assert BodyKeysDropped(g0.heap[o], g1.heap[o]);
      forall n | n in g1.heap[o].nodes ensures EntrySettled(g1, n) {
        var i :| 0 <= i < |g1.heap[o].nodes| && g1.heap[o].nodes[i] == n;
        if g0.heap[o].nodes[i] == n {
          EntryQuiet(g0, g1, n);
        } else {
          EmptyNodeSettled(g1);
        }
      }
    }
  }

  lemma NothingPending(g: Global, S: set<Id>)
    requires Marking(g, Elems([]), S)
    ensures Marking(g, {}, S)
  {
    assert Elems([]) == {};
  }

  lemma MetatableMarkable(g: Global, pend: set<Id>, S: set<Id>, cur: Id)
    requires AtVisit(g, pend, S, cur) && g.heap[cur].Table?
    ensures Markable(g, S, g.heap[cur].mt)
  {
    hide Marking, Lists;
    NotListed(g, cur);
    if g.heap[cur].mt.Obj? { StrongMarkable(g, pend + {cur}, S, cur, g.heap[cur].mt.id); }
  }

  lemma BlackToGray(g0: Global, g: Global, cur: Id)
    requires VisitMore(g0, g, cur) && cur in g.color && NonWhite(g0, cur)
    ensures Visited(g0, g.(color := g.color[cur := Gray]), {cur}) && GrayKept(g0, g.(color := g.color[cur := Gray]))
  {
    hide Lists, Visited, BodyKeysDropped;
    var g2 := g.(color := g.color[cur := Gray]);
    SameLists(g, g2);
    assert Whites(g2) == Whites(g);
    VisitedByMore(g0, g, g2, cur);
  }

  lemma GrayKeptChain(g0: Global, g1: Global, g2: Global, X: set<Id>)
    requires Visited(g0, g1, X) && Visited(g1, g2, X) && GrayKept(g0, g1) && GrayKept(g1, g2)
    ensures GrayKept(g0, g2)
  {
    hide Lists, KeysDropped;
    assert Whites(g1) <= Whites(g0) && Whites(g2) <= Whites(g1);
  }

  lemma GrayHead(g: Global, pend: set<Id>, S: set<Id>)
    requires Marking(g, pend, S) && g.gray != []
    ensures g.gray[0] in g.heap && g.gray[0] in g.color && g.color[g.gray[0]].Gray? && g.gray[0] in S
  {
    var o := g.gray[0];
    assert o in Lists(g);
    assert ObjOk(g, pend, o) && BoundedAt(g, S, o);
  }

  lemma PopVisited(g: Global, pend: set<Id>, S: set<Id>)
    requires Marking(g, pend, S) && g.gray != [] && g.gray[0] in g.color && g.color[g.gray[0]].Gray?
    ensures var o := g.gray[0];
      var g1 := g.(gray := g.gray[1..], color := g.color[o := Black]);
      Visited(g, g1, {o}) && Whites(g1) == Whites(g) && o in Lists(g)
  {
    hide Marking, Lists;
    var o := g.gray[0];
    var g1 := g.(gray := g.gray[1..], color := g.color[o := Black]);
    PopLists(g, g1);
  }

  lemma StartVisit(g0: Global, g: Global, pend: set<Id>, S: set<Id>, o: Id)
    requires Marking(g, pend + {o}, S) && o in g.heap && o in g.color && g.color[o].Black? && o !in Lists(g) && o in S
    ensures AtVisit(g, pend, S, o)
  {}

  lemma EndVisit(g: Global, pend: set<Id>, S: set<Id>, o: Id)
    requires AtVisit(g, pend, S, o)
    ensures Marking(g, pend + {o}, S) && o in g.heap && o in g.color && o !in Lists(g)
  {}

  lemma PlainKept(g0: Global, g1: Global, o: Id)
    requires VisitMore(g0, g1, o) && o in g0.color && g0.color[o].Black? && g0.heap[o].Plain?
    ensures o in g1.heap && g1.heap[o].Plain? && o in g1.color && g1.color[o].Black? && GrayKept(g0, g1)
  {
    hide Lists;
  }

  lemma VisitedInside(g0: Global, g: Global, o: Id)
    requires Visited(g0, g, {o}) && o in Lists(g0)
    ensures Visited(g0, g, {})
  {
    hide Lists;
  }

  lemma PropagateShrinks(g0: Global, g1: Global, g2: Global, X: set<Id>)
    requires Whites(g1) == Whites(g0) && |g1.gray| < |g0.gray|
    requires Visited(g1, g2, X) && GrayKept(g1, g2)
    ensures Whites(g2) < Whites(g0) || (Whites(g2) == Whites(g0) && |g2.gray| < |g0.gray|)
  {
    hide Lists;
    assert Whites(g2) <= Whites(g1);
  }

  lemma AgainPend(g: Global, pend: set<Id>, S: set<Id>, o: Id)
    requires Marking(g, pend + {o}, S)
    ensures Marking(g, pend + {o} + {o}, S)
  {
    assert pend + {o} + {o} == pend + {o};
  }

  lemma ThreadVisited(g0: Global, g1: Global, o: Id)
    requires ThreadMore(g0, g1, o)
    ensures Visited(g0, g1, {o}) && GrayKept(g0, g1)
  {
    hide Lists;
    SameLists(g0, g0.(twups := g1.twups));
  }

  lemma SettledThread(g: Global, pend: set<Id>, S: set<Id>, o: Id)
    requires Marking(g, pend + {o}, S) && o in g.heap && o in g.color && g.color[o].Gray? && o in g.grayagain
    requires Done(g, o) && (o in pend || TwupIn(g, o))
    ensures Marking(g, pend, S)
  {
    hide Points;
    Settled(g, pend, S, o);
  }

  lemma VisitedStart(g: Global)
    ensures Visited(g, g, {})
  {}

  lemma VisitedPhase(g0: Global, g1: Global, X: set<Id>)
    requires Visited(g0, g1, X)
    ensures g1.phase == g0.phase
  {}

  lemma QuietLinked(g0: Global, g: Global, cur: Id)
    requires VisitMore(g0, g, cur) && Quiet(g0, g) && g.heap[cur].Table? && EphemeronSettled(g, cur)
    requires cur in g.color && g.color[cur].Gray?
    ensures EphemeronQuiet(g0, Put(g, InGrayAgain, cur), cur)
    ensures EphemeronQuiet(g0, Put(g, InAllWeak, cur), cur)
    ensures EphemeronQuiet(g0, Put(g, InEphemeron, cur), cur)
    ensures EphemeronQuiet(g0, g.(color := g.color[cur := Black]), cur)
  {
    hide Lists;
    var g1 := g.(color := g.color[cur := Black]);
    assert forall r :: RefMarked(g, r) ==> RefMarked(g1, r);
    forall n | n in g.heap[cur].nodes ensures EntrySettled(g1, n) { assert EntrySettled(g, n); }
    forall n | n in g.heap[cur].nodes
      ensures EntrySettled(Put(g, InGrayAgain, cur), n) && EntrySettled(Put(g, InAllWeak, cur), n)
           && EntrySettled(Put(g, InEphemeron, cur), n)
    { assert EntrySettled(g, n); }
  }

  /** Since `g0` only strings were marked. */
  ghost predicate Quiet(g0: Global, g1: Global) {
    && g1.gray == g0.gray && g1.color.Keys == g0.color.Keys && g1.heap.Keys == g0.heap.Keys
    && (forall o :: o in g0.heap ==> g1.heap[o].Str? == g0.heap[o].Str?)
    && forall o :: o in g0.color && o in g0.heap && !g0.heap[o].Str? ==> g1.color[o].White? == g0.color[o].White?
  }

  /** A visit of an ephemeron table that marked no value: every entry is settled. */
  ghost predicate EphemeronQuiet(g0: Global, g1: Global, cur: Id) {
    && Quiet(g0, g1) && cur in g1.heap && g1.heap[cur].Table? && EphemeronSettled(g1, cur)
    && (g1.ephemeron == g0.ephemeron || g1.ephemeron == [cur] + g0.ephemeron)
  }

  lemma QuietStart(g: Global, cur: Id)
    ensures Quiet(g, g)
  {}

  lemma QuietChain(g0: Global, g1: Global, g2: Global)
    requires Quiet(g0, g1) && Quiet(g1, g2)
    ensures Quiet(g0, g2)
  {}

  lemma QuietColors(g0: Global, g1: Global, cur: Id)
    requires VisitMore(g0, g1, cur) && g1.color == g0.color && g1.gray == g0.gray
    ensures Quiet(g0, g1)
  {}

  lemma QuietStrings(g0: Global, g1: Global)
    requires g1.heap == g0.heap && OnlyStrings(g0, g1)
    ensures Quiet(g0, g1)
  {}

  lemma SoFarStart(g: Global, cur: Id, inv: bool, marked: bool)
    requires cur in g.heap && g.heap[cur].Table?
    ensures EphemeronSoFar(g, cur, inv, 0, marked, false, false)
  {}

  lemma SoFarAll(g: Global, cur: Id, inv: bool, marked: bool, hasclears: bool, hasww: bool)
    requires cur in g.heap && g.heap[cur].Table?
    requires EphemeronSoFar(g, cur, inv, |g.heap[cur].nodes|, marked, hasclears, hasww)
    ensures !hasclears ==> forall n :: n in g.heap[cur].nodes ==> NodeMarked(g, n)
    ensures !marked ==> EphemeronSettled(g, cur)
    ensures !hasww && ArrMarked(g, cur) ==> ValsMarked(g, cur)
  {
    hide NodeMarked, EntrySettled;
    forall n | n in g.heap[cur].nodes
      ensures !hasww && n.val.Val? ==> RefMarked(g, n.val.ref)
      ensures !hasclears ==> NodeMarked(g, n)
      ensures !marked ==> EntrySettled(g, n)
    {
      var k :| 0 <= k < |g.heap[cur].nodes| && g.heap[cur].nodes[k] == n;
      assert Passed(|g.heap[cur].nodes|, inv, |g.heap[cur].nodes|, k);
    }
  }

  lemma EmptySettled(g: Global, cur: Id, k: nat)
    requires cur in g.heap && g.heap[cur].Table? && k < |g.heap[cur].nodes|
    requires g.heap[cur].nodes[k].val.Empty? && RefMarked(g, g.heap[cur].nodes[k].key)
    ensures NodeMarked(g, g.heap[cur].nodes[k]) && EntrySettled(g, g.heap[cur].nodes[k])
  {}

  lemma WhitesShrink(g0: Global, g1: Global, cur: Id)
    requires VisitMore(g0, g1, cur)
    ensures Whites(g1) <= Whites(g0)
  {}

  lemma RecolorVisited(g0: Global, g1: Global, cur: Id)
    requires VisitMore(g0, g1, cur) && cur in g1.color && g1.color[cur].Gray?
    ensures Visited(g0, g1.(color := g1.color[cur := Black]), {cur})
    ensures GrayKept(g0, g1.(color := g1.color[cur := Black]))
  {
    hide Lists, Ext, NewAllWeakOk, KeysDropped, GrayKept;
    var g2 := g1.(color := g1.color[cur := Black]);
    SameLists(g1, g2);
    VisitGrows(g0, g1, cur);
    VisitVisited(g0, g1, cur);
    RecolorKept(g0, g1, g2);
    assert forall v :: RefMarked(g2, v) <==> RefMarked(g1, v);
  }

  lemma RecolorKept(g0: Global, g1: Global, g2: Global)
    requires g1.color.Keys == g2.color.Keys && forall o :: NonWhite(g1, o) <==> NonWhite(g2, o)
    requires g2 == g1.(color := g2.color) && GrayKept(g0, g1) && g0.allweak == g1.allweak
    ensures GrayKept(g0, g2) && NewAllWeakOk(g0, g2)
  {
    forall o ensures o in Whites(g2) <==> o in Whites(g1) { assert NonWhite(g1, o) <==> NonWhite(g2, o); }
    assert Whites(g2) == Whites(g1);
  }

  lemma MarkedHeap(g0: Global, g1: Global)
    requires MarkedMore(g0, g1)
    ensures g1.heap == g0.heap && g1.phase == g0.phase && g1.color.Keys == g0.color.Keys
    ensures forall v :: RefMarked(g0, v) ==> RefMarked(g1, v)
  {
    hide Lists;
  }

  lemma AllNodesMarked(g: Global, cur: Id)
    requires cur in g.heap && g.heap[cur].Table? && NodesMarked(g, cur, |g.heap[cur].nodes|)
    ensures forall n :: n in g.heap[cur].nodes ==> NodeMarked(g, n)
  {
    hide NodeMarked;
  }

  lemma NothingMarked(g: Global, cur: Id)
    requires cur in g.heap && g.heap[cur].Table?
    ensures NodesMarked(g, cur, 0) && KeysMarkedTo(g, cur, 0)
  {}

  lemma OneMoreNode(g: Global, cur: Id, i: nat)
    requires cur in g.heap && g.heap[cur].Table? && i < |g.heap[cur].nodes|
    ensures KeysMarkedTo(g, cur, i) && RefMarked(g, g.heap[cur].nodes[i].key) ==> KeysMarkedTo(g, cur, i + 1)
    ensures NodesMarked(g, cur, i) && NodeMarked(g, g.heap[cur].nodes[i]) ==> NodesMarked(g, cur, i + 1)
  {}

  lemma ThreadRefs(g: Global, pend: set<Id>, S: set<Id>, cur: Id)
    requires Marking(g, pend, S) && cur in g.heap && g.heap[cur].Thread? && cur !in g.allweak && cur in S
    ensures AllMarkable(g, S, g.heap[cur].stack)
    ensures forall uv :: uv in g.heap[cur].open ==> Markable(g, S, Obj(uv))
  {
    hide Marking, Lists;
    forall v | v in g.heap[cur].stack ensures Markable(g, S, v) {
      if v.Obj? { StrongMarkable(g, pend, S, cur, v.id); }
    }
    forall uv | uv in g.heap[cur].open ensures Markable(g, S, Obj(uv)) {
      StrongMarkable(g, pend, S, cur, uv);
    }
  }

  lemma Retwupped(g: Global, pend: set<Id>, S: set<Id>, cur: Id)
    requires Marking(g, pend, S) && cur in g.heap
    ensures Marking(g.(twups := [cur] + g.twups), pend, S)
  {
    hide Points, AllAllocated, ClosedAt, Lists;
    var g1 := g.(twups := [cur] + g.twups);
    KeepDomains(g);
    SameLists(g, g1);
    assert ObjOk(g, pend, cur);
    assert g1.heap == g.heap[cur := g1.heap[cur]] && g1.color == g.color[cur := g1.color[cur]];
    if Done(g, cur) { DoneKept(g, g1, cur); }
    assert ObjOk(g1, pend, cur) by { RetwuppedObj(g, pend, cur); }
    OneChanged(g, pend, g1, pend, cur);
    assert forall r :: r in g.heap && NonWhite(g, r) ==> BoundedAt(g, S, r);
    BoundedKept(g, g1, S);
  }

  lemma RetwuppedObj(g: Global, pend: set<Id>, cur: Id)
    requires cur in g.heap && cur in g.color && ObjOk(g, pend, cur)
    ensures ObjOk(g.(twups := [cur] + g.twups), pend, cur)
  {
    hide Points, Lists;
    var g1 := g.(twups := [cur] + g.twups);
    SameLists(g, g1);
    if Done(g, cur) { DoneKept(g, g1, cur); }
  }

  lemma StringsBounded(g: Global, pend: set<Id>, S: set<Id>, o: Id)
    requires Marking(g, pend, S) && o in g.heap && g.heap[o].Str?
    ensures o in S
  {
    assert BoundedAt(g, S, o);
  }

  lemma NodeAllocated(g: Global, pend: set<Id>, S: set<Id>, cur: Id, i: nat)
    requires AtVisit(g, pend, S, cur) && g.heap[cur].Table? && i < |g.heap[cur].nodes|
    ensures var n := g.heap[cur].nodes[i];
      && (n.key.Obj? ==> n.key.id in g.heap && n.key.id in g.color)
      && (n.val.Val? && n.val.ref.Obj? ==> n.val.ref.id in g.heap && n.val.ref.id in g.color)
  {
    hide Lists;
    var n := g.heap[cur].nodes[i];
    assert n in g.heap[cur].nodes;
    if n.key.Obj? { assert NodeRefs(n, n.key.id); assert Points(g.heap, cur, n.key.id); }
    if n.val.Val? && n.val.ref.Obj? { assert NodeRefs(n, n.val.ref.id); assert Points(g.heap, cur, n.val.ref.id); }
  }

  lemma StringDone(g: Global, o: Id)
    requires o in g.heap && g.heap[o].Str?
    ensures Done(g, o)
  {}

  lemma UpvalHome(g: Global, pend: set<Id>, S: set<Id>, uv: Id)
    requires Marking(g, pend, S) && uv in g.heap && g.heap[uv].OpenUp?
    ensures g.heap[uv].th in g.heap && g.heap[g.heap[uv].th].Thread?
    ensures g.heap[uv].slot < |g.heap[g.heap[uv].th].stack|
  {
    KeepDomains(g);
  }

  lemma SettledBlack(g: Global, pend: set<Id>, S: set<Id>, o: Id)
    requires Marking(g, pend + {o}, S) && o in g.heap && o in g.color && g.color[o].Black?
    requires Done(g, o) && !g.heap[o].Thread? && !g.heap[o].OpenUp?
    ensures Marking(g, pend, S)
  {
    hide Points, Lists;
    Settled(g, pend, S, o);
  }

  lemma SettledUpval(g: Global, pend: set<Id>, S: set<Id>, o: Id)
    requires Marking(g, pend + {o}, S) && o in g.heap && o in g.color && g.color[o].Gray?
    requires Done(g, o) && g.heap[o].OpenUp?
    ensures Marking(g, pend, S)
  {
    hide Points, Lists;
    Settled(g, pend, S, o);
  }

  lemma Recolored(g: Global, pend: set<Id>, S: set<Id>, o: Id, c: Color)
    requires Marking(g, pend + {o}, S) && o in g.heap && o in g.color && o !in Lists(g)
    requires !g.color[o].White? && !c.White?
    ensures Marking(g.(color := g.color[o := c]), pend + {o}, S)
    ensures Done(g, o) ==> Done(g.(color := g.color[o := c]), o)
    ensures Lists(g.(color := g.color[o := c])) == Lists(g)
  {
    hide Marking, Lists, Points;
    var g1 := g.(color := g.color[o := c]);
    SameLists(g, g1);
    Reworked(g, pend, S, o, c, g.heap[o]);
    assert g1 == g.(heap := g.heap[o := g.heap[o]], color := g.color[o := c]);
    assert ColorsGrow(g, g1);
    if Done(g, o) { DoneKept(g, g1, o); }
  }

  ghost function MarkedOrString(g: Global): set<Id> {
    set o | o in g.heap && (NonWhite(g, o) || g.heap[o].Str?)
  }

  /** The least set that contains the strings and everything marked, and is closed under strong
      references and the ephemeron rule wherever a visit may still happen. */
  ghost function LeastMarks(g: Global): set<Id> {
    set x | x in g.heap && forall S: set<Id> :: Bounded(g, S) ==> x in S
  }

  lemma LeastBounded(g: Global)
    requires AllAllocated(g)
    ensures Bounded(g, LeastMarks(g))
  {
    hide StrongTo, Points, Lists;
    var M := LeastMarks(g);
    forall o | o in g.heap ensures BoundedAt(g, M, o) {
      forall S | Bounded(g, S) && (g.heap[o].Str? || NonWhite(g, o)) ensures o in S { assert BoundedAt(g, S, o); }
      if o in M && o !in g.allweak {
        forall r | StrongTo(g.heap, o, r) ensures r in M {
          StrongAllocated(g, o, r);
          forall S | Bounded(g, S) ensures r in S { assert BoundedAt(g, S, o); }
        }
        if g.heap[o].Table? && g.heap[o].mode.Ephemerons? {
          forall n, r | n in g.heap[o].nodes && n.val == Val(Obj(r)) && (n.key.NoRef? || n.key.id in M) ensures r in M {
            assert NodeRefs(n, r);
            assert Points(g.heap, o, r) by { NodePoints(g, o, n, r); }
            forall S | Bounded(g, S) ensures r in S { assert BoundedAt(g, S, o); }
          }
        }
      }
    }
  }

  lemma StrongAllocated(g: Global, o: Id, r: Id)
    requires AllAllocated(g) && o in g.heap && StrongTo(g.heap, o, r)
    ensures r in g.heap
  {
    assert Points(g.heap, o, r);
  }

  lemma NodePoints(g: Global, o: Id, n: Node, r: Id)
    requires o in g.heap && g.heap[o].Table? && n in g.heap[o].nodes && NodeRefs(n, r)
    ensures Points(g.heap, o, r)
  {}

  /** Dropping dead keys leaves the strong references as they were. */
  lemma StrongSame(h0: Heap, h1: Heap, o: Id, r: Id)
    requires KeysDropped(h0, h1) && o in h0 && StrongTo(h0, o, r)
    ensures StrongTo(h1, o, r)
  {
    assert BodyKeysDropped(h0[o], h1[o]);
    if h0[o].Table? && h1[o].mt != Obj(r) && !(Obj(r) in h1[o].arr && (h0[o].mode.StrongT? || h0[o].mode.Ephemerons?)) {
      var n :| n in h0[o].nodes && n.val.Val? && NodeRefs(n, r) && (h0[o].mode.StrongT? || n.key == Obj(r));
      var i :| 0 <= i < |h0[o].nodes| && h0[o].nodes[i] == n;
      assert h1[o].nodes[i] == n;
    } else if h0[o].OpenUp? {
      assert BodyKeysDropped(h0[h0[o].th], h1[h0[o].th]);
    }
  }

  /** Where convergence ends, marks cannot be extended: at every marked object outside the tables
      that were in `allweak` before, strong references and settled entries lead to marked objects. */
  lemma ConvergedAt(g0: Global, g: Global, o: Id)
    requires MarkInv(g, {}) && g.gray == [] && AllSettled(g, g.ephemeron) && NewAllWeakOk(g0, g)
    requires o in g.heap && NonWhite(g, o) && o !in g0.allweak && !g.heap[o].Str?
    ensures ClosedAt(g.heap, MarkedOrString(g), o)
  {
    hide Lists, StrongTo, Points, AllSettled, MarkedOrString, NewAllWeakOk, ListedOk;
    var M := MarkedOrString(g);
    ConvergedObj(g0, g, o);
    forall r | StrongTo(g.heap, o, r) ensures r in M { ConvergedStrong(g0, g, o, r); }
    if g.heap[o].Table? && g.heap[o].mode.Ephemerons? {
      forall n, r | n in g.heap[o].nodes && n.val == Val(Obj(r)) && (n.key.NoRef? || n.key.id in M) ensures r in M {
        ConvergedEntry(g0, g, o, n, r);
      }
    }
  }

  /** A marked object when the gray list is empty: visited, or in one of the weak lists. */
  ghost predicate AtRest(g: Global, o: Id)
    requires o in g.heap && o in g.color
  {
    Done(g, o) || ((o in g.weak || o in g.ephemeron || o in g.allweak) && ListedOk(g, {}, o))
  }

  lemma ConvergedObj(g0: Global, g: Global, o: Id)
    requires MarkInv(g, {}) && g.gray == [] && NewAllWeakOk(g0, g) && o in g.heap && NonWhite(g, o)
    ensures o in g.color && AtRest(g, o)
  {
    hide Lists, Points;
    assert ObjOk(g, {}, o);
    NotListed2(g, o);
  }

  lemma ConvergedStrong(g0: Global, g: Global, o: Id, r: Id)
    requires MarkInv(g, {}) && o in g.heap && o in g.color && AtRest(g, o) && NewAllWeakOk(g0, g) && o !in g0.allweak
    requires StrongTo(g.heap, o, r)
    ensures NonWhite(g, r) && r in MarkedOrString(g) && r in g.heap
  {
    hide Lists, ListedOk;
    StrongAllocated(g, o, r);
    assert Points(g.heap, o, r);
    if !Done(g, o) { ListedStrong(g, g0, o, r); }
  }

  lemma ConvergedEntry(g0: Global, g: Global, o: Id, n: Node, r: Id)
    requires MarkInv(g, {}) && o in g.heap && o in g.color && AtRest(g, o) && NewAllWeakOk(g0, g) && o !in g0.allweak
    requires g.heap[o].Table? && g.heap[o].mode.Ephemerons? && AllSettled(g, g.ephemeron)
    requires n in g.heap[o].nodes && n.val == Val(Obj(r)) && (n.key.NoRef? || n.key.id in MarkedOrString(g))
    ensures NonWhite(g, r) && r in MarkedOrString(g) && r in g.heap
  {
    hide Lists;
    assert NodeRefs(n, r);
    NodePoints(g, o, n, r);
    if !Done(g, o) {
      if o in g.ephemeron { assert EntrySettled(g, n); } else { assert ValsMarked(g, o); }
    }
    assert RefMarked(g, Obj(r));
  }

  lemma NotListed2(g: Global, o: Id)
    ensures o in Lists(g) ==> o in g.gray || o in g.grayagain || o in g.weak || o in g.allweak || o in g.ephemeron
  {}

  lemma ListedStrong(g: Global, g0: Global, o: Id, r: Id)
    requires o in g.heap && o in g.color && ListedOk(g, {}, o)
          && (o in g.weak || o in g.ephemeron || (o in g.allweak && o !in g0.allweak))
    requires StrongTo(g.heap, o, r) && NewAllWeakOk(g0, g)
    ensures NonWhite(g, r)
  {
    hide Lists;
    var t := g.heap[o];
    if t.mt == Obj(r) {
      assert RefMarked(g, t.mt);
    } else if o in g.weak {
      var n :| n in t.nodes && n.val.Val? && n.key == Obj(r);
      assert RefMarked(g, n.key);
    } else {
      assert RefMarked(g, Obj(r));
    }
  }

  lemma Converged(g0: Global, g: Global)
    requires MarkInv(g, {}) && g.gray == [] && AllSettled(g, g.ephemeron)
    requires KeysDropped(g0.heap, g.heap) && ColorsGrow(g0, g) && NewAllWeakOk(g0, g)
    ensures Bounded(g0, MarkedOrString(g))
  {
    hide Lists, StrongTo, Points, AllSettled, EphemeronSettled, MarkInv, NewAllWeakOk, ClosedAt;
    assert g0.heap.Keys == g.heap.Keys;
    var M := MarkedOrString(g);
    forall o | o in g0.heap ensures BoundedAt(g0, M, o) {
      assert BodyKeysDropped(g0.heap[o], g.heap[o]);
      if g0.heap[o].Str? {
        StringClosed(g0.heap, M, o);
      } else if o in M && o !in g0.allweak {
        ConvergedAt(g0, g, o);
        ClosedBack(g0.heap, g.heap, M, o);
      }
    }
  }

  lemma ClosedBack(h0: Heap, h1: Heap, M: set<Id>, o: Id)
    requires KeysDropped(h0, h1) && o in h0 && ClosedAt(h1, M, o)
    ensures ClosedAt(h0, M, o)
  {
    hide StrongTo;
    assert BodyKeysDropped(h0[o], h1[o]);
    forall r | StrongTo(h0, o, r) ensures r in M { StrongSame(h0, h1, o, r); }
    if h0[o].Table? {
      forall n, r | n in h0[o].nodes && n.val == Val(Obj(r)) ensures n in h1[o].nodes {
        var i :| 0 <= i < |h0[o].nodes| && h0[o].nodes[i] == n;
        assert h1[o].nodes[i] == n;
      }
    }
  }

  lemma StringClosed(h: Heap, S: set<Id>, o: Id)
    requires o in h && h[o].Str?
    ensures ClosedAt(h, S, o)
  {}

  /** Convergence marks the least possible set: all of it, and nothing else. */
  lemma LeastReached(g0: Global, g: Global)
    requires Bounded(g0, MarkedOrString(g)) && Bounded(g, LeastMarks(g0)) && g.heap.Keys == g0.heap.Keys
    ensures MarkedOrString(g) == LeastMarks(g0)
  {
    forall o | o in MarkedOrString(g) ensures o in LeastMarks(g0) { assert BoundedAt(g, LeastMarks(g0), o); }
  }

  /** What a visit still owes: in the propagate phase, objects put into `grayagain` are visited again. */
  ghost function PutOff(g: Global, pend: set<Id>, cur: Id): set<Id> {
    if g.phase.Propagate? && cur in g.grayagain then pend + {cur} else pend
  }

  lemma Widened(g: Global, pend: set<Id>, p1: set<Id>, S: set<Id>)
    requires Marking(g, pend, S) && pend <= p1
    ensures Marking(g, p1, S)
  {
    hide Lists, Points, ClosedAt, AllAllocated;
    KeepDomains(g);
    forall o | o in g.heap ensures ObjOk(g, p1, o) { assert ObjOk(g, pend, o); }
  }

  lemma VisitWidened(g: Global, pend: set<Id>, S: set<Id>, cur: Id)
    requires AtVisit(g, pend, S, cur)
    ensures AtVisit(g, pend + {cur}, S, cur)
  {
    AgainPend(g, pend, S, cur);
  }

  lemma ThreadAgain(g0: Global, g1: Global, o: Id)
    requires ThreadMore(g0, g1, o) && o in g0.grayagain
    ensures o in g1.grayagain && g1.phase == g0.phase
  {
    hide Lists;
  }

  lemma VisitedTrail(g0: Global, g1: Global, X: set<Id>)
    requires Visited(g0, g1, X)
    ensures KeysDropped(g0.heap, g1.heap) && ColorsGrow(g0, g1) && NewAllWeakOk(g0, g1)
  {}

  lemma PhaseKept(g0: Global, g1: Global, cur: Id)
    requires VisitMore(g0, g1, cur)
    ensures g1.phase == g0.phase
  {}

  ghost function Marked(g: Global): set<Id> {
    set o | o in g.heap && NonWhite(g, o)
  }

  lemma MarkedClosedAt(g0: Global, g: Global, o: Id)
    requires MarkInv(g, {}) && g.gray == [] && AllSettled(g, g.ephemeron) && NewAllWeakOk(g0, g)
    requires o in g.heap && NonWhite(g, o) && o !in g0.allweak
    ensures ClosedAt(g.heap, Marked(g), o)
  {
    hide Lists, StrongTo, Points, AllSettled, MarkedOrString, NewAllWeakOk, ListedOk;
    var M := Marked(g);
    ConvergedObj(g0, g, o);
    forall r | StrongTo(g.heap, o, r) ensures r in M { ConvergedStrong(g0, g, o, r); }
    if g.heap[o].Table? && g.heap[o].mode.Ephemerons? {
      forall n, r | n in g.heap[o].nodes && n.val == Val(Obj(r)) && (n.key.NoRef? || n.key.id in M) ensures r in M {
        MarkedInBoth(g, n.key);
        ConvergedEntry(g0, g, o, n, r);
      }
    }
  }

  lemma MarkedInBoth(g: Global, v: Ref)
    ensures v.Obj? && v.id in Marked(g) ==> v.id in MarkedOrString(g)
  {}
}
