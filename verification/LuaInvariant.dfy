/** The invariant of the collector between two steps, in every phase, and what it means for the
    program: whatever the program can reach is allocated and not dead. */
module LuaInvariant {
  import opened LuaHeap
  import opened LuaMarkSteps
  import opened LuaVisit
  import opened LuaAtomicSteps

  /** `isdead`: the object carries the white that is not current. */
  predicate Dead(g: Global, o: Id) {
    o in g.color && g.color[o] == White(!g.cw)
  }

  predicate Live(g: Global, o: Id) {
    o in g.heap && o in g.color && g.color[o] != White(!g.cw)
  }

  // ---------------------------------------------------------------- what the program can reach

  /** Where the program starts from: the main thread, the registry and metatables of basic types,
      and objects waiting for their finalizer. */
  predicate IsRoot(g: Global, o: Id) {
    o == g.main || Obj(o) in g.roots || o in g.tobefnz
  }

  /** A chain of references in the heap, starting at a root. */
  predicate ValidPath(g: Global, path: seq<Id>) {
    && path != [] && IsRoot(g, path[0])
    && forall i :: 0 <= i < |path| - 1 ==> path[i] in g.heap && Points(g.heap, path[i], path[i + 1])
  }

  ghost predicate Accessible(g: Global, o: Id) {
    exists path :: ValidPath(g, path) && path[|path| - 1] == o
  }

  // ---------------------------------------------------------------- invariant

  ghost function Owned(g: Global): multiset<Id> {
    multiset(g.allgc) + multiset(g.finobj) + multiset(g.tobefnz)
  }

  /** Each allocated object is in exactly one of the object lists, once. */
  ghost predicate OwnedOk(g: Global) {
    g.heap.Keys == g.color.Keys && forall o :: Owned(g)[o] == (if o in g.heap then 1 else 0)
  }

  /** No reference of a live object dangles or leads to a dead object. */
  ghost predicate LiveClosed(g: Global) {
    forall o, r :: o in g.heap && Live(g, o) && Points(g.heap, o, r) ==> Live(g, r)
  }

  ghost predicate RootsLive(g: Global) {
    && Live(g, g.main) && g.heap[g.main].Thread?
    && (forall v :: v in g.roots && v.Obj? ==> Live(g, v.id))
    && (forall o :: o in g.tobefnz ==> Live(g, o))
  }

  ghost predicate TwupsLive(g: Global) {
    && (forall th :: th in g.twups ==> Live(g, th) && g.heap[th].Thread?)
    && (forall th :: Live(g, th) && g.heap[th].Thread? && g.heap[th].open != [] ==> th in g.twups)
  }

  /** A metatable is a table (lapi.c 902). */
  predicate MetaKind(h: Heap, b: Body) {
    b.Table? && b.mt.Obj? ==> b.mt.id in h && h[b.mt.id].Table?
  }

  ghost predicate MetasOk(g: Global) {
    forall o :: o in g.heap && Live(g, o) ==> MetaKind(g.heap, g.heap[o])
  }

  ghost predicate Base(g: Global) {
    OwnedOk(g) && UpvalsOk(g.heap) && LiveClosed(g) && RootsLive(g) && TwupsLive(g) && MetasOk(g)
  }

  /** The live tables are those there were, with the metatables they had. */
  ghost predicate TablesStay(g0: Global, g1: Global) {
    && (forall o :: Live(g1, o) && g1.heap[o].Table? ==>
          Live(g0, o) && g0.heap[o].Table? && g1.heap[o].mt == g0.heap[o].mt)
    && (forall o :: Live(g0, o) && g0.heap[o].Table? ==> o in g1.heap && g1.heap[o].Table?)
  }

  lemma MetasStay(g0: Global, g1: Global)
    requires MetasOk(g0) && LiveClosed(g0) && TablesStay(g0, g1)
    ensures MetasOk(g1)
  {
    forall o | o in g1.heap && Live(g1, o) ensures MetaKind(g1.heap, g1.heap[o]) {
      var b := g1.heap[o];
      if b.Table? && b.mt.Obj? {
        assert MetaKind(g0.heap, g0.heap[o]);
        assert Points(g0.heap, o, b.mt.id);
        assert Live(g0, b.mt.id);
      }
    }
  }

  predicate InMark(g: Global) {
    g.phase.Propagate? || g.phase.EnterAtomic?
  }

  predicate InSweep(g: Global) {
    g.phase.SwpAllGc? || g.phase.SwpFinObj? || g.phase.SwpToBeFnz?
  }

  /** The list being swept. */
  function CurList(g: Global): seq<Id> {
    match g.phase
    case SwpAllGc => g.allgc
    case SwpFinObj => g.finobj
    case _ => g.tobefnz
  }

  function SetCur(g: Global, l: seq<Id>): Global {
    match g.phase
    case SwpAllGc => g.(allgc := l)
    case SwpFinObj => g.(finobj := l)
    case _ => g.(tobefnz := l)
  }

  /** How many objects of the current list lie ahead of `sweepgc`. */
  function AheadLen(g: Global): nat {
    match g.sweep
    case AtEnd => 0
    case AtHead => |CurList(g)|
    case Ahead(n) => n
  }

  ghost predicate SweepPosOk(g: Global) {
    AheadLen(g) <= |CurList(g)|
  }

  /** Objects the sweep has yet to look at. */
  ghost predicate ToSweep(g: Global, o: Id)
    requires SweepPosOk(g)
  {
    || o in CurList(g)[|CurList(g)| - AheadLen(g)..]
    || (g.phase.SwpAllGc? && (o in g.finobj || o in g.tobefnz))
    || (g.phase.SwpFinObj? && o in g.tobefnz)
  }

  /** Behind the sweep every object has the current white. */
  ghost predicate SweptWhite(g: Global) {
    SweepPosOk(g) && forall o :: o in g.heap && o in g.color ==> g.color[o] == White(g.cw) || ToSweep(g, o)
  }

  ghost predicate AllWhite(g: Global) {
    forall o :: o in g.color ==> g.color[o] == White(g.cw)
  }

  /** While marking: the colour rules. */
  ghost predicate MarkPhaseOk(g: Global) {
    && MarkInv(g, Again(g)) && g.weak == [] && g.ephemeron == [] && g.sweep.AtEnd? && NonWhite(g, g.main)
  }

  ghost predicate PhaseOk(g: Global) {
    match g.phase
    case Propagate => MarkPhaseOk(g)
    case EnterAtomic => MarkPhaseOk(g)
    case Atomic => false
    case SwpAllGc => SweptWhite(g)
    case SwpFinObj => SweptWhite(g)
    case SwpToBeFnz => SweptWhite(g)
    case SwpEnd => AllWhite(g) && g.sweep.AtEnd?
    case CallFin => AllWhite(g) && g.sweep.AtEnd?
    case Pause => AllWhite(g) && g.sweep.AtEnd?
  }

  ghost predicate Inv(g: Global) {
    Base(g) && PhaseOk(g)
  }

  /** What the collector leaves of an object: threads keep their stacks, upvalues what they hold, though they may be
      closed; a table may lose entries (`clearing`), or only the keys of entries that are empty. */
  ghost predicate KeptAt(h0: Heap, h1: Heap, o: Id, clearing: bool)
    requires o in h0 && o in h1
  {
    if h0[o].OpenUp? then h1[o] == h0[o] || h1[o] == ClosedUp(Content(h0, o))
    else if h0[o].Thread? then h1[o].Thread? && h1[o].stack == h0[o].stack
    else if h0[o].Table? then if clearing then BodyCleared(h0[o], h1[o]) else BodyKeysDropped(h0[o], h1[o])
    else h1[o] == h0[o]
  }

  ghost predicate HeapKept(h0: Heap, h1: Heap, clearing: bool) {
    h1.Keys <= h0.Keys && forall o :: o in h1 ==> KeptAt(h0, h1, o, clearing)
  }

  lemma KeptSame(h: Heap, clearing: bool)
    ensures HeapKept(h, h, clearing)
  {}

  lemma KeptKind(h0: Heap, h1: Heap, o: Id, clearing: bool)
    requires o in h0 && o in h1 && KeptAt(h0, h1, o, clearing)
    ensures h1[o].Thread? <==> h0[o].Thread?
    ensures h1[o].OpenUp? ==> h1[o] == h0[o]
    ensures h1[o].Thread? ==> h1[o].stack == h0[o].stack
  {}

  /** An upvalue still open holds what it held. */
  lemma KeptContent(h0: Heap, h1: Heap, uv: Id, clearing: bool)
    requires HeapKept(h0, h1, clearing) && UpvalsOk(h1) && uv in h1 && h1[uv].OpenUp?
    ensures h1[uv] == h0[uv] && Content(h1, uv) == Content(h0, uv)
  {
    hide KeptAt, UpvalsOk;
    assert KeptAt(h0, h1, uv, clearing);
    KeptKind(h0, h1, uv, clearing);
    UpHome(h1, uv);
    var th := h1[uv].th;
    assert KeptAt(h0, h1, th, clearing);
    KeptKind(h0, h1, th, clearing);
  }

  lemma UpHome(h: Heap, uv: Id)
    requires UpvalsOk(h) && uv in h && h[uv].OpenUp?
    ensures h[uv].th in h && h[h[uv].th].Thread?
  {}

  lemma KeptChain(h0: Heap, h1: Heap, h2: Heap, clearing: bool, more: bool)
    requires HeapKept(h0, h1, clearing) && HeapKept(h1, h2, more) && UpvalsOk(h1)
    ensures HeapKept(h0, h2, clearing || more)
  {
    hide UpvalsOk, BodyCleared, BodyKeysDropped;
    forall o | o in h2 ensures KeptAt(h0, h2, o, clearing || more) {
      assert KeptAt(h0, h1, o, clearing) && KeptAt(h1, h2, o, more);
      if h0[o].OpenUp? {
        if h1[o].OpenUp? { KeptContent(h0, h1, o, clearing); }
      } else if h0[o].Table? {
        TableStays(h0[o], h1[o], clearing);
        KeptTable(h0[o], h1[o], h2[o], clearing, more);
      }
    }
  }

  lemma KeptTable(b0: Body, b1: Body, b2: Body, clearing: bool, more: bool)
    requires b0.Table? && (if clearing then BodyCleared(b0, b1) else BodyKeysDropped(b0, b1))
    requires b1.Table? && (if more then BodyCleared(b1, b2) else BodyKeysDropped(b1, b2))
    ensures if clearing || more then BodyCleared(b0, b2) else BodyKeysDropped(b0, b2)
  {
    if !clearing { DroppedCleared(b0, b1); }
    if !more { DroppedCleared(b1, b2); }
    if clearing || more { BodyClearedChain(b0, b1, b2); }
  }

  lemma TableStays(b0: Body, b1: Body, clearing: bool)
    requires b0.Table? && (if clearing then BodyCleared(b0, b1) else BodyKeysDropped(b0, b1))
    ensures b1.Table?
  {}

  lemma DroppedCleared(b0: Body, b1: Body)
    requires BodyKeysDropped(b0, b1)
    ensures BodyCleared(b0, b1)
  {}

  // ---------------------------------------------------------------- what the invariant means

  lemma {:induction false} PathLive(g: Global, path: seq<Id>, k: nat)
    requires Base(g) && ValidPath(g, path) && k < |path|
    ensures Live(g, path[k])
  {
    hide Points, OwnedOk;
    if k > 0 {
      PathLive(g, path, k - 1);
      assert Points(g.heap, path[k - 1], path[k]);
    }
  }

  /** Memory safety: every object the program can reach, through strong or weak references, is
      allocated and will not be freed by a sweep. */
  lemma AccessibleLive(g: Global, o: Id)
    requires Base(g) && Accessible(g, o)
    ensures Live(g, o) && !Dead(g, o)
  {
    hide Points;
    var path :| ValidPath(g, path) && path[|path| - 1] == o;
    PathLive(g, path, |path| - 1);
  }

  /** Whatever the program can reach is allocated and is not about to be freed. */
  ghost predicate Safe(g: Global) {
    forall o :: Accessible(g, o) ==> o in g.heap && !Dead(g, o)
  }

  /** While marking nothing is dead, so the whole heap is closed. */
  lemma MarkAllLive(g: Global)
    requires MarkInv(g, Again(g)) && g.heap.Keys == g.color.Keys
    ensures forall o :: o in g.heap ==> Live(g, o)
  {
    hide Points, Lists;
    forall o | o in g.heap ensures Live(g, o) { assert ObjOk(g, Again(g), o); }
  }
}
