/** Visits whose outcome can be told in full: those of threads without open upvalues, and of tables without hash part or
    weak in keys and values, that refer to objects of the gray list only. */
module LuaExact {
  import opened LuaHeap

  predicate Listed(h: Heap, v: Ref) {
    v.Obj? ==> v.id in h && HasGclist(h[v.id])
  }

  predicate AllListed(h: Heap, refs: seq<Ref>) {
    forall v :: v in refs ==> Listed(h, v)
  }

  /** A white object goes to the head of the gray list. */
  function GrayRef(g: Global, v: Ref): Global {
    if v.Obj? && v.id in g.color && g.color[v.id].White? then
      g.(color := g.color[v.id := Gray], gray := [v.id] + g.gray)
    else g
  }

  function GrayRefs(g: Global, refs: seq<Ref>): (g1: Global)
    ensures g1 == g.(color := g1.color, gray := g1.gray)
  {
    if refs == [] then g else GrayRef(GrayRefs(g, refs[..|refs| - 1]), refs[|refs| - 1])
  }

  predicate EasyTable(b: Body, h: Heap) {
    b.Table? && Listed(h, b.mt) && ((b.mode.StrongT? && b.nodes == [] && AllListed(h, b.arr)) || b.mode.AllWeak?)
  }

  predicate EasyThread(b: Body, h: Heap) {
    b.Thread? && b.open == [] && AllListed(h, b.stack)
  }

  /** An all-weak table stays gray and waits in `allweak`. */
  function TableVisit(g: Global, cur: Id): Global
    requires cur in g.heap && g.heap[cur].Table?
  {
    var g1 := GrayRef(g, g.heap[cur].mt);
    if g.heap[cur].mode.StrongT? then GrayRefs(g1, g.heap[cur].arr)
    else g1.(color := g1.color[cur := Gray], allweak := [cur] + g1.allweak)
  }

  /** A thread stays gray and waits in `grayagain`. */
  function ThreadVisit(g: Global, cur: Id): Global
    requires cur in g.heap && g.heap[cur].Thread?
  {
    GrayRefs(g.(color := g.color[cur := Gray], grayagain := [cur] + g.grayagain), g.heap[cur].stack)
  }

  predicate EasyVisit(g: Global) {
    g.gray != [] && g.gray[0] in g.heap
      && (EasyTable(g.heap[g.gray[0]], g.heap) || EasyThread(g.heap[g.gray[0]], g.heap))
  }

  function VisitFirst(g: Global): Global
    requires EasyVisit(g)
  {
    var o := g.gray[0];
    var g1 := g.(gray := g.gray[1..], color := g.color[o := Black]);
    if g.heap[o].Table? then TableVisit(g1, o) else ThreadVisit(g1, o)
  }

  lemma EasyParts(g: Global)
    requires EasyVisit(g)
    ensures var b := g.heap[g.gray[0]];
      if b.Table? then EasyTable(b, g.heap) else b.Thread? && EasyThread(b, g.heap)
  {}

  lemma GrayRefHeap(g: Global, v: Ref)
    ensures GrayRef(g, v) == g.(color := GrayRef(g, v).color, gray := GrayRef(g, v).gray)
  {}

  lemma GrayRefsNone(g: Global)
    ensures GrayRefs(g, []) == g
  {}

  lemma GrayRefsMore(g: Global, refs: seq<Ref>, i: nat)
    requires i < |refs|
    ensures GrayRefs(g, refs[..i + 1]) == GrayRef(GrayRefs(g, refs[..i]), refs[i])
  {
    assert refs[..i + 1][..i] == refs[..i];
  }
}
