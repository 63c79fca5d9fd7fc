/** The heap of the Lua collector as data: objects with their references, tri-colour marks with
    two whites, and the collector's global state with its gray lists and object lists. */
module LuaHeap {

  type Id = nat

  /** A Lua value seen by the collector: a non-collectable value, or a pointer to an object. */
  datatype Ref = NoRef | Obj(id: Id)

  datatype Val = Empty | Val(ref: Ref)

  /** A hash node. A dead key (one the collector dropped from an empty entry) is `NoRef`. */
  datatype Node = Node(key: Ref, val: Val)

  datatype Mode = StrongT | WeakValues | Ephemerons | AllWeak

  datatype Body =
    | Str
    | Plain(refs: seq<Ref>)                   // closures, prototypes, userdata with user values
    | Udata(mt: Ref)                          // userdata without user values
    | ClosedUp(v: Ref)
    | OpenUp(th: Id, slot: nat)               // its value lives in a stack slot of `th`
    | Table(mt: Ref, mode: Mode, arr: seq<Ref>, nodes: seq<Node>)
    | Thread(stack: seq<Ref>, open: seq<Id>)  // live stack part and open upvalues

  datatype Color = White(bit: bool) | Gray | Black

  datatype Phase = Propagate | EnterAtomic | Atomic | SwpAllGc | SwpFinObj | SwpToBeFnz | SwpEnd | CallFin | Pause

  /** `sweepgc`: null, the head of the list being swept, or inside it with `n` objects still ahead. */
  datatype SweepPos = AtEnd | AtHead | Ahead(n: nat)

  type Heap = map<Id, Body>

  datatype Global = Global(
    heap: Heap, color: map<Id, Color>, cw: bool, phase: Phase,
    gray: seq<Id>, grayagain: seq<Id>, weak: seq<Id>, allweak: seq<Id>, ephemeron: seq<Id>,
    twups: seq<Id>, roots: seq<Ref>, main: Id,
    allgc: seq<Id>, finobj: seq<Id>, tobefnz: seq<Id>, sweep: SweepPos)

  // ---------------------------------------------------------------- references

  predicate NodeRefs(n: Node, r: Id) {
    n.key == Obj(r) || n.val == Val(Obj(r))
  }

  predicate Refers(b: Body, r: Id) {
    match b
    case Str => false
    case Plain(refs) => Obj(r) in refs
    case Udata(mt) => mt == Obj(r)
    case ClosedUp(v) => v == Obj(r)
    case OpenUp(_, _) => false
    case Table(mt, _, arr, nodes) => mt == Obj(r) || Obj(r) in arr || exists n :: n in nodes && NodeRefs(n, r)
    case Thread(stack, open) => Obj(r) in stack || r in open
  }

  /** Object `o` holds a reference to `r` in some field, weak or strong. */
  predicate Points(h: Heap, o: Id, r: Id)
    requires o in h
  {
    || Refers(h[o], r)
    || (h[o].OpenUp? && h[o].th in h && h[h[o].th].Thread? && h[o].slot < |h[h[o].th].stack|
        && h[h[o].th].stack[h[o].slot] == Obj(r))
  }

  /** `r` is strongly referenced by `o`, for the table mode `o` has now. */
  ghost predicate StrongTo(h: Heap, o: Id, r: Id)
    requires o in h
  {
    if h[o].Table? then
      var t := h[o];
      || t.mt == Obj(r)
      || (match t.mode
          case StrongT => Obj(r) in t.arr || exists n :: n in t.nodes && n.val.Val? && NodeRefs(n, r)
          case WeakValues => exists n :: n in t.nodes && n.val.Val? && n.key == Obj(r)
          case Ephemerons => Obj(r) in t.arr
          case AllWeak => false)
    else Points(h, o, r)
  }

  /** Threads and their open upvalues agree with each other. */
  ghost predicate UpvalsOk(h: Heap) {
    && (forall uv :: uv in h && h[uv].OpenUp? ==>
          h[uv].th in h && h[h[uv].th].Thread? && h[uv].slot < |h[h[uv].th].stack| && uv in h[h[uv].th].open)
    && (forall th, uv :: th in h && h[th].Thread? && uv in h[th].open ==>
          uv in h && h[uv].OpenUp? && h[uv].th == th)
  }

  predicate NonWhite(g: Global, r: Id) {
    r in g.color && !g.color[r].White?
  }

  /** Every object that `o` references is marked. */
  ghost predicate Done(g: Global, o: Id)
    requires o in g.heap
  {
    forall r :: Points(g.heap, o, r) ==> NonWhite(g, r)
  }

  ghost function Whites(g: Global): set<Id> {
    set o | o in g.color && g.color[o].White?
  }

  ghost function Elems(s: seq<Id>): set<Id> {
    set o | o in s
  }

  /** Those of the list that are in the set, in their order. */
  ghost function Picked(l: seq<Id>, W: set<Id>): seq<Id> {
    if l == [] then []
    else Picked(l[..|l| - 1], W) + if l[|l| - 1] in W then [l[|l| - 1]] else []
  }

  /** And the others. */
  ghost function Unpicked(l: seq<Id>, W: set<Id>): seq<Id> {
    if l == [] then []
    else Unpicked(l[..|l| - 1], W) + if l[|l| - 1] in W then [] else [l[|l| - 1]]
  }

  // ---------------------------------------------------------------- invariant while marking

  /** All gray lists together. They are linked through one field of the object, so an object
      may be in at most one of them, once. */
  ghost function Lists(g: Global): multiset<Id> {
    multiset(g.gray) + multiset(g.grayagain) + multiset(g.weak) + multiset(g.allweak) + multiset(g.ephemeron)
  }

  predicate HasGclist(b: Body) {
    b.Plain? || b.Table? || b.Thread?
  }

  predicate RefMarked(g: Global, r: Ref) {
    r.Obj? ==> NonWhite(g, r.id)
  }

  ghost predicate ArrMarked(g: Global, o: Id)
    requires o in g.heap && g.heap[o].Table?
  {
    forall r :: r in g.heap[o].arr ==> RefMarked(g, r)
  }

  ghost predicate KeysMarked(g: Global, o: Id)
    requires o in g.heap && g.heap[o].Table?
  {
    forall n :: n in g.heap[o].nodes ==> RefMarked(g, n.key)
  }

  ghost predicate ValsMarked(g: Global, o: Id)
    requires o in g.heap && g.heap[o].Table?
  {
    ArrMarked(g, o) && forall n :: n in g.heap[o].nodes && n.val.Val? ==> RefMarked(g, n.val.ref)
  }

  /** What an object in a gray list owes or has: lists hold gray objects only, and a table in a
      weak list had the parts marked that its visit marks. */
  ghost predicate ListedOk(g: Global, pend: set<Id>, o: Id)
    requires o in g.heap && o in g.color
  {
    && (o in Lists(g) ==> Lists(g)[o] == 1 && g.color[o].Gray? && HasGclist(g.heap[o]))
    && (o in g.grayagain && o !in pend ==> Done(g, o))
    && (o in g.weak ==> g.heap[o].Table? && g.heap[o].mode.WeakValues? && RefMarked(g, g.heap[o].mt)
                        && KeysMarked(g, o))
    && (o in g.allweak ==> g.heap[o].Table?)
    && (o in g.ephemeron ==> g.heap[o].Table? && g.heap[o].mode.Ephemerons? && RefMarked(g, g.heap[o].mt)
                             && ArrMarked(g, o))
  }

  ghost predicate UpvalCovered(g: Global, pend: set<Id>, uv: Id)
    requires uv in g.heap
  {
    g.heap[uv].OpenUp? && (Done(g, uv) || g.heap[uv].th in g.gray || g.heap[uv].th in pend)
  }

  /** The colour rules: a black object points only to marked objects, and every gray object is in a
      gray list or is an open upvalue that a visit of its thread covers. `pend` holds the objects
      still owed a visit; threads and open upvalues are never black. */
  ghost predicate ColorOk(g: Global, pend: set<Id>, o: Id)
    requires o in g.heap && o in g.color
  {
    match g.color[o]
    case White(b) => b == g.cw
    case Black => o in pend || (!g.heap[o].Thread? && !g.heap[o].OpenUp? && Done(g, o))
    case Gray => o in pend || o in Lists(g) || UpvalCovered(g, pend, o)
  }

  /** A marked thread with open upvalues is in `twups`, unless its visit is still due. */
  ghost predicate TwupOk(g: Global, pend: set<Id>, o: Id)
    requires o in g.heap && o in g.color
  {
    g.heap[o].Thread? && g.heap[o].open != [] && NonWhite(g, o) ==> o in g.gray || o in pend || o in g.twups
  }

  ghost predicate ObjOk(g: Global, pend: set<Id>, o: Id)
    requires o in g.heap && o in g.color
  {
    ListedOk(g, pend, o) && ColorOk(g, pend, o) && TwupOk(g, pend, o)
  }

  ghost predicate AllAllocated(g: Global) {
    && g.heap.Keys == g.color.Keys
    && (forall o, r :: o in g.heap && Points(g.heap, o, r) ==> r in g.heap)
    && UpvalsOk(g.heap)
    && (forall o :: o in Lists(g) ==> o in g.heap)
  }

  ghost predicate MarkInv(g: Global, pend: set<Id>) {
    AllAllocated(g) && forall o :: o in g.heap ==> ObjOk(g, pend, o)
  }

  // ---------------------------------------------------------------- upper bound on marks

  /** `S` is closed under strong references and under the ephemeron rule at `o`. */
  ghost predicate ClosedAt(h: Heap, S: set<Id>, o: Id)
    requires o in h
  {
    && (forall r :: StrongTo(h, o, r) ==> r in S)
    && (h[o].Table? && h[o].mode.Ephemerons? ==>
          forall n, r :: n in h[o].nodes && n.val == Val(Obj(r)) && (n.key.NoRef? || n.key.id in S) ==> r in S)
  }

  /** Everything marked is in `S`, and no visit still to come can leave `S`. Strings count as
      values, so they are always in `S`; tables in `allweak` are not visited again. */
  ghost predicate BoundedAt(g: Global, S: set<Id>, o: Id)
    requires o in g.heap
  {
    && (g.heap[o].Str? || NonWhite(g, o) ==> o in S)
    && (o in S && o !in g.allweak ==> ClosedAt(g.heap, S, o))
  }

  ghost predicate Bounded(g: Global, S: set<Id>) {
    forall o :: o in g.heap ==> BoundedAt(g, S, o)
  }

  // ---------------------------------------------------------------- relations between states

  /** Only keys of empty entries were dropped. */
  ghost predicate BodyKeysDropped(b0: Body, b1: Body) {
    b1 == b0 ||
    (b0.Table? && b1.Table? && b1 == b0.(nodes := b1.nodes) && |b1.nodes| == |b0.nodes| &&
     forall i :: 0 <= i < |b0.nodes| ==>
       b1.nodes[i] == b0.nodes[i] || (b0.nodes[i].val.Empty? && b1.nodes[i] == Node(NoRef, Empty)))
  }

  ghost predicate KeysDropped(h0: Heap, h1: Heap) {
    h1.Keys == h0.Keys && forall o :: o in h0 ==> BodyKeysDropped(h0[o], h1[o])
  }

  ghost predicate NodeCleared(n0: Node, n1: Node) {
    n1 == n0 || (n1.val.Empty? && (n1.key == n0.key || n1.key.NoRef?))
  }

  /** Entries of a table were emptied, and keys of empty entries dropped. */
  ghost predicate BodyCleared(b0: Body, b1: Body) {
    b1 == b0 ||
    (b0.Table? && b1.Table? && b1 == b0.(arr := b1.arr, nodes := b1.nodes)
     && |b1.arr| == |b0.arr| && |b1.nodes| == |b0.nodes|
     && (forall i :: 0 <= i < |b0.arr| ==> b1.arr[i] == b0.arr[i] || b1.arr[i].NoRef?)
     && (forall i :: 0 <= i < |b0.nodes| ==> NodeCleared(b0.nodes[i], b1.nodes[i])))
  }

  ghost predicate Cleared(h0: Heap, h1: Heap) {
    h1.Keys == h0.Keys && forall o :: o in h0 ==> BodyCleared(h0[o], h1[o])
  }

  ghost predicate ColorsGrow(g0: Global, g1: Global) {
    && g1.color.Keys == g0.color.Keys
    && forall o :: o in g0.color ==> (g1.color[o] == g0.color[o] || !g1.color[o].White?)
  }
}
