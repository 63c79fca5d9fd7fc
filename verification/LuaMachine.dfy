/** Runs: any interleaving of collector steps with what a program can do, from the first state on. */
module LuaMachine {
  import opened LuaHeap
  import opened LuaMarkSteps
  import opened LuaVisit
  import opened LuaAtomicSteps
  import opened LuaInvariant
  import opened LuaReach
  import opened LuaExact
  import opened LuaCollector
  import opened LuaSweep
  import opened LuaStep
  import opened LuaMutator
  import opened LuaAlloc
  import opened LuaFinal

  /** A value the program holds: not collectable, or found by following references from a root. */
  datatype Arg = Plainly | Via(path: seq<Id>)

  datatype Shape = AStr | APlain(n: nat) | AUdata | ATable(size: nat) | AThread

  /** What may happen next; the running thread and all operands are given by how the program reaches
      them. An operation that does not apply in the current state does nothing. */
  datatype Op =
    | GcStep(run: Arg, emergency: bool)
    | GiveUp
    | Create(run: Arg, id: Id, shape: Shape)
    | SetLocal(run: Arg, slot: nat, v: Arg)
    | PopLocals(run: Arg, top: nat)
    | SetField(t: Arg, index: nat, v: Arg)
    | SetEntry(t: Arg, node: nat, v: Arg)
    | AddEntry(t: Arg, k: Arg, v: Arg)
    | SetMetatable(t: Arg, mt: Arg, mode: Mode)
    | SetMode(t: Arg, mode: Mode)
    | SetCell(o: Arg, index: nat, v: Arg)
    | Capture(run: Arg, slot: nat, id: Id)
    | SetUpvalue(uv: Arg, v: Arg)
    | CloseUpvalue(uv: Arg)
    | SetGlobalRoot(index: nat, v: Arg)
    | MakeFinalizable(o: Arg)
    | CallFinalizer(run: Arg)

  function NewBody(s: Shape): Body {
    match s
    case AStr => Str
    case APlain(n) => Plain(seq(n, i => NoRef))
    case AUdata => Udata(NoRef)
    case ATable(n) => Table(NoRef, StrongT, seq(n, i => NoRef), [])
    case AThread => Thread([], [])
  }

  /** The value an argument stands for, if the program can indeed get at it. */
  predicate Has(g: Global, a: Arg) {
    a.Via? ==> ValidPath(g, a.path)
  }

  function Value(g: Global, a: Arg): (v: Ref)
    requires Has(g, a)
  {
    if a.Via? then Obj(a.path[|a.path| - 1]) else NoRef
  }

  lemma ValueLive(g: Global, a: Arg)
    requires Inv(g) && Has(g, a)
    ensures AllLive(g, [Value(g, a)]) && (a.Via? ==> Live(g, Value(g, a).id))
  {
    hide Base, PhaseOk, Points;
    if a.Via? {
      assert Accessible(g, Value(g, a).id) by { assert ValidPath(g, a.path); }
      AccessibleLive(g, Value(g, a).id);
    }
  }

  predicate HasObj(g: Global, a: Arg) {
    a.Via? && ValidPath(g, a.path) && a.path[|a.path| - 1] in g.heap
  }

  function Body0(g: Global, a: Arg): Body
    requires HasObj(g, a)
  {
    g.heap[a.path[|a.path| - 1]]
  }

  /** What survives a step: outside the atomic step all live objects; in it, whatever is strongly
      reachable from the running thread, the main thread and the roots. */
  ghost predicate Survives(g0: Global, op: Op, g1: Global) {
    if op.GcStep? && g0.phase.EnterAtomic? && HasObj(g0, op.run) then
      forall o :: StrongReachable(g0, Value(g0, op.run).id, o) ==> Live(g1, o)
    else forall o :: Live(g0, o) ==> Live(g1, o)
  }

  /** The step that the collector does not cope with: an atomic step that does not reach the metatable of a table put
      into `allweak` before. */
  ghost predicate Fails(g: Global, op: Op) {
    op.GcStep? && HasObj(g, op.run) && g.phase.EnterAtomic? && !MetasReached(g, Value(g, op.run).id)
  }

  /** Steps whose outcome is told in full. */
  predicate Told(g: Global, op: Op) {
    match op
    case GcStep(run, _) => HasObj(g, run) && EasyStep(g)
    case Create(run, id, _) => HasObj(g, run) && Body0(g, run).Thread? && id !in g.heap
    case PopLocals(run, top) => HasObj(g, run) && Body0(g, run).Thread? && top <= |Body0(g, run).stack|
      && Body0(g, run).open == []
    case SetMetatable(t, mt, _) =>
      && HasObj(g, t) && Body0(g, t).Table? && HasObj(g, mt) && Body0(g, mt).Table?
      && Value(g, t).id in g.color && !g.color[Value(g, t).id].Black?
    case _ => false
  }

  function Outcome(g: Global, op: Op): Global
    requires Told(g, op)
  {
    match op
    case GcStep(_, _) => StepState(g)
    case Create(run, id, shape) =>
      var th, b := Value(g, run).id, Body0(g, run);
      Stored(NewState(g, id, NewBody(shape)), th, Thread(b.stack + [Obj(id)], b.open))
    case PopLocals(run, top) => Stored(g, Value(g, run).id, Thread(Body0(g, run).stack[..top], []))
    case SetMetatable(t, mt, mode) => Stored(g, Value(g, t).id, Body0(g, t).(mt := Value(g, mt), mode := mode))
  }

  /** No object but `o` changed, and it now is `b`. */
  ghost predicate OnlyAt(h0: Heap, h1: Heap, o: Id, b: Body) {
    o in h0 && h1.Keys == h0.Keys && h1[o] == b && forall x :: x in h0 && x != o ==> h1[x] == h0[x]
  }

  /** What a store writes: the one place named, of the one object named; nothing if it does not apply. */
  ghost predicate WroteObject(g0: Global, op: Op, g1: Global) {
    match op
    case SetField(t, i, v) =>
      if HasObj(g0, t) && Has(g0, v) && Body0(g0, t).Table? && i < |Body0(g0, t).arr| then
        OnlyAt(g0.heap, g1.heap, Value(g0, t).id, Body0(g0, t).(arr := Body0(g0, t).arr[i := Value(g0, v)]))
      else g1 == g0
    case SetEntry(t, i, v) =>
      if HasObj(g0, t) && Has(g0, v) && Body0(g0, t).Table? && i < |Body0(g0, t).nodes| then
        var nodes := Body0(g0, t).nodes;
        OnlyAt(g0.heap, g1.heap, Value(g0, t).id,
               Body0(g0, t).(nodes := nodes[i := Node(nodes[i].key, Val(Value(g0, v)))]))
      else g1 == g0
    case AddEntry(t, k, v) =>
      if HasObj(g0, t) && Has(g0, k) && Has(g0, v) && Body0(g0, t).Table? then
        OnlyAt(g0.heap, g1.heap, Value(g0, t).id,
               Body0(g0, t).(nodes := Body0(g0, t).nodes + [Node(Value(g0, k), Val(Value(g0, v)))]))
      else g1 == g0
    case SetMetatable(t, mt, mode) =>
      if HasObj(g0, t) && Has(g0, mt) && (mt.Via? ==> HasObj(g0, mt) && Body0(g0, mt).Table?)
         && (Body0(g0, t).Table? || Body0(g0, t).Udata?) then
        OnlyAt(g0.heap, g1.heap, Value(g0, t).id,
               if Body0(g0, t).Udata? then Udata(Value(g0, mt))
               else Body0(g0, t).(mt := Value(g0, mt), mode := if mt.Via? then mode else StrongT))
      else g1 == g0
    case SetMode(t, mode) =>
      if HasObj(g0, t) && Body0(g0, t).Table? && Body0(g0, t).mt.Obj? then
        OnlyAt(g0.heap, g1.heap, Value(g0, t).id, Body0(g0, t).(mode := mode))
      else g1 == g0
    case SetCell(o, i, v) =>
      if HasObj(g0, o) && Has(g0, v) && Body0(g0, o).Plain? && i < |Body0(g0, o).refs| then
        OnlyAt(g0.heap, g1.heap, Value(g0, o).id, Plain(Body0(g0, o).refs[i := Value(g0, v)]))
      else g1 == g0
    case _ => true
  }

  /** What happens to stacks and upvalues. */
  ghost predicate WroteThread(g0: Global, op: Op, g1: Global) {
    match op
    case SetLocal(run, slot, v) =>
      if HasObj(g0, run) && Has(g0, v) && Body0(g0, run).Thread? && slot <= |Body0(g0, run).stack| then
        var s := Body0(g0, run).stack;
        OnlyAt(g0.heap, g1.heap, Value(g0, run).id,
               Thread(if slot == |s| then s + [Value(g0, v)] else s[slot := Value(g0, v)], Body0(g0, run).open))
      else g1 == g0
    case PopLocals(run, top) =>
      if HasObj(g0, run) && Body0(g0, run).Thread? && top <= |Body0(g0, run).stack|
         && NoOpenAbove(g0.heap, Body0(g0, run).open, top) then
        OnlyAt(g0.heap, g1.heap, Value(g0, run).id, Thread(Body0(g0, run).stack[..top], Body0(g0, run).open))
      else g1 == g0
    case Capture(run, slot, id) =>
      if HasObj(g0, run) && Body0(g0, run).Thread? && slot < |Body0(g0, run).stack| && id !in g0.heap
         && !(exists u :: SlotOpen(g0, Value(g0, run).id, slot, u)) then
        var th := Value(g0, run).id;
        && g1.heap.Keys == g0.heap.Keys + {id} && g1.heap[id] == OpenUp(th, slot)
        && g1.heap[th] == Thread(Body0(g0, run).stack, [id] + Body0(g0, run).open)
        && forall x :: x in g0.heap && x != th ==> g1.heap[x] == g0.heap[x]
      else g1 == g0
    case SetUpvalue(uv, v) =>
      if HasObj(g0, uv) && Has(g0, v) && Body0(g0, uv).ClosedUp? then
        OnlyAt(g0.heap, g1.heap, Value(g0, uv).id, ClosedUp(Value(g0, v)))
      else if HasObj(g0, uv) && Has(g0, v) && Body0(g0, uv).OpenUp? then
        var th, slot := Body0(g0, uv).th, Body0(g0, uv).slot;
        && th in g0.heap && g0.heap[th].Thread? && slot < |g0.heap[th].stack|
        && OnlyAt(g0.heap, g1.heap, th, Thread(g0.heap[th].stack[slot := Value(g0, v)], g0.heap[th].open))
      else g1 == g0
    case CloseUpvalue(uv) =>
      if HasObj(g0, uv) && Body0(g0, uv).OpenUp? then
        var u, th := Value(g0, uv).id, Body0(g0, uv).th;
        && th in g0.heap && g0.heap[th].Thread? && th != u && Body0(g0, uv).slot < |g0.heap[th].stack|
        && g1.heap.Keys == g0.heap.Keys && g1.heap[u] == ClosedUp(g0.heap[th].stack[Body0(g0, uv).slot])
        && g1.heap[th] == Thread(g0.heap[th].stack, Without(g0.heap[th].open, u))
        && forall x :: x in g0.heap && x != u && x != th ==> g1.heap[x] == g0.heap[x]
      else g1 == g0
    case _ => true
  }

  /** What a new object holds, what roots are set to, what becomes of objects with finalizers, and that the collector
      itself leaves all values as they are, but for entries of weak tables in the atomic step. */
  ghost predicate WroteRest(g0: Global, op: Op, g1: Global) {
    match op
    case GcStep(run, _) => HeapKept(g0.heap, g1.heap, g0.phase.EnterAtomic?)
      && if HasObj(g0, run) then Queued(g0, Value(g0, run).id, g1) else g1 == g0
    case GiveUp => HeapKept(g0.heap, g1.heap, false)
    case Create(run, id, shape) =>
      if HasObj(g0, run) && Body0(g0, run).Thread? && id !in g0.heap then
        var th := Value(g0, run).id;
        && g1.heap.Keys == g0.heap.Keys + {id} && Empty(g1.heap[id], shape)
        && g1.heap[th] == Thread(Body0(g0, run).stack + [Obj(id)], Body0(g0, run).open)
        && forall x :: x in g0.heap && x != th ==> g1.heap[x] == g0.heap[x]
      else g1 == g0
    case SetGlobalRoot(i, v) =>
      if Has(g0, v) && i < |g0.roots| then g1.heap == g0.heap && g1.roots == g0.roots[i := Value(g0, v)] else g1 == g0
    case MakeFinalizable(o) =>
      if HasObj(g0, o) && Value(g0, o).id in g0.allgc then
        && HeapKept(g0.heap, g1.heap, false) && g1.finobj == [Value(g0, o).id] + g0.finobj
        && Value(g0, o).id !in g1.allgc
      else g1 == g0
    case CallFinalizer(run) =>
      if HasObj(g0, run) && Body0(g0, run).Thread? && g0.phase.CallFin? && g0.tobefnz != [] then
        && OnlyAt(g0.heap, g1.heap, Value(g0, run).id,
                  Thread(Body0(g0, run).stack + [Obj(g0.tobefnz[0])], Body0(g0, run).open))
        && g1.tobefnz == g0.tobefnz[1..] && g1.allgc == [g0.tobefnz[0]] + g0.allgc
      else g1 == g0
    case _ => true
  }

  /** A new object of a shape: all its places are free. */
  predicate Empty(b: Body, s: Shape) {
    match s
    case AStr => b.Str?
    case APlain(n) => b.Plain? && |b.refs| == n && forall i :: 0 <= i < n ==> b.refs[i].NoRef?
    case AUdata => b == Udata(NoRef)
    case ATable(n) =>
      && b.Table? && b.mt.NoRef? && b.mode.StrongT? && b.nodes == [] && |b.arr| == n
      && forall i :: 0 <= i < n ==> b.arr[i].NoRef?
    case AThread => b == Thread([], [])
  }

  predicate IsStore(op: Op) {
    op.SetField? || op.SetEntry? || op.AddEntry? || op.SetMetatable? || op.SetMode? || op.SetCell?
  }

  predicate IsThreads(op: Op) {
    op.SetLocal? || op.PopLocals? || op.Capture? || op.SetUpvalue? || op.CloseUpvalue?
  }

  ghost predicate Wrote(g0: Global, op: Op, g1: Global) {
    if IsStore(op) then WroteObject(g0, op, g1)
    else if IsThreads(op) then WroteThread(g0, op, g1)
    else WroteRest(g0, op, g1)
  }

  // ---------------------------------------------------------------- stores

  lemma ArrAdds(h: Heap, b: Body, i: nat, v: Ref)
    requires (b.Table? && i < |b.arr|) || (b.Plain? && i < |b.refs|)
    ensures Adds(h, b, if b.Table? then b.(arr := b.arr[i := v]) else Plain(b.refs[i := v]), [v])
  {}

  lemma NodeAdds(h: Heap, b: Body, i: nat, v: Ref)
    requires b.Table? && i < |b.nodes|
    ensures Adds(h, b, b.(nodes := b.nodes[i := Node(b.nodes[i].key, Val(v))]), [v])
  {
    var b1 := b.(nodes := b.nodes[i := Node(b.nodes[i].key, Val(v))]);
    forall r | Refers(b1, r) ensures Refers(b, r) || Obj(r) in [v] {
      if !(b.mt == Obj(r) || Obj(r) in b.arr) {
        var n :| n in b1.nodes && NodeRefs(n, r);
        if n !in b.nodes { assert NodeRefs(b.nodes[i], r) || v == Obj(r); }
      }
    }
  }

  lemma EntryAdds(h: Heap, b: Body, k: Ref, v: Ref)
    requires b.Table?
    ensures Adds(h, b, b.(nodes := b.nodes + [Node(k, Val(v))]), [k, v])
  {
    var b1 := b.(nodes := b.nodes + [Node(k, Val(v))]);
    forall r | Refers(b1, r) ensures Refers(b, r) || Obj(r) in [k, v] {
      if !(b.mt == Obj(r) || Obj(r) in b.arr) {
        var n :| n in b1.nodes && NodeRefs(n, r);
      }
    }
  }

  lemma MetaAdds(h: Heap, b: Body, mt: Ref, mode: Mode)
    requires b.Table? || b.Udata?
    ensures b.Table? ==> Adds(h, b, b.(mt := mt, mode := mode), [mt])
    ensures b.Udata? ==> Adds(h, b, Udata(mt), [mt])
  {}

  lemma ModeAdds(h: Heap, b: Body, mode: Mode)
    requires b.Table?
    ensures Adds(h, b, b.(mode := mode), [])
  {}

  lemma MetaSame(g: Global, o: Id, b: Body)
    requires Inv(g) && Live(g, o) && (b.Table? ==> g.heap[o].Table? && b.mt == g.heap[o].mt)
    ensures MetaKind(g.heap, b)
  {
    hide PhaseOk, UpvalsOk, LiveClosed, RootsLive, TwupsLive, OwnedOk;
    assert MetaKind(g.heap, g.heap[o]);
  }

  lemma AllLivePair(g: Global, k: Ref, v: Ref)
    requires AllLive(g, [k]) && AllLive(g, [v])
    ensures AllLive(g, [k, v])
  {
    hide Live;
    forall x | x in [k, v] && x.Obj? ensures Live(g, x.id) { assert x in [k] || x in [v]; }
  }

  lemma SurvivesBarrier(g0: Global, g1: Global, o: Id, b: Body)
    requires BarrierDone(g0, g1, o, b)
    ensures forall x :: Live(g0, x) ==> Live(g1, x)
    ensures o in g0.heap ==> OnlyAt(g0.heap, g1.heap, o, b)
  {}

  /** Stores into tables, closures, prototypes and userdata. */
  method DoStore(c: Collector, op: Op)
    requires Inv(c.g) && (op.SetField? || op.SetEntry? || op.AddEntry? || op.SetMetatable? || op.SetMode?
                          || op.SetCell?)
    modifies c
    ensures Inv(c.g) && forall x :: Live(old(c.g), x) ==> Live(c.g, x)
    ensures Told(old(c.g), op) ==> c.g == Outcome(old(c.g), op)
    ensures WroteObject(old(c.g), op, c.g)
  {
    hide Inv, Adds, AllLive, MetaKind, BarrierDone, ValidPath, Live, IsWhite;
    ghost var g0 := c.g;
    match op {
      case SetField(t, i, v) =>
        if HasObj(c.g, t) && Has(c.g, v) && Body0(c.g, t).Table? && i < |Body0(c.g, t).arr| {
          var o, b := Value(c.g, t).id, Body0(c.g, t);
          var b1 := b.(arr := b.arr[i := Value(c.g, v)]);
          ValueLive(c.g, t);
          ValueLive(c.g, v);
          ArrAdds(c.g.heap, b, i, Value(c.g, v));
          MetaSame(c.g, o, b1);
          StoreBack(c, o, b1, [Value(c.g, v)]);
          SurvivesBarrier(g0, c.g, o, b1);
        }
      case SetEntry(t, i, v) =>
        if HasObj(c.g, t) && Has(c.g, v) && Body0(c.g, t).Table? && i < |Body0(c.g, t).nodes| {
          var o, b := Value(c.g, t).id, Body0(c.g, t);
          var b1 := b.(nodes := b.nodes[i := Node(b.nodes[i].key, Val(Value(c.g, v)))]);
          ValueLive(c.g, t);
          ValueLive(c.g, v);
          NodeAdds(c.g.heap, b, i, Value(c.g, v));
          MetaSame(c.g, o, b1);
          StoreBack(c, o, b1, [Value(c.g, v)]);
          SurvivesBarrier(g0, c.g, o, b1);
        }
      case AddEntry(t, k, v) =>
        if HasObj(c.g, t) && Has(c.g, k) && Has(c.g, v) && Body0(c.g, t).Table? {
          var o, b := Value(c.g, t).id, Body0(c.g, t);
          var b1 := b.(nodes := b.nodes + [Node(Value(c.g, k), Val(Value(c.g, v)))]);
          ValueLive(c.g, t);
          ValueLive(c.g, k);
          ValueLive(c.g, v);
          AllLivePair(c.g, Value(c.g, k), Value(c.g, v));
          EntryAdds(c.g.heap, b, Value(c.g, k), Value(c.g, v));
          MetaSame(c.g, o, b1);
          StoreBack(c, o, b1, [Value(c.g, k), Value(c.g, v)]);
          SurvivesBarrier(g0, c.g, o, b1);
        }
      case SetMetatable(t, mt, mode) =>
        if HasObj(c.g, t) && Has(c.g, mt) && (mt.Via? ==> HasObj(c.g, mt) && Body0(c.g, mt).Table?)
           && (Body0(c.g, t).Table? || Body0(c.g, t).Udata?) {
          var o, b := Value(c.g, t).id, Body0(c.g, t);
          var kind := if mt.Via? then mode else StrongT;  // the mode is the metatable's
          var b1 := if b.Table? then b.(mt := Value(c.g, mt), mode := kind) else Udata(Value(c.g, mt));
          ValueLive(c.g, t);
          ValueLive(c.g, mt);
          MetaAdds(c.g.heap, b, Value(c.g, mt), kind);
          assert MetaKind(c.g.heap, b1) by { MetaTable(c.g.heap, b1); }
          StoreForward(c, o, b1, Value(c.g, mt));
          SurvivesBarrier(g0, c.g, o, b1);
        }
      case SetMode(t, mode) =>
        if HasObj(c.g, t) && Body0(c.g, t).Table? && Body0(c.g, t).mt.Obj? {
          var o, b := Value(c.g, t).id, Body0(c.g, t);
          var b1 := b.(mode := mode);
          ValueLive(c.g, t);
          ModeAdds(c.g.heap, b, mode);
          MetaSame(c.g, o, b1);
          assert AllLive(c.g, []) by { NoneLive(c.g); }
          StoreBack(c, o, b1, []);
          SurvivesBarrier(g0, c.g, o, b1);
        }
      case SetCell(p, i, v) =>
        if HasObj(c.g, p) && Has(c.g, v) && Body0(c.g, p).Plain? && i < |Body0(c.g, p).refs| {
          var o, b := Value(c.g, p).id, Body0(c.g, p);
          var b1 := Plain(b.refs[i := Value(c.g, v)]);
          ValueLive(c.g, p);
          ValueLive(c.g, v);
          ArrAdds(c.g.heap, b, i, Value(c.g, v));
          MetaSame(c.g, o, b1);
          StoreForward(c, o, b1, Value(c.g, v));
          SurvivesBarrier(g0, c.g, o, b1);
        }
      case _ =>
    }
  }

  lemma MetaTable(h: Heap, b: Body)
    requires b.Table? && b.mt.Obj? ==> b.mt.id in h && h[b.mt.id].Table?
    ensures MetaKind(h, b)
  {}

  lemma NoneLive(g: Global)
    ensures AllLive(g, [])
  {}

  // ---------------------------------------------------------------- threads and upvalues

  lemma LocalsLive(g: Global, th: Id, stack: seq<Ref>, v: Ref)
    requires Inv(g) && Live(g, th) && g.heap[th].Thread? && AllLive(g, [v])
    requires forall x :: x in stack ==> x in g.heap[th].stack || x == v || x == NoRef
    ensures AllLive(g, stack)
    ensures |stack| >= |g.heap[th].stack| ==> SlotsCover(g.heap, g.heap[th].open, |stack|)
  {
    hide PhaseOk, OwnedOk, RootsLive, TwupsLive;
    forall x | x in stack && x.Obj? ensures Live(g, x.id) {
      if x in g.heap[th].stack { assert Points(g.heap, th, x.id); } else { assert v in [v]; }
    }
  }

  predicate NoOpenAbove(h: Heap, open: seq<Id>, top: nat) {
    forall uv :: uv in open && uv in h && h[uv].OpenUp? ==> h[uv].slot < top
  }

  lemma UpSlot(g: Global, uv: Id)
    requires Inv(g) && Live(g, uv) && g.heap[uv].OpenUp?
    ensures var th := g.heap[uv].th;
      th in g.heap && th in g.color && g.heap[th].Thread? && g.heap[uv].slot < |g.heap[th].stack|
  {
    hide PhaseOk, LiveClosed, RootsLive, TwupsLive, Owned;
  }

  /** A dead thread that the sweep has not reached still holds the values of its open upvalues. */
  lemma DeadStack(g: Global, th: Id, slot: nat, v: Ref)
    requires Inv(g) && Dead(g, th) && th in g.heap && g.heap[th].Thread? && slot < |g.heap[th].stack| && AllLive(g, [v])
    ensures var g1 := Stored(g, th, Thread(g.heap[th].stack[slot := v], g.heap[th].open)); Inv(g1) && SameLive(g, g1)
  {
    hide Points, Owned, UpvalsOk, LiveClosed, RootsLive, TwupsLive, MetasOk, SweptWhite, MarkPhaseOk, AllWhite,
      SlotsCover;
    var b := Thread(g.heap[th].stack[slot := v], g.heap[th].open);
    var g1 := Stored(g, th, b);
    assert SlotsCover(g.heap, b.open, |b.stack|) by { OpenSlots(g, th); }
    StoredUpvals(g.heap, th, b);
    OwnedSame(g, g1);
    assert forall o :: Live(g1, o) <==> Live(g, o);
    DeadClosed(g, th, slot, v);
    RootsStay(g, g1);
    DeadRoles(g, th, b);
    if InMark(g) { DeadMark(g, th); assert false; } else if InSweep(g) { SweptStays(g, g1); } else { DeadWhite(g, th); }
  }

  lemma DeadClosed(g: Global, th: Id, slot: nat, v: Ref)
    requires LiveClosed(g) && Dead(g, th) && th in g.heap && g.heap[th].Thread? && slot < |g.heap[th].stack|
          && AllLive(g, [v])
    ensures LiveClosed(Stored(g, th, Thread(g.heap[th].stack[slot := v], g.heap[th].open)))
  {
    hide Points;
    var g1 := Stored(g, th, Thread(g.heap[th].stack[slot := v], g.heap[th].open));
    forall x, r | x in g1.heap && Live(g1, x) && Points(g1.heap, x, r) ensures Live(g1, r) {
      DeadPoints(g.heap, th, slot, v, x, r);
      assert v in [v];
    }
  }

  lemma DeadRoles(g: Global, th: Id, b: Body)
    requires TwupsLive(g) && MetasOk(g) && LiveClosed(g) && Dead(g, th) && th in g.heap && b.Thread?
          && g.heap[th].Thread?
    ensures TwupsLive(Stored(g, th, b)) && MetasOk(Stored(g, th, b))
  {
    hide LiveClosed, MetasOk, Points;
    var g1 := Stored(g, th, b);
    assert TablesStay(g, g1);
    MetasStay(g, g1);
  }

  lemma RootsStay(g: Global, g1: Global)
    requires RootsLive(g) && SameLive(g, g1) && g1.roots == g.roots && g1.main == g.main && g1.tobefnz == g.tobefnz
    requires g1.heap.Keys == g.heap.Keys && forall o :: o in g.heap && g.heap[o].Thread? ==> g1.heap[o].Thread?
    ensures RootsLive(g1)
  {}

  lemma OpenSlots(g: Global, th: Id)
    requires Inv(g) && th in g.heap && g.heap[th].Thread?
    ensures SlotsCover(g.heap, g.heap[th].open, |g.heap[th].stack|)
  {
    hide PhaseOk, OwnedOk, LiveClosed, RootsLive, TwupsLive;
  }

  lemma DeadPoints(h: Heap, th: Id, slot: nat, v: Ref, x: Id, r: Id)
    requires th in h && h[th].Thread? && slot < |h[th].stack| && x in h && x != th
    requires Points(h[th := Thread(h[th].stack[slot := v], h[th].open)], x, r)
    ensures Points(h, x, r) || v == Obj(r)
  {}

  lemma DeadMark(g: Global, o: Id)
    requires Inv(g) && InMark(g) && o in g.heap
    ensures !Dead(g, o)
  {
    hide Base, Points, Lists;
    assert ObjOk(g, Again(g), o);
  }

  lemma DeadWhite(g: Global, o: Id)
    requires Inv(g) && !InMark(g) && !InSweep(g)
    ensures !Dead(g, o)
  {
    hide Base;
  }

  /** `lua_setupvalue` (lapi.c 1353-1369) and `OP_SETUPVAL` (lvm.c 1205-1210): an open upvalue's value is in the stack.
      */
  method StoreUpvalue(c: Collector, uv: Id, v: Ref)
    requires Inv(c.g) && Live(c.g, uv) && AllLive(c.g, [v]) && (c.g.heap[uv].ClosedUp? || c.g.heap[uv].OpenUp?)
    modifies c
    ensures Inv(c.g) && uv in c.g.heap && (forall x :: Live(old(c.g), x) ==> Live(c.g, x))
    ensures c.g.heap[uv].ClosedUp? ==> c.g.heap[uv].v == v
    ensures c.g.heap[uv].OpenUp? ==> Content(c.g.heap, uv) == v
    ensures match old(c.g).heap[uv]
      case OpenUp(th, slot) =>
        && th in old(c.g).heap && old(c.g).heap[th].Thread? && slot < |old(c.g).heap[th].stack|
        && OnlyAt(old(c.g).heap, c.g.heap, th,
                  Thread(old(c.g).heap[th].stack[slot := v], old(c.g).heap[th].open))
      case _ => OnlyAt(old(c.g).heap, c.g.heap, uv, ClosedUp(v))
  {
    hide Inv, AllLive, MetaKind, BarrierDone, Live;
    ghost var g0 := c.g;
    LiveColored(c.g, uv);
    match c.g.heap[uv] {
      case OpenUp(th, slot) =>
        UpSlot(c.g, uv);
        var stack := c.g.heap[th].stack[slot := v];
        if Dead(c.g, th) {
          DeadStack(c.g, th, slot, v);
          c.g := Stored(c.g, th, Thread(stack, c.g.heap[th].open));
        } else {
          NotDead(c.g, th);
          LocalsLive(c.g, th, stack, v);
          SetStack(c, th, stack);
        }
      case ClosedUp(w) =>
        MetaSame(c.g, uv, ClosedUp(v));
        StoreForward(c, uv, ClosedUp(v), v);
        SurvivesBarrier(g0, c.g, uv, ClosedUp(v));
        BarrierBody(g0, c.g, uv, ClosedUp(v));
    }
  }

  lemma NotDead(g: Global, o: Id)
    requires o in g.heap && o in g.color && !Dead(g, o)
    ensures Live(g, o)
  {}

  lemma BarrierBody(g0: Global, g1: Global, o: Id, b: Body)
    requires BarrierDone(g0, g1, o, b)
    ensures o in g1.heap && g1.heap[o] == b
  {}

  method DoThread(c: Collector, op: Op)
    requires Inv(c.g) && (op.SetLocal? || op.PopLocals?)
    modifies c
    ensures Inv(c.g) && forall x :: Live(old(c.g), x) ==> Live(c.g, x)
    ensures Told(old(c.g), op) ==> c.g == Outcome(old(c.g), op)
    ensures WroteThread(old(c.g), op, c.g)
  {
    hide Inv, AllLive, ValidPath, Live;
    match op {
      case SetLocal(run, slot, v) =>
        if HasObj(c.g, run) && Has(c.g, v) && Body0(c.g, run).Thread? && slot <= |Body0(c.g, run).stack| {
          var th, s := Value(c.g, run).id, Body0(c.g, run).stack;
          var stack := if slot < |s| then s[slot := Value(c.g, v)] else s + [Value(c.g, v)];
          ValueLive(c.g, run);
          ValueLive(c.g, v);
          LocalsLive(c.g, th, stack, Value(c.g, v));
          SetStack(c, th, stack);
        }
      case PopLocals(run, top) =>
        if HasObj(c.g, run) && Body0(c.g, run).Thread? && top <= |Body0(c.g, run).stack|
           && NoOpenAbove(c.g.heap, Body0(c.g, run).open, top) {
          var th := Value(c.g, run).id;
          ValueLive(c.g, run);
          assert AllLive(c.g, [NoRef]) by { NoRefLive(c.g); }
          LocalsLive(c.g, th, Body0(c.g, run).stack[..top], NoRef);
          SetStack(c, th, Body0(c.g, run).stack[..top]);
        }
      case _ =>
    }
  }

  method DoUpvalue(c: Collector, op: Op)
    requires Inv(c.g) && (op.Capture? || op.SetUpvalue? || op.CloseUpvalue?)
    modifies c
    ensures Inv(c.g) && forall x :: Live(old(c.g), x) ==> Live(c.g, x)
    ensures WroteThread(old(c.g), op, c.g)
  {
    hide Inv, AllLive, ValidPath, Live;
    match op {
      case Capture(run, slot, id) =>
        if HasObj(c.g, run) && Body0(c.g, run).Thread? && slot < |Body0(c.g, run).stack| && id !in c.g.heap {
          ValueLive(c.g, run);
          var uv := FindUpval(c, Value(c.g, run).id, slot, id);
        }
      case SetUpvalue(uv, v) =>
        if HasObj(c.g, uv) && Has(c.g, v) {
          var b := Body0(c.g, uv);
          ValueLive(c.g, uv);
          ValueLive(c.g, v);
          if b.ClosedUp? || b.OpenUp? {
            StoreUpvalue(c, Value(c.g, uv).id, Value(c.g, v));
          }
        }
      case CloseUpvalue(uv) =>
        if HasObj(c.g, uv) && Body0(c.g, uv).OpenUp? {
          ghost var g0 := c.g;
          CloseUpval(c, Value(c.g, uv).id);
          ClosedWrites(g0, c.g, Value(g0, uv).id);
        }
      case _ =>
    }
  }

  lemma ClosedWrites(g0: Global, g1: Global, uv: Id)
    requires Inv(g0) && OpenHome(g0, uv) && g1.heap == ClosedState(g0, uv, Black).heap
    ensures var th := g0.heap[uv].th;
      && th != uv && g0.heap[uv].slot < |g0.heap[th].stack| && g1.heap.Keys == g0.heap.Keys
      && g1.heap[uv] == ClosedUp(g0.heap[th].stack[g0.heap[uv].slot])
      && g1.heap[th] == Thread(g0.heap[th].stack, Without(g0.heap[th].open, uv))
      && forall x :: x in g0.heap && x != uv && x != th ==> g1.heap[x] == g0.heap[x]
  {
    hide PhaseOk, OwnedOk, LiveClosed, RootsLive, TwupsLive, MetasOk;
    HomeOf(g0, uv);
  }

  lemma NoRefLive(g: Global)
    ensures AllLive(g, [NoRef])
  {}

  // ---------------------------------------------------------------- the other operations

  lemma NewBodyOk(g: Global, id: Id, s: Shape)
    requires id !in g.heap
    ensures NewOk(g, id, NewBody(s))
  {
    hide Live;
  }

  /** A new object, pushed on the stack of the running thread. */
  method DoCreate(c: Collector, run: Arg, id: Id, shape: Shape)
    requires Inv(c.g)
    modifies c
    ensures Inv(c.g) && forall x :: Live(old(c.g), x) ==> Live(c.g, x)
    ensures Told(old(c.g), Create(run, id, shape)) ==> c.g == Outcome(old(c.g), Create(run, id, shape))
    ensures WroteRest(old(c.g), Create(run, id, shape), c.g)
  {
    hide Inv, AllLive, ValidPath, Live, NewOk;
    if HasObj(c.g, run) && Body0(c.g, run).Thread? && id !in c.g.heap {
      var th := Value(c.g, run).id;
      ValueLive(c.g, run);
      NewBodyOk(c.g, id, shape);
      ghost var g0 := c.g;
      NewObject(c, id, NewBody(shape));
      assert AllLive(c.g, [Obj(id)]) by { OneLive(c.g, id); }
      LocalsLive(c.g, th, c.g.heap[th].stack + [Obj(id)], Obj(id));
      SetStack(c, th, c.g.heap[th].stack + [Obj(id)]);
    }
  }

  lemma OneLive(g: Global, id: Id)
    requires Live(g, id)
    ensures AllLive(g, [Obj(id)])
  {}

  /** Roots. */
  method DoRoot(c: Collector, i: nat, v: Arg)
    requires Inv(c.g)
    modifies c
    ensures Inv(c.g) && forall x :: Live(old(c.g), x) ==> Live(c.g, x)
    ensures WroteRest(old(c.g), SetGlobalRoot(i, v), c.g)
  {
    hide Inv, AllLive, ValidPath, Live;
    if Has(c.g, v) && i < |c.g.roots| {
      ValueLive(c.g, v);
      SetRoot(c, i, Value(c.g, v));
    }
  }

  /** Giving up a cycle. */
  method DoGiveUp(c: Collector)
    requires Inv(c.g)
    modifies c
    ensures Inv(c.g) && forall x :: Live(old(c.g), x) ==> Live(c.g, x)
    ensures WroteRest(old(c.g), GiveUp, c.g)
  {
    hide HeapKept;
    KeptSame(c.g.heap, false);
    hide Inv, Live;
    if InMark(c.g) { AbandonCycle(c); }
  }

  /** Marking an object for finalization. */
  method DoFinalizable(c: Collector, o: Arg)
    requires Inv(c.g)
    modifies c
    ensures Inv(c.g) && forall x :: Live(old(c.g), x) ==> Live(c.g, x)
    ensures WroteRest(old(c.g), MakeFinalizable(o), c.g)
  {
    hide HeapKept, Inv, AllLive, ValidPath, Live;
    if HasObj(c.g, o) {
      ValueLive(c.g, o);
      CheckFinalizer(c, Value(c.g, o).id);
    }
  }

  /** The object whose finalizer is due is handed to the program. */
  method DoFinalizer(c: Collector, run: Arg)
    requires Inv(c.g)
    modifies c
    ensures Inv(c.g) && forall x :: Live(old(c.g), x) ==> Live(c.g, x)
    ensures WroteRest(old(c.g), CallFinalizer(run), c.g)
  {
    hide Inv, AllLive, ValidPath, Live;
    if HasObj(c.g, run) && Body0(c.g, run).Thread? && c.g.phase.CallFin? && c.g.tobefnz != [] {
      ValueLive(c.g, run);
      RunFinalizer(c, Value(c.g, run).id);
    }
  }

  /** What the program does between the steps of the collector. */
  method DoProgram(c: Collector, op: Op)
    requires Inv(c.g) && !op.GcStep?
    modifies c
    ensures Inv(c.g) && forall x :: Live(old(c.g), x) ==> Live(c.g, x)
    ensures Told(old(c.g), op) ==> c.g == Outcome(old(c.g), op)
    ensures Wrote(old(c.g), op, c.g)
  {
    hide Inv, HasObj, Live, WroteObject, WroteThread, WroteRest, Outcome;
    if IsStore(op) {
      DoStore(c, op);
    } else if op.SetLocal? || op.PopLocals? {
      DoThread(c, op);
    } else if IsThreads(op) {
      DoUpvalue(c, op);
    } else {
      match op {
        case GiveUp => DoGiveUp(c);
        case Create(run, id, shape) => DoCreate(c, run, id, shape);
        case SetGlobalRoot(i, v) => DoRoot(c, i, v);
        case MakeFinalizable(o) => DoFinalizable(c, o);
        case CallFinalizer(run) => DoFinalizer(c, run);
      }
    }
  }

  lemma StepWrote(g0: Global, op: Op, g1: Global)
    requires op.GcStep? && HeapKept(g0.heap, g1.heap, g0.phase.EnterAtomic?)
    requires if HasObj(g0, op.run) then Queued(g0, Value(g0, op.run).id, g1) else g1 == g0
    ensures WroteRest(g0, op, g1)
  {
    hide HeapKept, Queued, HasObj;
  }

  /** A step of the collector. */
  method DoStep(c: Collector, op: Op) returns (ok: bool)
    requires Inv(c.g) && op.GcStep?
    modifies c
    ensures ok <==> !Fails(old(c.g), op)
    ensures ok ==> Inv(c.g) && Survives(old(c.g), op, c.g) && WroteRest(old(c.g), op, c.g)
    ensures !ok ==> Lost(old(c.g), Value(old(c.g), op.run).id, c.g)
    ensures Told(old(c.g), op) ==> c.g == Outcome(old(c.g), op)
  {
    hide Inv, AllLive, ValidPath, Live, StrongReachable, MetasReached, Lost, EasyStep, StepState, HeapKept, LiveExactly,
      Advances, StepPhase, Queued;
    ghost var g0 := c.g;
    KeptSame(c.g.heap, c.g.phase.EnterAtomic?);
    ok := true;
    if HasObj(c.g, op.run) {
      ValueLive(c.g, op.run);
      AllWithin(c.g);
      ok := SingleStep(c, Value(c.g, op.run).id, op.emergency, c.g.heap.Keys);
    }
    if ok { StepWrote(g0, op, c.g); }
  }

  /** One step of a run. It fails only where `Fails` says so, and then some surviving object refers to a dead one. */
  method Do(c: Collector, op: Op) returns (ok: bool)
    requires Inv(c.g)
    modifies c
    ensures ok <==> !Fails(old(c.g), op)
    ensures ok ==> Inv(c.g) && Survives(old(c.g), op, c.g)
    ensures !ok ==> Lost(old(c.g), Value(old(c.g), op.run).id, c.g)
    ensures Told(old(c.g), op) ==> c.g == Outcome(old(c.g), op)
    ensures ok ==> Wrote(old(c.g), op, c.g)
  {
    hide Inv, HasObj, Live, Told, Outcome, StrongReachable, MetasReached, Lost, WroteObject, WroteThread, WroteRest;
    ok := true;
    if op.GcStep? { ok := DoStep(c, op); } else { DoProgram(c, op); }
  }

  /** The first state: the main thread and the registry, both white, between two cycles. */
  function FirstState(): Global {
    Global(map[0 := Thread([], []), 1 := Table(NoRef, StrongT, [], [])], map[0 := White(false), 1 := White(false)],
           false, Pause,
           [], [], [], [], [], [], [Obj(1)], 0, [1, 0], [], [], AtEnd)
  }

  lemma FirstOk()
    ensures Inv(FirstState())
  {
    hide Points, OwnedOk;
    var g := FirstState();
    FirstOwned();
    NoPoints(g.heap, 0);
    NoPoints(g.heap, 1);
  }

  lemma FirstOwned()
    ensures OwnedOk(FirstState())
  {
    assert Owned(FirstState()) == multiset{0, 1};
  }

  lemma NoPoints(h: Heap, o: Id)
    requires o in h && (h[o] == Thread([], []) || h[o] == Table(NoRef, StrongT, [], []))
    ensures forall r :: !Points(h, o, r)
  {}

  lemma InvSafe(g: Global)
    requires Inv(g)
    ensures Safe(g)
  {
    hide Base, PhaseOk, Accessible;
    forall o | Accessible(g, o) ensures o in g.heap && !Dead(g, o) { AccessibleLive(g, o); }
  }

  /** The first `n` steps: every state is safe, every step keeps alive what it must, and none fails. */
  ghost predicate RunOk(trace: seq<Global>, script: seq<Op>, n: nat) {
    && n <= |script| && |trace| == n + 1 && trace[0] == FirstState()
    && (forall i :: 0 <= i <= n ==> Safe(trace[i]))
    && (forall i :: 0 <= i < n ==> StepOk(trace[i], script[i], trace[i + 1]))
  }

  ghost predicate StepOk(g0: Global, op: Op, g1: Global) {
    !Fails(g0, op) && Survives(g0, op, g1) && Wrote(g0, op, g1) && (Told(g0, op) ==> g1 == Outcome(g0, op))
  }

  /** Safety over whole runs: from the first state, for every script of collector steps and program operations, every
      state is safe and every step keeps alive what it must. The run ends early exactly at the first atomic step that
      `Fails`, and there some surviving object refers to a dead one. */
  method Run(script: seq<Op>) returns (c: Collector, n: nat, ghost trace: seq<Global>)
    ensures n <= |script| && (n == |script| ==> Inv(c.g) && Safe(c.g))
    ensures RunOk(trace, script, n)
    ensures n == |script| ==> c.g == trace[n]
    ensures n < |script| ==> Fails(trace[n], script[n]) && Lost(trace[n], Value(trace[n], script[n].run).id, c.g)
  {
    hide Inv, Safe, StepOk, Fails, Lost, Wrote;
    c := new Collector(FirstState());
    FirstOk();
    InvSafe(c.g);
    trace := [c.g];
    n := 0;
    while n < |script|
      invariant n <= |script| && Inv(c.g) && RunOk(trace, script, n) && c.g == trace[n]
    {
      var ok := Do(c, script[n]);
      if !ok {
        assert HasObj(trace[n], script[n].run) by { FailsHas(trace[n], script[n]); }
        return;
      }
      assert StepOk(trace[n], script[n], c.g) by { Stepped(trace[n], script[n], c.g); }
      InvSafe(c.g);
      trace := trace + [c.g];
      n := n + 1;
    }
  }

  lemma FailsHas(g: Global, op: Op)
    requires Fails(g, op)
    ensures op.GcStep? && HasObj(g, op.run) && g.phase.EnterAtomic?
  {}

  lemma Stepped(g0: Global, op: Op, g1: Global)
    requires !Fails(g0, op) && Survives(g0, op, g1) && Wrote(g0, op, g1)
    requires Told(g0, op) ==> g1 == Outcome(g0, op)
    ensures StepOk(g0, op, g1)
  {}
}
