/** A run in which the collector loses a metatable that the program can still reach. */
module LuaHole {
  import opened LuaHeap
  import opened LuaMarkSteps
  import opened LuaVisit
  import opened LuaAtomicSteps
  import opened LuaReach
  import opened LuaExact
  import opened LuaInvariant
  import opened LuaCollector
  import opened LuaSweep
  import opened LuaStep
  import opened LuaMutator
  import opened LuaAlloc
  import opened LuaMachine

  const MAIN := Via([0])

  /** A table (2) gets a metatable (3) that makes it weak in keys and values; the collector starts and marks everything;
      then the table gets a new one (4), which is dropped from the stack; then comes the atomic step. */
  function LostScript(): seq<Op> {
    [Create(MAIN, 2, ATable(0)),
     Create(MAIN, 3, ATable(0)),
     SetMetatable(Via([0, 2]), Via([0, 3]), AllWeak),
     GcStep(MAIN, false),
     GcStep(MAIN, false),
     GcStep(MAIN, false),
     GcStep(MAIN, false),
     GcStep(MAIN, false),
     GcStep(MAIN, false),
     Create(MAIN, 4, ATable(0)),
     SetMetatable(Via([0, 2]), Via([0, 4]), AllWeak),
     PopLocals(MAIN, 1),
     GcStep(MAIN, false)]
  }

  const EMPTY := Table(NoRef, StrongT, [], [])

  function Weak(mt: Id): Body {
    Table(Obj(mt), AllWeak, [], [])
  }

  function Main(stack: seq<Ref>): Body {
    Thread(stack, [])
  }

  function State(heap: Heap, color: map<Id, Color>, phase: Phase, gray: seq<Id>, again: seq<Id>, allweak: seq<Id>,
          allgc: seq<Id>): Global {
    Global(heap, color, false, phase, gray, again, [], allweak, [], [], [Obj(1)], 0, allgc, [], [], AtEnd)
  }

  const W := White(false)

  /** The states of the run. */
  function Stage(k: nat): Global {
    match k
    case 0 => State(map[0 := Main([]), 1 := EMPTY], map[0 := W, 1 := W], Pause, [], [], [], [1, 0])
    case 1 => State(map[0 := Main([Obj(2)]), 1 := EMPTY, 2 := EMPTY], map[0 := W, 1 := W, 2 := W], Pause, [], [], [],
                    [2, 1, 0])
    case 2 => State(map[0 := Main([Obj(2), Obj(3)]), 1 := EMPTY, 2 := EMPTY, 3 := EMPTY],
                    map[0 := W, 1 := W, 2 := W, 3 := W], Pause, [], [], [], [3, 2, 1, 0])
    case 3 => State(Pair(), map[0 := W, 1 := W, 2 := W, 3 := W], Pause, [], [], [], [3, 2, 1, 0])
    case 4 => State(Pair(), map[0 := Gray, 1 := Gray, 2 := W, 3 := W], Propagate, [1, 0], [], [], [3, 2, 1, 0])
    case 5 => State(Pair(), map[0 := Gray, 1 := Black, 2 := W, 3 := W], Propagate, [0], [], [], [3, 2, 1, 0])
    case 6 => State(Pair(), map[0 := Gray, 1 := Black, 2 := Gray, 3 := Gray], Propagate, [3, 2], [0], [], [3, 2, 1, 0])
    case 7 => State(Pair(), map[0 := Gray, 1 := Black, 2 := Gray, 3 := Black], Propagate, [2], [0], [], [3, 2, 1, 0])
    case 8 => State(Pair(), map[0 := Gray, 1 := Black, 2 := Gray, 3 := Black], Propagate, [], [0], [2], [3, 2, 1, 0])
    case 9 => State(Pair(), map[0 := Gray, 1 := Black, 2 := Gray, 3 := Black], EnterAtomic, [], [0], [2], [3, 2, 1, 0])
    case 10 => State(map[0 := Main([Obj(2), Obj(3), Obj(4)]), 1 := EMPTY, 2 := Weak(3), 3 := EMPTY, 4 := EMPTY],
                     map[0 := Gray, 1 := Black, 2 := Gray, 3 := Black, 4 := W], EnterAtomic, [], [0], [2],
                       [4, 3, 2, 1, 0])
    case 11 => State(map[0 := Main([Obj(2), Obj(3), Obj(4)]), 1 := EMPTY, 2 := Weak(4), 3 := EMPTY, 4 := EMPTY],
                     map[0 := Gray, 1 := Black, 2 := Gray, 3 := Black, 4 := W], EnterAtomic, [], [0], [2],
                       [4, 3, 2, 1, 0])
    case _ => State(map[0 := Main([Obj(2)]), 1 := EMPTY, 2 := Weak(4), 3 := EMPTY, 4 := EMPTY],
                    map[0 := Gray, 1 := Black, 2 := Gray, 3 := Black, 4 := W], EnterAtomic, [], [0], [2],
                      [4, 3, 2, 1, 0])
  }

  function Pair(): Heap {
    map[0 := Main([Obj(2), Obj(3)]), 1 := EMPTY, 2 := Weak(3), 3 := EMPTY]
  }

  lemma Created(g: Global, id: Id)
    requires 0 in g.heap && g.heap[0].Thread? && g.heap[0].open == [] && g.main == 0 && id !in g.heap && !g.cw
    ensures Told(g, Create(MAIN, id, ATable(0)))
    ensures Outcome(g, Create(MAIN, id, ATable(0))) ==
      g.(heap := g.heap[id := EMPTY][0 := Main(g.heap[0].stack + [Obj(id)])], color := g.color[id := W],
         allgc := [id] + g.allgc)
  {
    assert ValidPath(g, [0]);
    assert NewBody(ATable(0)) == EMPTY;
  }

  lemma Creates(k: nat, id: Id)
    requires (k == 0 && id == 2) || (k == 1 && id == 3) || (k == 9 && id == 4)
    ensures Told(Stage(k), Create(MAIN, id, ATable(0)))
          && Outcome(Stage(k), Create(MAIN, id, ATable(0))) == Stage(k + 1)
  {
    hide Told, Outcome;
    var g, next := Stage(k), Stage(k + 1);
    Created(g, id);
    assert Main(g.heap[0].stack + [Obj(id)]) == next.heap[0];
    assert g.heap[id := EMPTY][0 := next.heap[0]] == next.heap;
    assert g.color[id := W] == next.color;
  }

  lemma NowLinked(g: Global, mt: Id)
    requires 0 in g.heap && g.heap[0].Thread? && Obj(2) in g.heap[0].stack && Obj(mt) in g.heap[0].stack && g.main == 0
    requires 2 in g.heap && g.heap[2].Table? && g.heap[2] == g.heap[2].(arr := [], nodes := []) && mt in g.heap
          && g.heap[mt].Table?
    requires 2 in g.color && !g.color[2].Black?
    ensures var op := SetMetatable(Via([0, 2]), Via([0, mt]), AllWeak);
              Told(g, op) && Outcome(g, op) == Stored(g, 2, Weak(mt))
  {
    assert Points(g.heap, 0, 2) && Points(g.heap, 0, mt);
    assert ValidPath(g, [0, 2]) && ValidPath(g, [0, mt]);
  }

  lemma Links(k: nat, mt: Id)
    requires (k == 2 && mt == 3) || (k == 10 && mt == 4)
    ensures var op := SetMetatable(Via([0, 2]), Via([0, mt]), AllWeak);
              Told(Stage(k), op) && Outcome(Stage(k), op) == Stage(k + 1)
  {
    hide Told, Outcome;
    NowLinked(Stage(k), mt);
    assert Stage(k).heap[2 := Weak(mt)] == Stage(k + 1).heap;
  }

  lemma StartsGray(g: Global)
    requires g == Stage(3)
    ensures GrayRef(GrayRef(g, Obj(0)), Obj(1)).(phase := Propagate) == Stage(4)
  {
    assert g.color[0 := Gray][1 := Gray] == Stage(4).color;
  }

  lemma Starts()
    ensures Told(Stage(3), GcStep(MAIN, false)) && Outcome(Stage(3), GcStep(MAIN, false)) == Stage(4)
  {
    hide GrayRef;
    var g := Stage(3);
    assert ValidPath(g, [0]);
    StartsGray(g);
    var roots := [Obj(g.main)] + g.roots;
    assert roots == [Obj(0), Obj(1)] && roots[..1] == [Obj(0)] && roots[..1][..0] == [];
    assert GrayRefs(g, roots[..1]) == GrayRef(g, Obj(0));
    assert GrayRefs(g, roots) == GrayRef(GrayRef(g, Obj(0)), Obj(1));
    assert g.(gray := [], grayagain := [], weak := [], allweak := [], ephemeron := []) == g;
  }

  lemma VisitsEmpty(k: nat)
    requires k == 4 || k == 6
    ensures Told(Stage(k), GcStep(MAIN, false)) && Outcome(Stage(k), GcStep(MAIN, false)) == Stage(k + 1)
  {
    var g := Stage(k);
    assert ValidPath(g, [0]);
    assert VisitFirst(g) == g.(gray := g.gray[1..], color := g.color[g.gray[0] := Black]);
  }

  lemma VisitsMain()
    ensures Told(Stage(5), GcStep(MAIN, false)) && Outcome(Stage(5), GcStep(MAIN, false)) == Stage(6)
  {
    var g := Stage(5);
    assert ValidPath(g, [0]);
    var g1 := g.(gray := [], grayagain := [0]);
    assert g.color[0 := Black][0 := Gray] == g.color;
    var g0 := g.(gray := g.gray[1..], color := g.color[0 := Black]);
    assert g.gray[1..] == [] && [0] + g0.grayagain == [0];
    assert g0.(color := g0.color[0 := Gray], grayagain := [0] + g0.grayagain) == g1;
    assert ThreadVisit(g0, 0) == GrayRefs(g1, g.heap[0].stack);
    assert VisitFirst(g) == ThreadVisit(g0, 0);
    MainStack(g1);
  }

  lemma MainStack(g1: Global)
    requires g1 == Stage(5).(gray := [], grayagain := [0])
    ensures GrayRefs(g1, [Obj(2), Obj(3)]) == Stage(6)
  {
    var stack := [Obj(2), Obj(3)];
    assert stack[..1] == [Obj(2)] && stack[..1][..0] == [];
    var g2 := GrayRef(g1, Obj(2));
    assert GrayRefs(g1, stack[..1]) == g2;
    assert g2 == g1.(color := g1.color[2 := Gray], gray := [2]);
    assert GrayRefs(g1, stack) == GrayRef(g2, Obj(3));
    assert g1.color[2 := Gray][3 := Gray] == Stage(6).color;
  }

  lemma VisitsWeak()
    ensures Told(Stage(7), GcStep(MAIN, false)) && Outcome(Stage(7), GcStep(MAIN, false)) == Stage(8)
  {
    var g := Stage(7);
    assert ValidPath(g, [0]);
    assert g.color[2 := Black][2 := Gray] == g.color;
  }

  lemma Finishes()
    ensures Told(Stage(8), GcStep(MAIN, false)) && Outcome(Stage(8), GcStep(MAIN, false)) == Stage(9)
  {
    assert ValidPath(Stage(8), [0]);
  }

  lemma Pops()
    ensures Told(Stage(11), PopLocals(MAIN, 1)) && Outcome(Stage(11), PopLocals(MAIN, 1)) == Stage(12)
  {
    var g := Stage(11);
    assert ValidPath(g, [0]);
    assert g.heap[0].stack[..1] == [Obj(2)];
    assert g.heap[0 := Main([Obj(2)])] == Stage(12).heap;
  }

  lemma NextStage(k: nat)
    requires k < 12
    ensures Told(Stage(k), LostScript()[k]) && Outcome(Stage(k), LostScript()[k]) == Stage(k + 1)
          && !Fails(Stage(k), LostScript()[k])
  {
    hide Told, Outcome;
    if k == 0 { Creates(0, 2); }
    else if k == 1 { Creates(1, 3); }
    else if k == 2 { Links(2, 3); }
    else if k == 3 { Starts(); }
    else if k == 4 { VisitsEmpty(4); }
    else if k == 5 { VisitsMain(); }
    else if k == 6 { VisitsEmpty(6); }
    else if k == 7 { VisitsWeak(); }
    else if k == 8 { Finishes(); }
    else if k == 9 { Creates(9, 4); }
    else if k == 10 { Links(10, 4); }
    else { Pops(); }
  }

  lemma {:induction false} AtStage(trace: seq<Global>, n: nat, k: nat)
    requires RunOk(trace, LostScript(), n) && k <= n && k <= 12
    ensures trace[k] == Stage(k)
  {
    hide Stage, LostScript, Safe, Told, Outcome;
    if k == 0 {
      Begins();
    } else {
      AtStage(trace, n, k - 1);
      NextStage(k - 1);
      assert StepOk(trace[k - 1], LostScript()[k - 1], trace[k]);
    }
  }

  lemma Begins()
    ensures Stage(0) == FirstState()
  {}

  lemma NotCovered()
    ensures 4 !in FinalMarks(Stage(12), 0)
  {
    hide Bounded;
    var g, S := Stage(12), {0, 1, 2, 3};
    CoveredBound();
    assert Covers(g, 0, S);
  }

  lemma CoveredBound()
    ensures Bounded(Stage(12), {0, 1, 2, 3})
  {
    hide StrongTo, Points;
    var g, S := Stage(12), {0, 1, 2, 3};
    forall o | o in g.heap ensures BoundedAt(g, S, o) {
      if o == 0 || o == 1 || o == 3 { StageStrong(o); }
    }
  }

  lemma StageStrong(o: Id)
    requires o == 0 || o == 1 || o == 3
    ensures forall r :: StrongTo(Stage(12).heap, o, r) ==> r == 2
  {}

  lemma LastFails()
    ensures Fails(Stage(12), LostScript()[12])
  {
    hide FinalMarks;
    var g := Stage(12);
    assert ValidPath(g, [0]);
    NotCovered();
    assert 2 in g.allweak && !MetaReached(g, 0, 2);
  }

  lemma StillAccessible(g: Global)
    requires Cleared(Stage(12).heap, g.heap) && g.main == 0
    ensures Accessible(g, 2)
  {
    assert BodyCleared(Stage(12).heap[0], g.heap[0]);
    assert g.heap[0] == Main([Obj(2)]);
    assert Obj(2) in g.heap[0].stack;
    assert ValidPath(g, [0, 2]);
  }

  /** The run fails at its last step, and then the program can reach a dead object. */
  method MetatableLost() returns (c: Collector, ghost trace: seq<Global>)
    ensures RunOk(trace, LostScript(), 12) && Fails(trace[12], LostScript()[12])
    ensures !Safe(c.g)
  {
    hide Stage, RunOk, Safe, Fails, StepOk, Told, Outcome, LiveClosed, Cleared;
    var n;
    c, n, trace := Run(LostScript());
    Ends(trace, n);
    AtStage(trace, n, 12);
    LastFails();
    assert Lost(Stage(12), 0, c.g);
    NowUnsafe(c.g);
  }

  lemma Ends(trace: seq<Global>, n: nat)
    requires RunOk(trace, LostScript(), n) && (n < |LostScript()| ==> Fails(trace[n], LostScript()[n]))
    ensures n == 12
  {
    hide Stage, Safe, Fails, Told, Outcome;
    if n < 12 {
      AtStage(trace, n, n);
      NextStage(n);
    }
    if n == 13 {
      AtStage(trace, n, 12);
      assert StepOk(trace[12], LostScript()[12], trace[13]);
      LastFails();
    }
  }

  lemma NowUnsafe(g: Global)
    requires Lost(Stage(12), 0, g)
    ensures !Safe(g)
  {
    hide FinalMarks, Safe, Accessible, LiveClosed, Cleared;
    NotCovered();
    var g0 := Stage(12);
    assert g.main == 0;
    StillAccessible(g);
    assert !MetaReached(g0, 0, 2);
    assert !AccessibleReached(g0, 0, g);
  }
}
