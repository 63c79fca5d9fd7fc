/** Open upvalues: the sorted list through which closures share the variables of a running function, and what becomes
    of them when the variables go out of scope. */
module LuaUpvalues {

  /** An upvalue is open, its value in a stack slot, or closed, its value its own. */
  datatype Upval<V> = Open(level: nat) | Closed(value: V)

  /** A thread's stack, its list of open upvalues, and all upvalues by number. */
  datatype Thread<V> = Thread(stack: seq<V>, open: seq<nat>, ups: seq<Upval<V>>)

  ghost predicate LevelOk<V>(th: Thread<V>, i: nat)
    requires i < |th.open|
  {
    th.open[i] < |th.ups| && th.ups[th.open[i]].Open? && th.ups[th.open[i]].level < |th.stack|
  }

  /** Level of the i-th open upvalue. */
  function Level<V>(th: Thread<V>, i: nat): nat
    requires i < |th.open| && LevelOk(th, i)
  {
    th.ups[th.open[i]].level
  }

  /** The list holds exactly the open upvalues, strictly decreasing by level: at most one for each slot. */
  ghost predicate Sorted<V>(th: Thread<V>) {
    && (forall i :: 0 <= i < |th.open| ==> LevelOk(th, i))
    && (forall i, j :: 0 <= i < j < |th.open| ==> Level(th, i) > Level(th, j))
    && (forall u :: 0 <= u < |th.ups| && th.ups[u].Open? ==> u in th.open)
  }

  /** What reading the upvalue gives. */
  function Value<V>(th: Thread<V>, u: nat): V
    requires u < |th.ups| && (th.ups[u].Open? ==> th.ups[u].level < |th.stack|)
  {
    match th.ups[u]
    case Open(level) => th.stack[level]
    case Closed(value) => value
  }

  lemma OneEach<V>(th: Thread<V>, u: nat, w: nat)
    requires Sorted(th) && u < |th.ups| && w < |th.ups| && th.ups[u].Open? && th.ups[u] == th.ups[w]
    ensures u == w
  {
    var i :| 0 <= i < |th.open| && th.open[i] == u;
    var j :| 0 <= j < |th.open| && th.open[j] == w;
    assert Level(th, i) == Level(th, j);
  }

  /** The upvalue of a slot: the one it has, or a new one. */
  ghost predicate IsFound<V>(th: Thread<V>, level: nat, th1: Thread<V>, u: nat) {
    && Sorted(th1) && th1.stack == th.stack && u < |th1.ups| && th1.ups[u] == Open(level)
    && (th1 == th || (u == |th.ups| && th1.ups == th.ups + [Open(level)]
                      && forall w :: 0 <= w < |th.ups| ==> th.ups[w] != Open(level)))
  }

  /** The upvalues from a level on are closed: they keep their values, the others their places. */
  ghost predicate IsClosed<V>(th: Thread<V>, level: nat, th1: Thread<V>) {
    && Sorted(th1) && th1.stack == th.stack && |th1.ups| == |th.ups|
    && forall u :: 0 <= u < |th.ups| ==> UpClosed(th, level, th1, u)
  }

  ghost predicate UpClosed<V>(th: Thread<V>, level: nat, th1: Thread<V>, u: nat)
    requires u < |th.ups| == |th1.ups|
  {
    if th.ups[u].Open? && th.ups[u].level >= level then
      th.ups[u].level < |th.stack| && th1.ups[u] == Closed(th.stack[th.ups[u].level])
    else th1.ups[u] == th.ups[u]
  }

  /** On the way there: some are closed already. */
  ghost predicate IsClosing<V>(th: Thread<V>, level: nat, th1: Thread<V>) {
    && Sorted(th1) && th1.stack == th.stack && |th1.ups| == |th.ups|
    && forall u :: 0 <= u < |th.ups| ==>
        th1.ups[u] == th.ups[u] || (th.ups[u].Open? && th.ups[u].level >= level && UpClosed(th, level, th1, u))
  }

  class State<V> {
    var th: Thread<V>

    constructor ()
      ensures th == Thread([], [], []) && Sorted(th)
    {
      th := Thread([], [], []);
    }

    /** `luaF_findupval` and `newupval` (lfunc.c 65-100). */
    method FindUpval(level: nat) returns (u: nat)
      requires Sorted(th) && level < |th.stack|
      modifies this
      ensures IsFound(old(th), level, th, u)
    {
      var i := 0;
      while i < |th.open| && Level(th, i) >= level
        invariant i <= |th.open| && th == old(th) && forall k :: 0 <= k < i ==> Level(th, k) > level
      {
        if Level(th, i) == level { return th.open[i]; }
        i := i + 1;
      }
      u := |th.ups|;
      NoneThere(th, level, i);
      th := th.(open := th.open[..i] + [u] + th.open[i..], ups := th.ups + [Open(level)]);
      Linked(old(th), level, i);
    }

    /** `luaF_unlinkupval` (lfunc.c 215-220) of the first upvalue, whose value moves into it (lfunc.c 234-236). */
    method CloseFirst()
      requires Sorted(th) && th.open != []
      modifies this
      ensures var u := old(th).open[0]; u < |old(th).ups| && old(th).ups[u].Open?
                                                          && IsClosed(old(th), old(th).ups[u].level, th)
      ensures th.open == old(th).open[1..]
    {
      var u := th.open[0];
      assert LevelOk(th, 0);
      th := th.(open := th.open[1..], ups := th.ups[u := Closed(th.stack[th.ups[u].level])]);
      Unlinked(old(th));
    }

    /** `luaF_close` (lfunc.c 223-242), to-be-closed variables aside. */
    method Close(level: nat)
      requires Sorted(th)
      modifies this
      ensures IsClosed(old(th), level, th)
      ensures forall u :: 0 <= u < |th.ups| && th.ups[u].Open? ==> th.ups[u].level < level
    {
      while th.open != [] && Level(th, 0) >= level
        invariant IsClosing(old(th), level, th)
        decreases |th.open|
      {
        ghost var before := th;
        CloseFirst();
        ClosedMore(old(th), level, before, th);
      }
      NoneLeft(th, level);
    }
  }

  lemma NoneThere<V>(th: Thread<V>, level: nat, i: nat)
    requires Sorted(th) && i <= |th.open| && (i < |th.open| ==> Level(th, i) < level)
          && forall k :: 0 <= k < i ==> Level(th, k) > level
    ensures forall w :: 0 <= w < |th.ups| ==> th.ups[w] != Open(level)
  {
    forall w | 0 <= w < |th.ups| ensures th.ups[w] != Open(level) {
      if th.ups[w].Open? {
        var k :| 0 <= k < |th.open| && th.open[k] == w;
        assert LevelOk(th, k);
        assert k > i ==> Level(th, i) > Level(th, k);
        assert k < i ==> Level(th, k) > level;
      }
    }
  }

  lemma Linked<V>(th: Thread<V>, level: nat, i: nat)
    requires Sorted(th) && level < |th.stack| && i <= |th.open|
    requires (i < |th.open| ==> Level(th, i) < level) && forall k :: 0 <= k < i ==> Level(th, k) > level
    ensures Sorted(th.(open := th.open[..i] + [|th.ups|] + th.open[i..], ups := th.ups + [Open(level)]))
  {
    var th1 := th.(open := th.open[..i] + [|th.ups|] + th.open[i..], ups := th.ups + [Open(level)]);
    forall k | 0 <= k < |th1.open| ensures LevelOk(th1, k)
      && (if k < i then Level(th1, k) > level else if k > i then Level(th1, k) < level else Level(th1, k) == level) {
      LinkedAt(th, level, i, k);
    }
    forall j, k | 0 <= j < k < |th1.open| ensures Level(th1, j) > Level(th1, k) {
      LinkedAt(th, level, i, j);
      LinkedAt(th, level, i, k);
      if k < i { assert Level(th, j) > Level(th, k); }
      else if j > i { assert Level(th, j - 1) > Level(th, k - 1); }
    }
    LinkedAll(th, level, i);
  }

  /** An entry of the longer list. */
  lemma LinkedAt<V>(th: Thread<V>, level: nat, i: nat, k: nat)
    requires Sorted(th) && level < |th.stack| && i <= |th.open| && k <= |th.open|
    requires (i < |th.open| ==> Level(th, i) < level) && forall j :: 0 <= j < i ==> Level(th, j) > level
    ensures var th1 := th.(open := th.open[..i] + [|th.ups|] + th.open[i..], ups := th.ups + [Open(level)]);
            && LevelOk(th1, k)
            && (k < i ==> LevelOk(th, k) && Level(th1, k) == Level(th, k) > level)
            && (k == i ==> Level(th1, k) == level)
            && (k > i ==> LevelOk(th, k - 1) && Level(th1, k) == Level(th, k - 1) < level)
  {
    var th1 := th.(open := th.open[..i] + [|th.ups|] + th.open[i..], ups := th.ups + [Open(level)]);
    if k < i {
      assert LevelOk(th, k) && th1.open[k] == th.open[k];
    } else if k > i {
      assert LevelOk(th, k - 1) && th1.open[k] == th.open[k - 1];
      assert k - 1 > i ==> Level(th, i) > Level(th, k - 1);
    }
  }

  lemma LinkedAll<V>(th: Thread<V>, level: nat, i: nat)
    requires Sorted(th) && i <= |th.open|
    ensures var th1 := th.(open := th.open[..i] + [|th.ups|] + th.open[i..], ups := th.ups + [Open(level)]);
            forall u :: 0 <= u < |th1.ups| && th1.ups[u].Open? ==> u in th1.open
  {
    var th1 := th.(open := th.open[..i] + [|th.ups|] + th.open[i..], ups := th.ups + [Open(level)]);
    forall u | 0 <= u < |th1.ups| && th1.ups[u].Open? ensures u in th1.open {
      if u < |th.ups| {
        assert u in th.open[..i] + th.open[i..] by { assert th.open[..i] + th.open[i..] == th.open; }
      } else {
        assert th1.open[i] == u;
      }
    }
  }

  lemma Unlinked<V>(th: Thread<V>)
    requires Sorted(th) && th.open != [] && LevelOk(th, 0)
    ensures var u := th.open[0]; var th1 := th.(open := th.open[1..],
                                                ups := th.ups[u := Closed(th.stack[th.ups[u].level])]);
            IsClosed(th, th.ups[u].level, th1)
  {
    var u := th.open[0];
    var th1 := th.(open := th.open[1..], ups := th.ups[u := Closed(th.stack[th.ups[u].level])]);
    forall k | 0 <= k < |th1.open| ensures LevelOk(th1, k) && th1.open[k] != u && Level(th1, k) == Level(th, k + 1) {
      assert LevelOk(th, k + 1) && Level(th, 0) > Level(th, k + 1);
    }
    forall w | 0 <= w < |th1.ups| && th1.ups[w].Open? ensures w in th1.open {
      assert w in th.open && w != u;
    }
    forall w | 0 <= w < |th.ups| ensures UpClosed(th, th.ups[u].level, th1, w) {
      if w != u && th.ups[w].Open? {
        var k :| 0 <= k < |th.open| && th.open[k] == w;
        assert Level(th, 0) > Level(th, k);
      }
    }
  }

  lemma ClosedMore<V>(th: Thread<V>, level: nat, a: Thread<V>, b: Thread<V>)
    requires Sorted(th) && IsClosing(th, level, a) && a.open != [] && LevelOk(a, 0) && Level(a, 0) >= level
          && IsClosed(a, Level(a, 0), b)
    ensures IsClosing(th, level, b)
  {
    forall u | 0 <= u < |th.ups|
      ensures b.ups[u] == th.ups[u] || (th.ups[u].Open? && th.ups[u].level >= level && UpClosed(th, level, b, u))
    {
      assert UpClosed(a, Level(a, 0), b, u);
    }
  }

  lemma NoneLeft<V>(th: Thread<V>, level: nat)
    requires Sorted(th) && (th.open != [] ==> Level(th, 0) < level)
    ensures forall u :: 0 <= u < |th.ups| && th.ups[u].Open? ==> th.ups[u].level < level
  {
    forall u | 0 <= u < |th.ups| && th.ups[u].Open? ensures th.ups[u].level < level {
      var k :| 0 <= k < |th.open| && th.open[k] == u;
      assert k > 0 ==> Level(th, 0) > Level(th, k);
    }
  }

  // ---------------------------------------------------------------- shared variables

  /** What programs do to their variables: a new local variable; leaving a block with only `keep` variables left;
      an assignment; a closure capturing a variable; an assignment through the k-th capture. */
  datatype Op<V> = Declare(v: V) | Leave(keep: nat) | Assign(slot: nat, v: V) | Capture(slot: nat) | Through(k: nat,
          v: V)

  /** The meaning (Lua 5.4 manual, section 3.5): every variable has a cell of its own, for ever. `env` gives the cells
      of the local variables in scope, `caps` those captured so far. */
  datatype Cells<V> = Cells(store: seq<V>, env: seq<nat>, caps: seq<nat>)

  ghost predicate CellsOk<V>(r: Cells<V>) {
    && (forall i :: 0 <= i < |r.env| ==> r.env[i] < |r.store|)
    && (forall k :: 0 <= k < |r.caps| ==> r.caps[k] < |r.store|)
    && (forall i, j :: 0 <= i < j < |r.env| ==> r.env[i] != r.env[j])
  }

  function Mean<V>(r: Cells<V>, op: Op<V>): Cells<V>
    requires CellsOk(r)
  {
    match op
    case Declare(v) => Cells(r.store + [v], r.env + [|r.store|], r.caps)
    case Leave(keep) => if keep <= |r.env| then r.(env := r.env[..keep]) else r
    case Assign(slot, v) => if slot < |r.env| then r.(store := r.store[r.env[slot] := v]) else r
    case Capture(slot) => if slot < |r.env| then r.(caps := r.caps + [r.env[slot]]) else r
    case Through(k, v) => if k < |r.caps| then r.(store := r.store[r.caps[k] := v]) else r
  }

  /** The thread with the upvalues captured so far stands for the cells. */
  ghost predicate Stands<V>(th: Thread<V>, caps: seq<nat>, r: Cells<V>) {
    && Sorted(th) && CellsOk(r) && |th.stack| == |r.env| && |caps| == |r.caps|
    && (forall i :: 0 <= i < |r.env| ==> th.stack[i] == r.store[r.env[i]])
    && (forall k :: 0 <= k < |caps| ==> CapOk(th, caps[k], r, k))
    && (forall j, k :: 0 <= j < |caps| && 0 <= k < |caps| ==> (caps[j] == caps[k] <==> r.caps[j] == r.caps[k]))
  }

  /** An open upvalue is that of the slot whose cell was captured; the cell of a closed one is out of scope. */
  ghost predicate CapOk<V>(th: Thread<V>, u: nat, r: Cells<V>, k: nat)
    requires k < |r.caps| && CellsOk(r) && |th.stack| == |r.env|
  {
    && u < |th.ups|
    && (th.ups[u].Open? ==> th.ups[u].level < |r.env| && r.env[th.ups[u].level] == r.caps[k])
    && (th.ups[u].Closed? ==> th.ups[u].value == r.store[r.caps[k]] && r.caps[k] !in r.env)
  }

  /** Every capture reads what its cell holds. */
  lemma CapReads<V>(th: Thread<V>, caps: seq<nat>, r: Cells<V>, k: nat)
    requires Stands(th, caps, r) && k < |caps|
    ensures caps[k] < |th.ups| && (th.ups[caps[k]].Open? ==> th.ups[caps[k]].level < |th.stack|)
    ensures Value(th, caps[k]) == r.store[r.caps[k]]
  {
    assert CapOk(th, caps[k], r, k);
  }

  lemma DeclareStands<V>(th: Thread<V>, caps: seq<nat>, r: Cells<V>, v: V)
    requires Stands(th, caps, r)
    ensures Stands(th.(stack := th.stack + [v]), caps, Mean(r, Declare(v)))
  {
    var th1, r1 := th.(stack := th.stack + [v]), Mean(r, Declare(v));
    SortedLevels(th);
    SortedIn(th, th1);
    forall k | 0 <= k < |caps| ensures CapOk(th1, caps[k], r1, k) { assert CapOk(th, caps[k], r, k); }
  }

  lemma SortedIn<V>(th: Thread<V>, th1: Thread<V>)
    requires Sorted(th) && th1.open == th.open && th1.ups == th.ups
    requires forall u :: 0 <= u < |th.ups| && th.ups[u].Open? ==> th.ups[u].level < |th1.stack|
    ensures Sorted(th1)
  {
    forall i | 0 <= i < |th1.open| ensures LevelOk(th1, i) && Level(th1, i) == Level(th, i) { assert LevelOk(th, i); }
  }

  /** Leaving a block closes its upvalues, which go on reading the same. */
  lemma LeaveStands<V>(th: Thread<V>, caps: seq<nat>, r: Cells<V>, keep: nat, th1: Thread<V>)
    requires Stands(th, caps, r) && keep <= |th.stack| && IsClosed(th, keep, th1)
    requires forall u :: 0 <= u < |th1.ups| && th1.ups[u].Open? ==> th1.ups[u].level < keep
    ensures Stands(th1.(stack := th1.stack[..keep]), caps, Mean(r, Leave(keep)))
  {
    var th2, r1 := th1.(stack := th1.stack[..keep]), Mean(r, Leave(keep));
    SortedIn(th1, th2);
    forall k | 0 <= k < |caps| ensures CapOk(th2, caps[k], r1, k) {
      assert CapOk(th, caps[k], r, k) && UpClosed(th, keep, th1, caps[k]);
    }
  }

  lemma AssignStands<V>(th: Thread<V>, caps: seq<nat>, r: Cells<V>, slot: nat, v: V)
    requires Stands(th, caps, r) && slot < |th.stack|
    ensures Stands(th.(stack := th.stack[slot := v]), caps, Mean(r, Assign(slot, v)))
  {
    var th1, r1 := th.(stack := th.stack[slot := v]), Mean(r, Assign(slot, v));
    SortedLevels(th);
    SortedIn(th, th1);
    forall k | 0 <= k < |caps| ensures CapOk(th1, caps[k], r1, k) { assert CapOk(th, caps[k], r, k); }
  }

  lemma SortedLevels<V>(th: Thread<V>)
    requires Sorted(th)
    ensures forall u :: 0 <= u < |th.ups| && th.ups[u].Open? ==> th.ups[u].level < |th.stack|
  {
    forall u | 0 <= u < |th.ups| && th.ups[u].Open? ensures th.ups[u].level < |th.stack| {
      var k :| 0 <= k < |th.open| && th.open[k] == u;
      assert LevelOk(th, k);
    }
  }

  /** Closures that capture the same variable while it is in scope share its upvalue. */
  lemma CaptureStands<V>(th: Thread<V>, caps: seq<nat>, r: Cells<V>, slot: nat, th1: Thread<V>, u: nat)
    requires Stands(th, caps, r) && slot < |th.stack| && IsFound(th, slot, th1, u)
    ensures Stands(th1, caps + [u], Mean(r, Capture(slot)))
  {
    var r1, caps1 := Mean(r, Capture(slot)), caps + [u];
    forall k | 0 <= k < |caps1| ensures CapOk(th1, caps1[k], r1, k) {
      if k < |caps| { assert CapOk(th, caps[k], r, k); }
    }
    forall k | 0 <= k < |caps| ensures caps[k] == u <==> r.caps[k] == r.env[slot] {
      assert CapOk(th, caps[k], r, k);
      if r.caps[k] == r.env[slot] { OneEach(th1, caps[k], u); }
    }
  }

  /** Writing through a capture: into the slot, or into the closed upvalue. */
  function Written<V>(th: Thread<V>, u: nat, v: V): Thread<V>
    requires u < |th.ups| && (th.ups[u].Open? ==> th.ups[u].level < |th.stack|)
  {
    match th.ups[u]
    case Open(level) => th.(stack := th.stack[level := v])
    case Closed(_) => th.(ups := th.ups[u := Closed(v)])
  }

  lemma ThroughStands<V>(th: Thread<V>, caps: seq<nat>, r: Cells<V>, k: nat, v: V)
    requires Stands(th, caps, r) && k < |caps|
    ensures caps[k] < |th.ups| && (th.ups[caps[k]].Open? ==> th.ups[caps[k]].level < |th.stack|)
    ensures Stands(Written(th, caps[k], v), caps, Mean(r, Through(k, v)))
  {
    assert CapOk(th, caps[k], r, k);
    var u := caps[k];
    if th.ups[u].Open? {
      AssignStands(th, caps, r, th.ups[u].level, v);
    } else {
      var th1, r1 := Written(th, u, v), Mean(r, Through(k, v));
      forall i | 0 <= i < |th1.open| ensures LevelOk(th1, i) && Level(th1, i) == Level(th, i) { assert LevelOk(th, i); }
      forall j | 0 <= j < |caps| ensures CapOk(th1, caps[j], r1, j) { assert CapOk(th, caps[j], r, j); }
    }
  }

  function Meaning<V>(ops: seq<Op<V>>): (r: Cells<V>)
    ensures CellsOk(r)
  {
    if ops == [] then Cells([], [], []) else
    var r := Meaning(ops[..|ops| - 1]);
    MeanOk(r, ops[|ops| - 1]);
    Mean(r, ops[|ops| - 1])
  }

  lemma MeanOk<V>(r: Cells<V>, op: Op<V>)
    requires CellsOk(r)
    ensures CellsOk(Mean(r, op))
  {
  }

  /** One operation of the program on the thread; `caps` are the upvalues of the captures. */
  method Do<V>(l: State<V>, op: Op<V>, caps: seq<nat>, ghost r: Cells<V>) returns (caps1: seq<nat>)
    requires Stands(l.th, caps, r)
    modifies l
    ensures Stands(l.th, caps1, Mean(r, op))
  {
    hide Stands, Mean, IsFound, IsClosed, Written;
    Sizes(l.th, caps, r);
    caps1 := caps;
    if op.Declare? {
      DeclareStands(l.th, caps, r, op.v);
      l.th := l.th.(stack := l.th.stack + [op.v]);
    } else if op.Leave? {
      if op.keep <= |l.th.stack| {
        ghost var th := l.th;
        l.Close(op.keep);
        LeaveStands(th, caps, r, op.keep, l.th);
        SameStack(th, op.keep, l.th);
        l.th := l.th.(stack := l.th.stack[..op.keep]);
      } else {
        Idle(l.th, caps, r, op);
      }
    } else if op.Assign? {
      if op.slot < |l.th.stack| {
        AssignStands(l.th, caps, r, op.slot, op.v);
        l.th := l.th.(stack := l.th.stack[op.slot := op.v]);
      } else {
        Idle(l.th, caps, r, op);
      }
    } else if op.Capture? {
      if op.slot < |l.th.stack| {
        ghost var th := l.th;
        var u := l.FindUpval(op.slot);
        CaptureStands(th, caps, r, op.slot, l.th, u);
        caps1 := caps + [u];
      } else {
        Idle(l.th, caps, r, op);
      }
    } else if op.k < |caps| {
      ThroughStands(l.th, caps, r, op.k, op.v);
      l.th := Written(l.th, caps[op.k], op.v);
    } else {
      Idle(l.th, caps, r, op);
    }
  }

  lemma Sizes<V>(th: Thread<V>, caps: seq<nat>, r: Cells<V>)
    requires Stands(th, caps, r)
    ensures Sorted(th) && CellsOk(r)
  {
  }

  lemma SameStack<V>(th: Thread<V>, level: nat, th1: Thread<V>)
    requires IsClosed(th, level, th1)
    ensures th1.stack == th.stack
  {
  }

  /** An operation on a variable that is not there does nothing. */
  lemma Idle<V>(th: Thread<V>, caps: seq<nat>, r: Cells<V>, op: Op<V>)
    requires Stands(th, caps, r)
    requires match op { case Declare(_) => false case Leave(n) => n > |th.stack| case Assign(s, _) => s >= |th.stack|
                        case Capture(s) => s >= |th.stack| case Through(k, _) => k >= |caps| }
    ensures Mean(r, op) == r
  {
  }

  /** Every program: the thread and its upvalues always stand for the cells, so that every capture reads what its
      variable holds, in scope or not, and two captures share an upvalue exactly if they captured one variable. */
  method Run<V>(ops: seq<Op<V>>) returns (l: State<V>, caps: seq<nat>)
    ensures Stands(l.th, caps, Meaning(ops))
  {
    l := new State<V>();
    caps := [];
    var i := 0;
    assert ops[..0] == [];
    while i < |ops|
      invariant i <= |ops| && Stands(l.th, caps, Meaning(ops[..i])) && fresh(l)
    {
      assert ops[..i + 1][..i] == ops[..i];
      caps := Do(l, ops[i], caps, Meaning(ops[..i]));
      i := i + 1;
    }
    assert ops[..i] == ops;
  }
}
