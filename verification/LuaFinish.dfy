/** The final pass over a function's code (`luaK_finish`): jumps to jumps are threaded in place. */
module LuaFinish {

  datatype Op =
    | Jmp(sj: int)
    | Return(a: nat, b: nat, c: nat, k: bool)
    | Return0(a: nat, b: nat)
    | Return1(a: nat, b: nat)
    | TailCall(a: nat, b: nat, c: nat, k: bool)
    | Plain(id: nat)

  /** Every jump leads into the code, and not to itself. */
  predicate Closed(code: seq<Op>) {
    forall i :: 0 <= i < |code| && code[i].Jmp? ==> 0 <= i + 1 + code[i].sj < |code|
  }

  /** Where control goes from `i` without executing anything but a jump. */
  function Hop(code: seq<Op>, i: nat): nat
    requires Closed(code) && i < |code|
    ensures Hop(code, i) < |code|
  {
    if code[i].Jmp? then i + 1 + code[i].sj else i
  }

  function Hops(code: seq<Op>, i: nat, n: nat): nat
    requires Closed(code) && i < |code|
    ensures Hops(code, i, n) < |code|
    decreases n
  {
    if n == 0 then i else Hops(code, Hop(code, i), n - 1)
  }

  /** From `i`, jumps lead to the instruction `t`, which is none. Where this holds for no `t`, control
      never leaves a cycle of jumps. */
  ghost predicate Lands(code: seq<Op>, i: nat, t: nat)
    requires Closed(code) && i < |code|
  {
    exists n: nat :: Hops(code, i, n) == t && !code[t].Jmp?
  }

  lemma {:induction false} HopsStay(code: seq<Op>, i: nat, n: nat)
    requires Closed(code) && i < |code| && !code[i].Jmp?
    ensures Hops(code, i, n) == i
    decreases n
  {
    if n > 0 { HopsStay(code, i, n - 1); }
  }

  lemma {:induction false} HopsAdd(code: seq<Op>, i: nat, m: nat, n: nat)
    requires Closed(code) && i < |code|
    ensures Hops(code, i, m + n) == Hops(code, Hops(code, i, m), n)
    decreases m
  {
    if m > 0 { HopsAdd(code, Hop(code, i), m - 1, n); }
  }

  /** A jump sent directly to a place further along its own path. */
  ghost predicate Threaded(code: seq<Op>, i: nat, m: nat, next: seq<Op>) {
    && Closed(code) && i < |code| && code[i].Jmp? && m > 0 && |next| == |code|
    && next == code[i := Jmp(Hops(code, i, m) - (i + 1))]
  }

  lemma ThreadedClosed(code: seq<Op>, i: nat, m: nat, next: seq<Op>)
    requires Threaded(code, i, m, next)
    ensures Closed(next)
  {}

  lemma {:induction false} LandsForward(code: seq<Op>, i: nat, m: nat, next: seq<Op>, p: nat, t: nat, n: nat)
    requires Threaded(code, i, m, next) && Closed(next) && p < |code| && Hops(code, p, n) == t && !code[t].Jmp?
    ensures Lands(next, p, t)
    decreases n
  {
    if !code[p].Jmp? {
      HopsStay(code, p, n);
      assert Hops(next, p, 0) == p;
    } else if n == 0 {
    } else if p != i {
      LandsForward(code, i, m, next, Hop(code, p), t, n - 1);
      var k: nat :| Hops(next, Hop(code, p), k) == t && !next[t].Jmp?;
      assert Hops(next, p, k + 1) == t;
    } else {
      var j := Hops(code, i, m);
      assert Hop(next, i) == j;
      if m <= n {
        HopsAdd(code, i, m, n - m);
        LandsForward(code, i, m, next, j, t, n - m);
        var k: nat :| Hops(next, j, k) == t && !next[t].Jmp?;
        assert Hops(next, i, k + 1) == t;
      } else {
        HopsAdd(code, i, n, m - n);
        HopsStay(code, t, m - n);
        assert Hops(next, i, 1) == Hops(next, j, 0) == t;
      }
    }
  }

  lemma {:induction false} LandsBack(code: seq<Op>, i: nat, m: nat, next: seq<Op>, p: nat, t: nat, n: nat)
    requires Threaded(code, i, m, next) && Closed(next) && p < |code| && Hops(next, p, n) == t && !next[t].Jmp?
    ensures Lands(code, p, t)
    decreases n
  {
    if n == 0 || !next[p].Jmp? {
      if n > 0 { HopsStay(next, p, n); }
      assert Hops(code, p, 0) == p;
    } else {
      LandsBack(code, i, m, next, Hop(next, p), t, n - 1);
      var k: nat :| Hops(code, Hop(next, p), k) == t && !code[t].Jmp?;
      if p == i {
        HopsAdd(code, i, m, k);
        assert Hops(code, i, m + k) == t;
      } else {
        assert Hops(code, p, k + 1) == t;
      }
    }
  }

  /** Threading one jump keeps, for every place, where control ends up. */
  lemma ThreadedLands(code: seq<Op>, i: nat, m: nat, next: seq<Op>, p: nat, t: nat)
    requires Threaded(code, i, m, next) && Closed(next) && p < |code|
    ensures Lands(next, p, t) <==> Lands(code, p, t)
  {
    if Lands(code, p, t) {
      var n: nat :| Hops(code, p, n) == t && !code[t].Jmp?;
      LandsForward(code, i, m, next, p, t, n);
    }
    if Lands(next, p, t) {
      var n: nat :| Hops(next, p, n) == t && !next[t].Jmp?;
      LandsBack(code, i, m, next, p, t, n);
    }
  }

  /** Control gets from `p` to `t` by jumps alone. */
  ghost predicate Visits(code: seq<Op>, p: nat, t: nat)
    requires Closed(code) && p < |code|
  {
    exists n: nat :: Hops(code, p, n) == t
  }

  /** Threading one jump leads nowhere that control did not get before; so a cycle of jumps is left for no other. */
  lemma {:induction false} ThreadedVisits(code: seq<Op>, i: nat, m: nat, next: seq<Op>, p: nat, n: nat)
    requires Threaded(code, i, m, next) && Closed(next) && p < |code|
    ensures Visits(code, p, Hops(next, p, n))
    decreases n
  {
    if n == 0 {
      assert Hops(code, p, 0) == p;
    } else {
      var q := Hop(next, p);
      ThreadedVisits(code, i, m, next, q, n - 1);
      var k: nat :| Hops(code, q, k) == Hops(next, p, n);
      if p == i {
        HopsAdd(code, i, m, k);
        assert Hops(code, i, m + k) == Hops(next, p, n);
      } else {
        assert Hops(code, p, k + 1) == Hops(next, p, n);
      }
    }
  }

  /** What the pass makes of a return (lcode.c 1799-1812). */
  function Closing(o: Op, needclose: bool, vararg: bool, numparams: nat): Op {
    var p := if (needclose || vararg) && o.Return0? then Return(o.a, o.b, 0, false)
             else if (needclose || vararg) && o.Return1? then Return(o.a, o.b, 0, false) else o;
    if p.Return? then Return(p.a, p.b, if vararg then numparams + 1 else p.c, p.k || needclose)
    else if p.TailCall? then TailCall(p.a, p.b, if vararg then numparams + 1 else p.c, p.k || needclose)
    else p
  }

  /** The same jumps; other instructions may differ. */
  ghost predicate SameJumps(code: seq<Op>, next: seq<Op>) {
    |next| == |code| && forall i :: 0 <= i < |code| ==>
        (code[i].Jmp? <==> next[i].Jmp?) && (code[i].Jmp? ==> next[i] == code[i])
  }

  lemma {:induction false} SameHops(code: seq<Op>, next: seq<Op>, i: nat, n: nat)
    requires Closed(code) && SameJumps(code, next) && Closed(next) && i < |code|
    ensures Hops(next, i, n) == Hops(code, i, n)
    decreases n
  {
    if n > 0 { SameHops(code, next, Hop(code, i), n - 1); }
  }

  lemma SameLands(code: seq<Op>, next: seq<Op>, p: nat, t: nat)
    requires Closed(code) && SameJumps(code, next) && Closed(next) && p < |code|
    ensures Lands(next, p, t) <==> Lands(code, p, t)
  {
    if Lands(code, p, t) {
      var n: nat :| Hops(code, p, n) == t && !code[t].Jmp?;
      SameHops(code, next, p, n);
    }
    if Lands(next, p, t) {
      var n: nat :| Hops(next, p, n) == t && !next[t].Jmp?;
      SameHops(code, next, p, n);
    }
  }

  ghost predicate VisitsKept(code: seq<Op>, next: seq<Op>)
    requires Closed(code) && Closed(next) && |next| == |code|
  {
    forall p: nat, t: nat :: p < |code| && Visits(next, p, t) ==> Visits(code, p, t)
  }

  lemma ThreadedStep(c0: seq<Op>, c: seq<Op>, i: nat, m: nat, next: seq<Op>)
    requires Closed(c0) && Closed(c) && |c| == |c0| && LandsKept(c0, c) && VisitsKept(c0, c)
    requires Threaded(c, i, m, next) && Closed(next)
    ensures LandsKept(c0, next) && VisitsKept(c0, next)
  {
    forall p: nat, t: nat | p < |c| ensures Lands(next, p, t) <==> Lands(c, p, t) {
      ThreadedLands(c, i, m, next, p, t);
    }
    forall p: nat, t: nat | p < |c| && Visits(next, p, t) ensures Visits(c0, p, t) {
      var n: nat :| Hops(next, p, n) == t;
      ThreadedVisits(c, i, m, next, p, n);
      assert Visits(c, p, t);
    }
  }

  lemma ClosingStep(c0: seq<Op>, c: seq<Op>, next: seq<Op>)
    requires Closed(c0) && Closed(c) && |c| == |c0| && LandsKept(c0, c) && VisitsKept(c0, c)
    requires SameJumps(c, next) && Closed(next)
    ensures LandsKept(c0, next) && VisitsKept(c0, next)
  {
    forall p: nat, t: nat | p < |c| ensures Lands(next, p, t) <==> Lands(c, p, t) {
      SameLands(c, next, p, t);
    }
    forall p: nat, t: nat | p < |c| && Visits(next, p, t) ensures Visits(c0, p, t) {
      var n: nat :| Hops(next, p, n) == t;
      SameHops(c, next, p, n);
      assert Visits(c, p, t);
    }
  }

  ghost predicate LandsKept(code: seq<Op>, next: seq<Op>)
    requires Closed(code) && Closed(next) && |next| == |code|
  {
    forall p: nat, t: nat :: p < |code| ==> (Lands(next, p, t) <==> Lands(code, p, t))
  }

  const MAXARG_SJ: int := 0x1FFFFFF
  const OFFSET_SJ: int := 0xFFFFFF

  /** `finaltarget` (lcode.c 1775-1785): follow at most 100 jumps. */
  method FinalTarget(code: array<Op>, i0: nat) returns (i: nat, ghost m: nat)
    requires Closed(code[..]) && i0 < code.Length
    ensures i < code.Length && i == Hops(code[..], i0, m) && (code[i0].Jmp? ==> m > 0)
    ensures !code[i].Jmp? || m == 100
  {
    i, m := i0, 0;
    var count := 0;
    while count < 100
      invariant i < code.Length && i == Hops(code[..], i0, m) && m == count <= 100 && (m == 0 ==> i == i0)
    {
      var pc := code[i];
      if !pc.Jmp? { break; }
      HopsAdd(code[..], i0, m, 1);
      assert Hops(code[..], i, 1) == Hops(code[..], Hop(code[..], i), 0);
      i := i + pc.sj + 1;
      m := m + 1;
      count := count + 1;
    }
  }

  /** `luaK_finish` (lcode.c 1792-1820), for code whose jump offsets all fit (a threaded jump between any
      two instructions fits too unless the code is longer than the operand's range). Jumps already threaded
      are followed when later ones are; control still ends up where it did, and gets to no other places on the way. */
  method Finish(code: array<Op>, needclose: bool, vararg: bool, numparams: nat) returns (tooLong: bool)
    requires Closed(code[..])
    modifies code
    ensures Closed(code[..]) && LandsKept(old(code[..]), code[..]) && VisitsKept(old(code[..]), code[..])
    ensures !tooLong ==> forall i :: 0 <= i < code.Length ==>
      if old(code[i]).Jmp? then code[i].Jmp? else code[i] == Closing(old(code[i]), needclose, vararg, numparams)
    ensures code.Length <= OFFSET_SJ ==> !tooLong
  {
    hide Lands, Visits, Hops;
    var i := 0;
    while i < code.Length
      invariant i <= code.Length && Closed(code[..])
      invariant LandsKept(old(code[..]), code[..]) && VisitsKept(old(code[..]), code[..])
      invariant forall j :: 0 <= j < i ==>
        if old(code[j]).Jmp? then code[j].Jmp? else code[j] == Closing(old(code[j]), needclose, vararg, numparams)
      invariant forall j :: i <= j < code.Length ==> code[j] == old(code[j])
    {
      ghost var c0 := code[..];
      if code[i].Jmp? {
        var target;
        ghost var m;
        target, m := FinalTarget(code, i);
        var offset := target - (i + 1);
        if !(-OFFSET_SJ <= offset <= MAXARG_SJ - OFFSET_SJ) { return true; }  // control structure too long
        code[i] := Jmp(offset);
        assert Threaded(c0, i, m, code[..]);
        ThreadedClosed(c0, i, m, code[..]);
        ThreadedStep(old(code[..]), c0, i, m, code[..]);
      } else {
        code[i] := Closing(code[i], needclose, vararg, numparams);
        assert SameJumps(c0, code[..]);
        ClosingStep(old(code[..]), c0, code[..]);
      }
      i := i + 1;
    }
    return false;
  }
}
