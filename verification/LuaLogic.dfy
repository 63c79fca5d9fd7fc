/** What the operations of the code generator on logical expressions do to the meaning of code. */
module LuaLogic {
  import opened LuaVm
  import opened LuaExp
  import opened LuaPatch
  import opened LuaPlace

  /** The code falls through exactly when the value's truth is `cst`; other values leave by the lists. */
  ghost predicate SplitAt(p: Prog, ts: seq<nat>, fl: seq<nat>, cst: bool, c: Ctx, R: Regs) {
    if !c.pre(R).Fell? then Outside(c, R, Run(p, 0, R))
    else
      var x := Run(p, 0, R);
      && !x.Stuck? && Keep(c.pre(R).R, x.R, c.base)
      && if x.Fell? then Truthy(c.v(R)) == cst else Outs(p.code, ts, fl, c.v(R), x)
  }

  ghost predicate Split(p: Prog, ts: seq<nat>, fl: seq<nat>, cst: bool, c: Ctx) {
    forall R: Regs :: SplitAt(p, ts, fl, cst, c, R)
  }

  // ---------------------------------------------------------------- closing an expression

  ghost predicate SetsAgree(c0: seq<Instr>, c1: seq<Instr>, js: seq<nat>) {
    forall j :: j in js ==> IsSet(c1, j) == IsSet(c0, j)
  }

  /** The jumps of one list are patched so that they reach the end with the value in `reg`. */
  lemma ValuePatched(p: Prog, q: Prog, ts: seq<nat>, fl: seq<nat>, isT: bool, reg: nat, dt: int, c: Ctx)
    requires Denotes(p, VNonReloc(reg), 0, ts, fl, c) && NoDup(ts + fl) && c.base <= reg < 255 && |q.code| == |p.code|
    requires c.outer !! Elems(ts) && c.outer !! Elems(fl)
    requires Redirected(p, if isT then ts else fl, |p.code|, reg, dt, q)
          && SetsAgree(p.code, q.code, if isT then fl else ts)
    requires (exists j :: j in (if isT then ts else fl) && !IsSet(p.code, j)) ==> Loads(q, dt, reg, isT)
    ensures Denotes(q, VNonReloc(reg), 0, if isT then [] else ts, if isT then fl else [], c)
  {
    var ts1, fl1 := if isT then [] else ts, if isT then fl else [];
    forall R: Regs ensures DenotesAt(q, VNonReloc(reg), 0, ts1, fl1, c, R) {
      ValuePatchedAt(p, q, ts, fl, isT, reg, dt, c, R);
    }
  }

  /** From `dt` on, the code puts a boolean into `reg` and ends. */
  ghost predicate Loads(q: Prog, dt: int, reg: nat, b: bool) {
    dt >= 0 && forall R1: Regs :: Run(q, dt, R1) == Fell(Set(R1, reg, Bool(b)))
  }

  lemma ValuePatchedAt(p: Prog, q: Prog, ts: seq<nat>, fl: seq<nat>, isT: bool, reg: nat, dt: int, c: Ctx, R: Regs)
    requires DenotesAt(p, VNonReloc(reg), 0, ts, fl, c, R) && NoDup(ts + fl) && c.base <= reg < 255
          && |q.code| == |p.code|
    requires c.outer !! Elems(ts) && c.outer !! Elems(fl)
    requires Run(q, 0, R) == Redirect(p.code, if isT then ts else fl, |p.code|, reg, dt, q, Run(p, 0, R))
          && SetsAgree(p.code, q.code, if isT then fl else ts)
    requires (exists j :: j in (if isT then ts else fl) && !IsSet(p.code, j)) ==> Loads(q, dt, reg, isT)
    ensures DenotesAt(q, VNonReloc(reg), 0, if isT then [] else ts, if isT then fl else [], c, R)
  {
    var js := if isT then ts else fl;
    var x := Run(p, 0, R);
    if x.At? && x.j in js {
      assert x.j in Elems(js);
      Apart(ts, fl, x.j);
      if IsSet(p.code, x.j) {
        assert Run(q, |p.code|, Settle(p.code, x, reg)) == Fell(Settle(p.code, x, reg));
      }
    }
  }

  lemma Twice(js: seq<nat>, a: nat, b: nat)
    requires a < b < |js| && js[a] == js[b]
    ensures !NoDup(js)
  {}

  lemma Apart(ts: seq<nat>, fl: seq<nat>, j: nat)
    requires NoDup(ts + fl)
    ensures !(j in ts && j in fl)
  {
    if j in ts && j in fl {
      var a :| 0 <= a < |ts| && ts[a] == j;
      var b :| 0 <= b < |fl| && fl[b] == j;
      Twice(ts + fl, a, |ts| + b);
    }
  }

  /** The loads stay where they are while jumps before them are patched. */
  lemma LoadsStay(p: Prog, q: Prog, label0: nat, js: seq<nat>, dt: nat, reg: nat, b: bool)
    requires CodeOk(p, label0) && Loads(p, dt, reg, b) && OnlyPatched(p.code, q.code, js)
          && (forall j :: j in js ==> j < dt)
    requires q.k == p.k && q.ord == p.ord && q.pend == p.pend - Elems(js) && dt <= |p.code|
    ensures Loads(q, dt, reg, b)
  {
    forall R1: Regs ensures Run(q, dt, R1) == Fell(Set(R1, reg, Bool(b))) {
      RunFrom(p, q, label0, dt, R1);
    }
  }

  lemma LoadsHere(q: Prog, n: nat, reg: nat)
    requires |q.code| == n + 2 && q.code[n] == LoadFalse(reg, true) && q.code[n + 1] == LoadTrue(reg)
    ensures Loads(q, n, reg, false) && Loads(q, n + 1, reg, true)
  {
    forall R1: Regs ensures Run(q, n, R1) == Fell(Set(R1, reg, Bool(false)))
      && Run(q, n + 1, R1) == Fell(Set(R1, reg, Bool(true))) {
      assert Next(q, n, R1) == Go(n + 2, Set(R1, reg, Bool(false)));
      assert Next(q, n + 1, R1) == Go(n + 2, Set(R1, reg, Bool(true)));
    }
  }

  /** A comparison whose jump is in the true list falls through into the load of false. */
  lemma TestLoads(p: Prog, label0: nat, reg: nat, ts: seq<nat>, fl: seq<nat>, c: Ctx)
    requires CodeOk(p, label0) && Denotes(p, VFalse, 0, ts, fl, c) && c.base <= reg < 255
    ensures var n := |p.code|;
      var q := p.(code := p.code + [LoadFalse(reg, true), LoadTrue(reg)]);
      && CodeOk(q, n + 2) && SetsKept(p, q) && Denotes(q, VNonReloc(reg), 0, ts, fl, c)
      && Loads(q, n, reg, false) && Loads(q, n + 1, reg, true)
  {
    hide CodeOk, Loads, SetsKept;
    var n := |p.code|;
    var q := p.(code := p.code + [LoadFalse(reg, true), LoadTrue(reg)]);
    LoadsCode(p, label0, [LoadFalse(reg, true), LoadTrue(reg)], reg, p.pend);
    LoadsHere(q, n, reg);
    forall R: Regs ensures DenotesAt(q, VNonReloc(reg), 0, ts, fl, c, R) {
      TestLoadsAt(p, q, label0, reg, ts, fl, c, R);
    }
  }

  lemma TestLoadsAt(p: Prog, q: Prog, label0: nat, reg: nat, ts: seq<nat>, fl: seq<nat>, c: Ctx, R: Regs)
    requires CodeOk(p, label0) && DenotesAt(p, VFalse, 0, ts, fl, c, R) && c.base <= reg < 255
    requires Extends(p, q) && SetsKept(p, q) && Loads(q, |p.code|, reg, false)
    ensures DenotesAt(q, VNonReloc(reg), 0, ts, fl, c, R)
  {
    hide Run, CodeOk;
    ExtendsRun(p, q, label0, R);
    RunOk(p, label0, 0, R);
  }

  lemma LoadsCode(p: Prog, label0: nat, more: seq<Instr>, reg: nat, pend: set<nat>)
    requires CodeOk(p, label0)
    requires (more == [LoadFalse(reg, true), LoadTrue(reg)] && pend == p.pend)
          || (more == [Jmp(NO_JUMP), LoadFalse(reg, true), LoadTrue(reg)] && pend == p.pend + {|p.code|})
    ensures var q := p.(code := p.code + more, pend := pend); CodeOk(q, |q.code|) && SetsKept(p, q) && Extends(p, q)
  {
    var q := p.(code := p.code + more, pend := pend);
    assert q.code[..|p.code|] == p.code;
    ExtendsSets(p, q);
    assert forall i :: 0 <= i < |more| ==> q.code[|p.code| + i] == more[i];
    ExtendOk(p, q, label0, |q.code|);
  }

  ghost predicate Skips(p: Prog, q0: Prog, q: Prog, reg: nat) {
    var n := |p.code|;
    && q0 == p.(code := p.code + [Jmp(NO_JUMP), LoadFalse(reg, true), LoadTrue(reg)], pend := p.pend + {n})
    && Redirected(q0, [n], n + 3, NO_REG, n + 3, q) && OnlyPatched(q0.code, q.code, [n]) && AllJumps(q.code, [n])
  }

  /** Other expressions jump around the two loads. */
  lemma SkipLoads(p: Prog, q0: Prog, q: Prog, label0: nat, reg: nat, ts: seq<nat>, fl: seq<nat>, c: Ctx)
    requires CodeOk(p, label0) && Denotes(p, VNonReloc(reg), 0, ts, fl, c) && Skips(p, q0, q, reg)
    requires AllJumps(p.code, ts) && AllJumps(p.code, fl)
    ensures var n := |p.code|; Denotes(q, VNonReloc(reg), 0, ts, fl, c) && Loads(q, n + 1, reg, false)
                               && Loads(q, n + 2, reg, true)
    ensures SetsAgree(p.code, q.code, ts) && SetsAgree(p.code, q.code, fl)
  {
    hide CodeOk, Redirected, Loads, AllJumps, SetsAgree;
    var n := |p.code|;
    LoadsCode(p, label0, [Jmp(NO_JUMP), LoadFalse(reg, true), LoadTrue(reg)], reg, p.pend + {n});
    SkipCode(p, q0, q, reg);
    LoadsHere(q, n + 1, reg);
    SkipSets(p, q0, q, reg, ts);
    SkipSets(p, q0, q, reg, fl);
    forall R: Regs ensures DenotesAt(q, VNonReloc(reg), 0, ts, fl, c, R) {
      SkipRun(p, q0, q, label0, reg, R);
      SkipLoadsAt(p, q, reg, ts, fl, c, R);
    }
  }

  lemma SkipCode(p: Prog, q0: Prog, q: Prog, reg: nat)
    requires Skips(p, q0, q, reg)
    ensures var n := |p.code|; |q.code| == n + 3 && q.code[n + 1] == LoadFalse(reg, true)
                                        && q.code[n + 2] == LoadTrue(reg)
  {
    var n := |p.code|;
    assert q0.code[n] == Jmp(NO_JUMP) && q0.code[n + 1] == LoadFalse(reg, true) && q0.code[n + 2] == LoadTrue(reg);
    assert q.code[n + 1] == q0.code[n + 1] && q.code[n + 2] == q0.code[n + 2];
  }

  lemma SkipSets(p: Prog, q0: Prog, q: Prog, reg: nat, js: seq<nat>)
    requires Skips(p, q0, q, reg) && AllJumps(p.code, js)
    ensures SetsAgree(p.code, q.code, js)
  {
    hide Redirected;
    forall j | j in js ensures IsSet(q.code, j) == IsSet(p.code, j) {
      if j >= 1 {
        assert q0.code[j - 1] == p.code[j - 1];
        assert q.code[j - 1] == q0.code[j - 1];
      }
    }
  }

  lemma SkipRun(p: Prog, q0: Prog, q: Prog, label0: nat, reg: nat, R: Regs)
    requires CodeOk(p, label0) && Skips(p, q0, q, reg) && Extends(p, q0)
    ensures Run(q, 0, R) == Run(p, 0, R)
  {
    var n := |p.code|;
    ExtendsRun(p, q0, label0, R);
    RunOk(p, label0, 0, R);
    if Run(p, 0, R).Fell? {
      var R1 := Run(p, 0, R).R;
      assert q0.code[n] == Jmp(NO_JUMP);
      assert Run(q0, n, R1) == At(n, R1, Nil);
      assert !IsSet(q0.code, n) by {
        if n >= 1 { assert q0.code[n - 1] == p.code[n - 1] && InstrOk(p, label0, n - 1); }
      }
      assert Run(q, n + 3, R1) == Fell(R1);
    }
  }

  lemma SkipLoadsAt(p: Prog, q: Prog, reg: nat, ts: seq<nat>, fl: seq<nat>, c: Ctx, R: Regs)
    requires DenotesAt(p, VNonReloc(reg), 0, ts, fl, c, R) && SetsAgree(p.code, q.code, ts)
          && SetsAgree(p.code, q.code, fl)
    requires Run(q, 0, R) == Run(p, 0, R)
    ensures DenotesAt(q, VNonReloc(reg), 0, ts, fl, c, R)
  {}

  // ---------------------------------------------------------------- tests

  /** The end of code that got a test and a pending jump behind it. */
  function Tested(x: Exit, test: Instr, K: seq<V>, ord: Order, pc: nat): Exit
    requires IsTest(test)
  {
    if x.Fell? && Outcome(test, K, ord, x.R) == test.k then
      At(pc, x.R, if test.TestSet? then Get(x.R, test.b) else Nil) else x
  }

  function WithTest(p: Prog, test: Instr): Prog {
    p.(code := p.code + [test, Jmp(NO_JUMP)], pend := p.pend + {|p.code| + 1})
  }

  /** `condjump`: code with a conditional jump behind it. */
  lemma CondJumped(p: Prog, label0: nat, test: Instr)
    requires CodeOk(p, label0) && IsTest(test) && (test.EqK? ==> test.kx < |p.k|)
    ensures var q := WithTest(p, test); CodeOk(q, label0) && SetsKept(p, q)
                                        && IsList(q.code, |p.code| + 1, [|p.code| + 1])
    ensures forall R: Regs :: Run(WithTest(p, test), 0, R) == Tested(Run(p, 0, R), test, p.k, p.ord, |p.code| + 1)
  {
    hide Run, CodeOk, WithTest, Outcome;
    CondShape(p, label0, test);
    forall R: Regs ensures Run(WithTest(p, test), 0, R) == Tested(Run(p, 0, R), test, p.k, p.ord, |p.code| + 1) {
      CondRun(p, label0, test, R);
    }
  }

  lemma CondShape(p: Prog, label0: nat, test: Instr)
    requires CodeOk(p, label0) && IsTest(test) && (test.EqK? ==> test.kx < |p.k|)
    ensures var q := WithTest(p, test);
      Extends(p, q) && CodeOk(q, label0) && SetsKept(p, q) && IsList(q.code, |p.code| + 1, [|p.code| + 1])
  {
    var n := |p.code|;
    var q := WithTest(p, test);
    assert q.code[..n] == p.code;
    ExtendsSets(p, q);
    assert q.code[n] == test && q.code[n + 1] == Jmp(NO_JUMP);
    ExtendOk(p, q, label0, label0);
    assert [n + 1][1..] == [] && GetJump(q.code, n + 1) == NO_JUMP;
  }

  lemma CondRun(p: Prog, label0: nat, test: Instr, R: Regs)
    requires CodeOk(p, label0) && IsTest(test) && (test.EqK? ==> test.kx < |p.k|)
    ensures Run(WithTest(p, test), 0, R) == Tested(Run(p, 0, R), test, p.k, p.ord, |p.code| + 1)
  {
    hide Run, CodeOk, WithTest, Outcome;
    CondShape(p, label0, test);
    ExtendsRun(p, WithTest(p, test), label0, R);
    if Run(p, 0, R).Fell? { TestedEnd(p, test, Run(p, 0, R).R); }
  }

  lemma TestedEnd(p: Prog, test: Instr, R: Regs)
    requires IsTest(test)
    ensures Run(WithTest(p, test), |p.code|, R) == Tested(Fell(R), test, p.k, p.ord, |p.code| + 1)
  {
    hide Outcome;
    var q := WithTest(p, test);
    var n := |p.code|;
    assert q.code[n] == test && q.code[n + 1] == Jmp(NO_JUMP);
    if Outcome(test, p.k, p.ord, R) != test.k {
      assert Next(q, n, R) == Go(n + 2, R);
      assert Run(q, n + 2, R) == Fell(R);
    }
  }

  function With(js: seq<nat>, here: bool, pc: nat): seq<nat> {
    if here then js + [pc] else js
  }

  /** `jumponcond` on a value in a register: TESTSET keeps the value for the jump. */
  lemma SplitByValue(p: Prog, label0: nat, r: nat, cond: bool, ts: seq<nat>, fl: seq<nat>, c: Ctx)
    requires CodeOk(p, label0) && Denotes(p, VNonReloc(r), 0, ts, fl, c) && AllJumps(p.code, ts) && AllJumps(p.code, fl)
    ensures var pc := |p.code| + 1; Split(WithTest(p, TestSet(NO_REG, r, cond)), With(ts, cond, pc),
                                          With(fl, !cond, pc), !cond, c)
  {
    hide CodeOk, Run;
    var test := TestSet(NO_REG, r, cond);
    CondJumped(p, label0, test);
    assert WithTest(p, test).code[|p.code|] == test;
    var q, ts1, fl1, go := WithTest(p, test), With(ts, cond, |p.code| + 1), With(fl, !cond, |p.code| + 1), !cond;
    forall R: Regs ensures SplitAt(q, ts1, fl1, go, c, R) {
      assert DenotesAt(p, VNonReloc(r), 0, ts, fl, c, R);
      assert Run(WithTest(p, test), 0, R) == Tested(Run(p, 0, R), test, p.k, p.ord, |p.code| + 1);
    }
  }

  /** `jumponcond` on a NOT not emitted: the operand is tested the other way round. */
  lemma SplitByNot(p: Prog, label0: nat, nb: nat, at: nat, cond: bool, ts: seq<nat>, fl: seq<nat>, c: Ctx)
    requires CodeOk(p, label0) && Denotes(p, VReloc(at), nb, ts, fl, c) && AllJumps(p.code, ts) && AllJumps(p.code, fl)
    ensures var pc := |p.code| + 1; Split(WithTest(p, Test(nb, !cond)), With(ts, cond, pc), With(fl, !cond, pc),
                                          !cond, c)
  {
    hide CodeOk, Run;
    var test := Test(nb, !cond);
    CondJumped(p, label0, test);
    assert WithTest(p, test).code[|p.code|] == test;
    var q, ts1, fl1, go := WithTest(p, test), With(ts, cond, |p.code| + 1), With(fl, !cond, |p.code| + 1), !cond;
    forall R: Regs ensures SplitAt(q, ts1, fl1, go, c, R) {
      assert DenotesAt(p, VReloc(at), nb, ts, fl, c, R);
      assert Run(WithTest(p, test), 0, R) == Tested(Run(p, 0, R), test, p.k, p.ord, |p.code| + 1);
    }
  }

  /** A comparison already jumps when it is true. */
  lemma SplitByJmp(p: Prog, pc: nat, ts: seq<nat>, fl: seq<nat>, c: Ctx)
    requires Denotes(p, VJmp(pc), 0, ts, fl, c) && 1 <= pc < |p.code| && IsCompare(p.code[pc - 1])
    ensures Split(p, ts + [pc], fl, false, c)
  {
    hide Run;
    forall R: Regs ensures SplitAt(p, ts + [pc], fl, false, c, R) { assert DenotesAt(p, VJmp(pc), 0, ts, fl, c, R); }
  }

  function Inverted(p: Prog): Prog
    requires |p.code| >= 2 && IsCompare(p.code[|p.code| - 2])
  {
    p.(code := p.code[|p.code| - 2 := Negated(p.code[|p.code| - 2])])
  }

  lemma InvertedOk(p: Prog, label0: nat)
    requires CodeOk(p, label0) && |p.code| >= 2 && IsCompare(p.code[|p.code| - 2])
    ensures CodeOk(Inverted(p), label0) && IsCompare(Inverted(p).code[|p.code| - 2]) && SetsKept(p, Inverted(p))
  {
    var q := Inverted(p);
    forall i | 0 <= i < |q.code| ensures InstrOk(q, label0, i) { assert InstrOk(p, label0, i); }
  }

  /** A negated comparison jumps when it is false. */
  lemma SplitByNegated(p: Prog, label0: nat, pc: nat, ts: seq<nat>, fl: seq<nat>, c: Ctx)
    requires CodeOk(p, label0) && Denotes(p, VJmp(pc), 0, ts, fl, c) && LastTest(p, label0, pc, ts, fl, c)
    requires AllJumps(p.code, ts) && AllJumps(p.code, fl)
    ensures Split(Inverted(p), ts, fl + [pc], true, c)
  {
    hide Run, CodeOk, DenotesAt, SplitAt, Inverted, AllJumps;
    forall R: Regs ensures SplitAt(Inverted(p), ts, fl + [pc], true, c, R) {
      assert DenotesAt(p, VJmp(pc), 0, ts, fl, c, R);
      SplitByNegatedAt(p, label0, pc, ts, fl, c, R);
    }
  }

  /** A comparison and its jump end the code, and the jump is in no list. */
  ghost predicate LastTest(p: Prog, label0: nat, pc: nat, ts: seq<nat>, fl: seq<nat>, c: Ctx) {
    && |p.code| >= 2 && pc == |p.code| - 1 && label0 <= |p.code| - 2 && IsCompare(p.code[pc - 1])
    && pc in p.pend && pc !in ts && pc !in fl && pc !in c.outer
  }

  lemma InvertedEnd(p: Prog, label0: nat, pc: nat, ts: seq<nat>, fl: seq<nat>, c: Ctx, R: Regs)
    requires CodeOk(p, label0) && LastTest(p, label0, pc, ts, fl, c) && AllJumps(p.code, ts) && AllJumps(p.code, fl)
    ensures |p.code| >= 2 && IsCompare(p.code[|p.code| - 2]) && pc !in ts && pc !in fl && pc !in c.outer
    ensures var q := Inverted(p);
      && q.k == p.k && SetsAgree(p.code, q.code, ts) && SetsAgree(p.code, q.code, fl)
      && Run(q, 0, R) == match Run(p, 0, R)
           case Fell(R1) => At(pc, R1, Nil)
           case At(j, R1, h) => if j == pc then Fell(R1) else At(j, R1, h)
           case Stuck => Stuck
    ensures !Run(p, 0, R).Stuck? && !IsSet(Inverted(p).code, pc)
  {
    hide Run, CodeOk;
    InvertedOk(p, label0);
    RunNegated(p, label0, 0, R);
    RunOk(p, label0, 0, R);
  }

  lemma SplitByNegatedAt(p: Prog, label0: nat, pc: nat, ts: seq<nat>, fl: seq<nat>, c: Ctx, R: Regs)
    requires CodeOk(p, label0) && DenotesAt(p, VJmp(pc), 0, ts, fl, c, R) && LastTest(p, label0, pc, ts, fl, c)
    requires AllJumps(p.code, ts) && AllJumps(p.code, fl)
    ensures SplitAt(Inverted(p), ts, fl + [pc], true, c, R)
  {
    hide Run, CodeOk, Inverted, AllJumps, LastTest, IsSet;
    InvertedEnd(p, label0, pc, ts, fl, c, R);
  }

  lemma SplitConst(p: Prog, kind: Kind, nb: nat, ts: seq<nat>, fl: seq<nat>, cst: bool, c: Ctx)
    requires Denotes(p, kind, nb, ts, fl, c) && IsConst(kind)
          && forall R1: Regs :: Truthy(ValueOf(kind, p.k, nb, R1)) == cst
    ensures Split(p, ts, fl, cst, c)
  {
    hide Run, ValueOf;
    forall R: Regs ensures SplitAt(p, ts, fl, cst, c, R) { assert DenotesAt(p, kind, nb, ts, fl, c, R); }
  }

  /** Jumps of the values that go through are patched to the end. */
  lemma SplitThrough(p: Prog, q: Prog, ts: seq<nat>, fl: seq<nat>, cst: bool, c: Ctx)
    requires Split(p, ts, fl, cst, c) && c.outer !! Elems(ts) && c.outer !! Elems(fl) && |q.code| == |p.code|
    requires Redirected(p, if cst then ts else fl, |p.code|, NO_REG, |p.code|, q)
          && SetsAgree(p.code, q.code, if cst then fl else ts)
    requires NoDup(ts + fl)
    ensures Split(q, if cst then [] else ts, if cst then fl else [], cst, c)
  {
    var ts1, fl1 := if cst then [] else ts, if cst then fl else [];
    forall R: Regs ensures SplitAt(q, ts1, fl1, cst, c, R) { SplitThroughAt(p, q, ts, fl, cst, c, R); }
  }

  lemma SplitThroughAt(p: Prog, q: Prog, ts: seq<nat>, fl: seq<nat>, cst: bool, c: Ctx, R: Regs)
    requires SplitAt(p, ts, fl, cst, c, R) && c.outer !! Elems(ts) && c.outer !! Elems(fl) && |q.code| == |p.code|
          && NoDup(ts + fl)
    requires Run(q, 0, R) == Redirect(p.code, if cst then ts else fl, |p.code|, NO_REG, |p.code|, q, Run(p, 0, R))
    requires SetsAgree(p.code, q.code, if cst then fl else ts)
    ensures SplitAt(q, if cst then [] else ts, if cst then fl else [], cst, c, R)
  {
    var js := if cst then ts else fl;
    var x := Run(p, 0, R);
    if x.At? && x.j in js {
      assert x.j in Elems(js);
      Apart(ts, fl, x.j);
      assert Run(q, |p.code|, x.R) == Fell(x.R);
    }
  }

  lemma SplitSame(p: Prog, q: Prog, ts: seq<nat>, fl: seq<nat>, ts1: seq<nat>, fl1: seq<nat>, cst: bool, c: Ctx)
    requires Split(p, ts, fl, cst, c) && SameRuns(p, q) && SetsAgree(p.code, q.code, ts)
          && SetsAgree(p.code, q.code, fl)
    requires (forall j :: j in ts ==> j in ts1) && forall j :: j in fl ==> j in fl1
    ensures Split(q, ts1, fl1, cst, c)
  {
    hide Run;
    forall R: Regs ensures SplitAt(q, ts1, fl1, cst, c, R) { assert SplitAt(p, ts, fl, cst, c, R); }
  }

  lemma DenotesSame(p: Prog, q: Prog, kind: Kind, nb: nat, ts: seq<nat>, fl: seq<nat>, ts1: seq<nat>, fl1: seq<nat>,
          c: Ctx)
    requires Denotes(p, kind, nb, ts, fl, c) && SameRuns(p, q) && q.k == p.k && SetsAgree(p.code, q.code, ts)
          && SetsAgree(p.code, q.code, fl)
    requires (forall j :: j in ts ==> j in ts1) && forall j :: j in fl ==> j in fl1
    ensures Denotes(q, kind, nb, ts1, fl1, c)
  {
    hide Run;
    forall R: Regs ensures DenotesAt(q, kind, nb, ts1, fl1, c, R) { assert DenotesAt(p, kind, nb, ts, fl, c, R); }
  }

  /** The jump of a comparison joins the true list. */
  lemma JmpListed(p: Prog, pc: nat, ts: seq<nat>, fl: seq<nat>, c: Ctx)
    requires Denotes(p, VJmp(pc), 0, ts, fl, c) && 1 <= pc < |p.code| && IsCompare(p.code[pc - 1])
    ensures Denotes(p, VFalse, 0, ts + [pc], fl, c)
  {
    hide Run;
    forall R: Regs ensures DenotesAt(p, VFalse, 0, ts + [pc], fl, c, R) {
      assert DenotesAt(p, VJmp(pc), 0, ts, fl, c, R);
    }
  }

  // ---------------------------------------------------------------- `and` and `or`

  /** `e1 and e2` (for `cst`) or `e1 or e2`: what does not go through `e1` leaves with the value of `e1`. */
  lemma Joined(p1: Prog, p2: Prog, kind: Kind, nb: nat, ts: seq<nat>, fl: seq<nat>, left: seq<nat>, cst: bool, c: Ctx,
          c1: Ctx, c2: Ctx)
    requires Split(p1, if cst then [] else left, if cst then left else [], cst, c1) && Denotes(p2, kind, nb, ts, fl, c2)
    requires c1 == c.(v := c1.v) && c2.base == c.base && c2.outer == c.outer + Elems(left)
          && SetsAgree(p1.code, p2.code, left)
    requires forall R: Regs :: c2.pre(R) == Run(p1, 0, R)
    requires forall R: Regs :: c.pre(R).Fell? ==> c.v(R) == if Truthy(c1.v(R)) == cst then c2.v(R) else c1.v(R)
    ensures Denotes(p2, kind, nb, if cst then ts else ts + left, if cst then fl + left else fl, c)
  {
    hide Run;
    var ts1, fl1 := if cst then ts else ts + left, if cst then fl + left else fl;
    forall R: Regs ensures DenotesAt(p2, kind, nb, ts1, fl1, c, R) {
      JoinedAt(p1, p2, kind, nb, ts, fl, left, cst, c, c1, c2, R);
    }
  }

  lemma JoinedAt(p1: Prog, p2: Prog, kind: Kind, nb: nat, ts: seq<nat>, fl: seq<nat>, left: seq<nat>, cst: bool,
          c: Ctx, c1: Ctx, c2: Ctx, R: Regs)
    requires SplitAt(p1, if cst then [] else left, if cst then left else [], cst, c1, R)
          && DenotesAt(p2, kind, nb, ts, fl, c2, R)
    requires c1 == c.(v := c1.v) && c2.base == c.base && c2.outer == c.outer + Elems(left)
          && SetsAgree(p1.code, p2.code, left)
    requires c2.pre(R) == Run(p1, 0, R)
    requires c.pre(R).Fell? ==> c.v(R) == if Truthy(c1.v(R)) == cst then c2.v(R) else c1.v(R)
    ensures DenotesAt(p2, kind, nb, if cst then ts else ts + left, if cst then fl + left else fl, c, R)
  {
    hide Run, ValueOf, IsSet;
  }

  // ---------------------------------------------------------------- `not`

  /** Jumps of a list no longer hold a value. */
  ghost predicate Blanked(p: Prog, q: Prog, js: seq<nat>) {
    && (forall j :: j in js ==> !IsSet(q.code, j))
    && forall R: Regs :: BlankAt(p, q, js, R)
  }

  ghost predicate BlankAt(p: Prog, q: Prog, js: seq<nat>, R: Regs) {
    var x, y := Run(p, 0, R), Run(q, 0, R);
    if x.At? && x.j in js then y.At? && y.j == x.j && y.R == x.R else y == x
  }

  ghost function Opposite(c: Ctx): Ctx {
    c.(v := (R: Regs) => Bool(!Truthy(c.v(R))))
  }

  /** The code computes the negated value, except that jumps in the lists still belong to the value. */
  ghost predicate HalfNot(p: Prog, kind: Kind, nb: nat, ts: seq<nat>, fl: seq<nat>, c: Ctx) {
    forall R: Regs :: HalfNotAt(p, kind, nb, ts, fl, c, R)
  }

  ghost predicate HalfNotAt(p: Prog, kind: Kind, nb: nat, ts: seq<nat>, fl: seq<nat>, c: Ctx, R: Regs) {
    var x := Run(p, 0, R);
    if !c.pre(R).Fell? then Outside(c, R, x)
    else
      && !x.Stuck? && Keep(c.pre(R).R, x.R, c.base)
      && if x.Fell? then Bool(!Truthy(c.v(R))) == ValueOf(kind, p.k, nb, x.R)
         else Outs(p.code, ts, fl, c.v(R), x) || (kind == VJmp(x.j) && !Truthy(c.v(R)))
  }

  /** With the lists swapped and their values dropped, the code computes the negation. */
  lemma NotDone(p: Prog, q: Prog, kind: Kind, nb: nat, ts: seq<nat>, fl: seq<nat>, c: Ctx)
    requires HalfNot(p, kind, nb, ts, fl, c) && Blanked(p, q, ts + fl) && q.k == p.k
    requires c.outer !! Elems(ts) && c.outer !! Elems(fl)
    ensures Denotes(q, kind, nb, fl, ts, Opposite(c))
  {
    hide Run, ValueOf, IsSet;
    forall R: Regs ensures DenotesAt(q, kind, nb, fl, ts, Opposite(c), R) {
      assert HalfNotAt(p, kind, nb, ts, fl, c, R) && BlankAt(p, q, ts + fl, R);
      var x := Run(p, 0, R);
      if x.At? {
        assert x.j in ts + fl <==> x.j in ts || x.j in fl;
        assert x.j in ts ==> x.j in Elems(ts);
        assert x.j in fl ==> x.j in Elems(fl);
      }
    }
  }

  lemma NotConst(p: Prog, kind: Kind, nb: nat, kind1: Kind, ts: seq<nat>, fl: seq<nat>, c: Ctx)
    requires Denotes(p, kind, nb, ts, fl, c) && IsConst(kind) && (kind1.VTrue? || kind1.VFalse?)
    requires forall R1: Regs :: Truthy(ValueOf(kind, p.k, nb, R1)) == kind1.VFalse?
    ensures HalfNot(p, kind1, 0, ts, fl, c)
  {
    hide Run;
    forall R: Regs ensures HalfNotAt(p, kind1, 0, ts, fl, c, R) { assert DenotesAt(p, kind, nb, ts, fl, c, R); }
  }

  lemma NotReg1(p: Prog, r: nat, at: nat, ts: seq<nat>, fl: seq<nat>, c: Ctx)
    requires Denotes(p, VNonReloc(r), 0, ts, fl, c)
    ensures HalfNot(p, VReloc(at), r, ts, fl, c)
  {
    hide Run;
    forall R: Regs ensures HalfNotAt(p, VReloc(at), r, ts, fl, c, R) {
      assert DenotesAt(p, VNonReloc(r), 0, ts, fl, c, R);
    }
  }

  lemma NotJmp(p: Prog, label0: nat, pc: nat, ts: seq<nat>, fl: seq<nat>, c: Ctx)
    requires CodeOk(p, label0) && Denotes(p, VJmp(pc), 0, ts, fl, c) && LastTest(p, label0, pc, ts, fl, c)
    requires AllJumps(p.code, ts) && AllJumps(p.code, fl)
    ensures HalfNot(Inverted(p), VJmp(pc), 0, ts, fl, c)
  {
    hide Run, CodeOk, DenotesAt, HalfNotAt, Inverted, AllJumps;
    InvertedOk(p, label0);
    forall R: Regs ensures HalfNotAt(Inverted(p), VJmp(pc), 0, ts, fl, c, R) {
      assert DenotesAt(p, VJmp(pc), 0, ts, fl, c, R);
      NotJmpAt(p, label0, pc, ts, fl, c, R);
    }
  }

  lemma NotJmpAt(p: Prog, label0: nat, pc: nat, ts: seq<nat>, fl: seq<nat>, c: Ctx, R: Regs)
    requires CodeOk(p, label0) && DenotesAt(p, VJmp(pc), 0, ts, fl, c, R) && LastTest(p, label0, pc, ts, fl, c)
    requires AllJumps(p.code, ts) && AllJumps(p.code, fl)
    ensures HalfNotAt(Inverted(p), VJmp(pc), 0, ts, fl, c, R)
  {
    hide Run, CodeOk, Inverted, AllJumps, LastTest, IsSet;
    InvertedEnd(p, label0, pc, ts, fl, c, R);
  }

  // ---------------------------------------------------------------- comparisons

  /** Both operands are in place; the test jumps exactly when the comparison is true. */
  lemma Compared(p: Prog, label0: nat, test: Instr, k1: Kind, k2: Kind, rel: (V, V) -> bool, c: Ctx, v1: Regs -> V,
          v2: Regs -> V)
    requires CodeOk(p, label0) && Denotes(p, k1, 0, [], [], c.(v := v1)) && Denotes(p, k2, 0, [], [], c.(v := v2))
    requires IsCompare(test) && (test.EqK? ==> test.kx < |p.k|) && !k1.VJmp? && !k2.VJmp?
    requires forall R: Regs :: c.pre(R).Fell? && Run(p, 0, R).Fell? ==>
      ((Outcome(test, p.k, p.ord, Run(p, 0, R).R) == test.k) == rel(v1(R), v2(R)))
    requires forall R: Regs :: c.pre(R).Fell? ==> c.v(R) == Bool(rel(v1(R), v2(R)))
    ensures Denotes(WithTest(p, test), VJmp(|p.code| + 1), 0, [], [], c)
  {
    hide Run, CodeOk, ValueOf, Outcome;
    CondJumped(p, label0, test);
    var q, jmp := WithTest(p, test), VJmp(|p.code| + 1);
    forall R: Regs ensures DenotesAt(q, jmp, 0, [], [], c, R) {
      assert DenotesAt(p, k1, 0, [], [], c.(v := v1), R) && DenotesAt(p, k2, 0, [], [], c.(v := v2), R);
      assert Run(WithTest(p, test), 0, R) == Tested(Run(p, 0, R), test, p.k, p.ord, |p.code| + 1);
      ValueJmp(|p.code| + 1, p.k, Run(p, 0, R).R);
    }
  }

  lemma ValueJmp(pc: nat, K: seq<V>, R: Regs)
    ensures ValueOf(VJmp(pc), K, 0, R) == Bool(false)
  {}

  /** The second operand's code leaves the first operand, and all that was before it, in place. */
  lemma Carried(p1: Prog, p2: Prog, k1: Kind, k2: Kind, c: Ctx, c2: Ctx, v1: Regs -> V)
    requires Denotes(p1, k1, 0, [], [], c.(v := v1)) && Denotes(p2, k2, 0, [], [], c2) && p1.k <= p2.k
    requires (forall R: Regs :: c2.pre(R) == Run(p1, 0, R)) && c2.outer == c.outer && c.base <= c2.base && !k2.VJmp?
    requires (IsConst(k1) && (k1.VK? ==> k1.kx < |p1.k|)) || (k1.VNonReloc? && k1.reg < c2.base && k1.reg < 255)
    ensures Denotes(p2, k1, 0, [], [], c.(v := v1)) && Denotes(p2, k2, 0, [], [], c.(v := c2.v))
  {
    hide Run;
    forall R: Regs ensures DenotesAt(p2, k1, 0, [], [], c.(v := v1), R)
      && DenotesAt(p2, k2, 0, [], [], c.(v := c2.v), R) {
      CarriedAt(p1, p2, k1, k2, c, c2, v1, R);
    }
  }

  lemma CarriedAt(p1: Prog, p2: Prog, k1: Kind, k2: Kind, c: Ctx, c2: Ctx, v1: Regs -> V, R: Regs)
    requires DenotesAt(p1, k1, 0, [], [], c.(v := v1), R) && DenotesAt(p2, k2, 0, [], [], c2, R) && p1.k <= p2.k
    requires c2.pre(R) == Run(p1, 0, R) && c2.outer == c.outer && c.base <= c2.base && !k2.VJmp?
    requires (IsConst(k1) && (k1.VK? ==> k1.kx < |p1.k|)) || (k1.VNonReloc? && k1.reg < c2.base && k1.reg < 255)
    ensures DenotesAt(p2, k1, 0, [], [], c.(v := v1), R) && DenotesAt(p2, k2, 0, [], [], c.(v := c2.v), R)
  {
    hide Run;
    var x1 := Run(p1, 0, R);
    if x1.Fell? {
      var x2 := Run(p2, 0, R);
      assert k1.VNonReloc? ==> Get(x2.R, k1.reg) == Get(x1.R, k1.reg);
    }
  }

  // ---------------------------------------------------------------- what stays of lists and outer jumps

  lemma FramedChain(c0: seq<Instr>, k0: seq<V>, c1: seq<Instr>, k1: seq<V>, c2: seq<Instr>, k2: seq<V>, outer: set<nat>)
    requires Framed(c0, k0, c1, k1, outer) && Framed(c1, k1, c2, k2, outer) && forall j :: j in outer ==> j < |c0|
    ensures Framed(c0, k0, c2, k2, outer)
  {}

  lemma FramedBy(p: Prog, q: Prog, outer: set<nat>)
    requires SetsKept(p, q) && outer <= p.pend && forall j :: j in p.pend ==> j < |p.code| && p.code[j].Jmp?
    ensures Framed(p.code, p.k, q.code, q.k, outer)
  {}

  lemma PendJumps(p: Prog, label0: nat)
    requires CodeOk(p, label0)
    ensures forall j :: j in p.pend ==> j < |p.code| && p.code[j].Jmp?
  {
    forall j | j in p.pend ensures j < |p.code| && p.code[j].Jmp? { assert InstrOk(p, label0, j); }
  }

  lemma FramedPatch(p: Prog, q: Prog, label0: nat, js: seq<nat>, outer: set<nat>)
    requires CodeOk(p, label0) && OnlyPatched(p.code, q.code, js) && AllJumps(p.code, js) && AllJumps(q.code, js)
    requires outer <= p.pend && outer !! Elems(js) && q.k == p.k
    ensures Framed(p.code, p.k, q.code, q.k, outer)
  {
    forall j | j in outer && j < |p.code| ensures j < |q.code| && q.code[j] == p.code[j]
      && IsSet(q.code, j) == IsSet(p.code, j) {
      assert InstrOk(p, label0, j);
      assert j in js ==> j in Elems(js);
      SetsSame(p.code, q.code, js, j);
    }
  }

  ghost function Bare(t: int, f: int): Exp {
    Exp(VNil, t, f)
  }

  /** One of the two lists has been patched. */
  lemma ListGone(p: Prog, q: Prog, label0: nat, t: int, f: int, ts: seq<nat>, fl: seq<nat>, isT: bool, outer: set<nat>)
    requires Shaped(p, label0, Bare(t, f), ts, fl, outer) && CodeOk(q, label0) && q.k == p.k
    requires var js := if isT then ts else fl; q.pend == p.pend - Elems(js) && OnlyPatched(p.code, q.code, js)
                                               && AllJumps(q.code, js)
    ensures Shaped(q, label0, Bare(if isT then NO_JUMP else t, if isT then f else NO_JUMP), if isT then [] else ts,
                   if isT then fl else [], outer)
    ensures SetsAgree(p.code, q.code, if isT then fl else ts) && Framed(p.code, p.k, q.code, q.k, outer)
  {
    hide CodeOk, IsList, OnlyPatched;
    var js, others := if isT then ts else fl, if isT then fl else ts;
    ListJumps(p.code, if isT then t else f, js);
    FramedPatch(p, q, label0, js, outer);
    forall j | j in others ensures j !in js { Apart(ts, fl, j); }
    OtherList(p.code, q.code, js, if isT then f else t, others);
    forall j | j in others ensures IsSet(q.code, j) == IsSet(p.code, j) { SetsSame(p.code, q.code, js, j); }
    assert NoDup(others) by { PartsDistinct(ts, fl); }
    assert ([] + others) == others && (others + []) == others;
    assert IsList(q.code, NO_JUMP, []) by { EmptyList(q.code); }
    Disjoint(ts, fl);
  }

  lemma EmptyList(code: seq<Instr>)
    ensures IsList(code, NO_JUMP, [])
  {}

  lemma PartsDistinct(ts: seq<nat>, fl: seq<nat>)
    requires NoDup(ts + fl)
    ensures NoDup(ts) && NoDup(fl)
  {
    forall a, b | 0 <= a < b < |ts| ensures ts[a] != ts[b] { assert (ts + fl)[a] != (ts + fl)[b]; }
    forall a, b | 0 <= a < b < |fl| ensures fl[a] != fl[b] { assert (ts + fl)[|ts| + a] != (ts + fl)[|ts| + b]; }
  }

  lemma Disjoint(ts: seq<nat>, fl: seq<nat>)
    requires NoDup(ts + fl)
    ensures Elems(ts) !! Elems(fl) && Elems([]) == {}
  {
    forall j | j in Elems(ts) ensures j !in Elems(fl) { Apart(ts, fl, j); }
  }

  lemma NoJumpsNoLists(code: seq<Instr>, t: int, ts: seq<nat>, fl: seq<nat>)
    requires IsList(code, t, ts) && IsList(code, t, fl) && NoDup(ts + fl)
    ensures ts == [] && fl == [] && t == NO_JUMP
  {
    if ts != [] { Apart(ts, fl, ts[0]); }
  }

  /** The comparison's own jump has joined the true list. */
  lemma JmpJoined(p: Prog, q: Prog, label0: nat, e: Exp, t: int, ts: seq<nat>, fl: seq<nat>, c: Ctx)
    requires Shaped(p, label0, e, ts, fl, c.outer) && Denotes(p, e.kind, 0, ts, fl, c) && e.kind.VJmp?
    requires SameRuns(p, q) && CodeOk(q, label0) && q == p.(code := q.code) && IsList(q.code, t, ts + [e.kind.pc])
    requires |q.code| == |p.code| && forall i :: 0 <= i < |q.code| ==>
              q.code[i] == p.code[i] || (i in ts && q.code[i].Jmp? && p.code[i].Jmp?)
    ensures Shaped(q, label0, Bare(t, e.f), ts + [e.kind.pc], fl, c.outer)
          && Denotes(q, VFalse, 0, ts + [e.kind.pc], fl, c)
    ensures Framed(p.code, p.k, q.code, q.k, c.outer) && !IsSet(q.code, e.kind.pc)
  {
    hide CodeOk, IsList, SameRuns, Denotes;
    var pc := e.kind.pc;
    JmpListed(p, pc, ts, fl, c);
    JmpLists(p, q, label0, e, t, ts, fl, c.outer);
    DenotesSame(p, q, VFalse, 0, ts + [pc], fl, ts + [pc], fl, c);
  }

  lemma JmpLists(p: Prog, q: Prog, label0: nat, e: Exp, t: int, ts: seq<nat>, fl: seq<nat>, outer: set<nat>)
    requires Shaped(p, label0, e, ts, fl, outer) && e.kind.VJmp? && CodeOk(q, label0) && q == p.(code := q.code)
          && IsList(q.code, t, ts + [e.kind.pc])
    requires |q.code| == |p.code| && forall i :: 0 <= i < |q.code| ==>
              q.code[i] == p.code[i] || (i in ts && q.code[i].Jmp? && p.code[i].Jmp?)
    ensures Shaped(q, label0, Bare(t, e.f), ts + [e.kind.pc], fl, outer) && !IsSet(q.code, e.kind.pc)
    ensures SetsAgree(p.code, q.code, ts + [e.kind.pc]) && SetsAgree(p.code, q.code, fl)
          && Framed(p.code, p.k, q.code, q.k, outer)
  {
    hide CodeOk, IsList;
    var pc := e.kind.pc;
    NoDupAdd(ts, fl, pc);
    assert Elems(ts + [pc]) == Elems(ts) + {pc};
    ListJumps(p.code, e.f, fl);
    forall j | j in fl ensures j !in ts { Apart(ts, fl, j); }
    ListKept(p.code, q.code, e.f, fl);
    forall j | j in outer ensures j !in ts { assert j in ts ==> j in Elems(ts); }
  }

  lemma NoDupAdd(ts: seq<nat>, fl: seq<nat>, j: nat)
    requires NoDup(ts + fl) && j !in Elems(ts) && j !in Elems(fl)
    ensures NoDup((ts + [j]) + fl) && NoDup(ts + [j]) && NoDup(ts + (fl + [j])) && NoDup(fl + [j])
  {
    PartsDistinct(ts, fl);
    forall a, b | 0 <= a < b < |ts + [j] + fl| ensures (ts + [j] + fl)[a] != (ts + [j] + fl)[b] {
      if a < |ts| && b > |ts| { assert (ts + fl)[a] == ts[a] && (ts + fl)[b - 1] == fl[b - |ts| - 1]; }
    }
    forall a, b | 0 <= a < b < |ts + (fl + [j])| ensures (ts + (fl + [j]))[a] != (ts + (fl + [j]))[b] {
      assert (ts + (fl + [j]))[a] == (ts + fl)[a];
      if b < |ts + fl| { assert (ts + (fl + [j]))[b] == (ts + fl)[b]; }
    }
  }

  /** Values arrive in `reg` whichever way the expression ends. */
  lemma Closed(p: Prog, label0: nat, reg: nat, c: Ctx)
    requires Shaped(p, label0, Bare(NO_JUMP, NO_JUMP), [], [], c.outer) && Denotes(p, VNonReloc(reg), 0, [], [], c)
    ensures Shaped(p, label0, Exp(VNonReloc(reg), NO_JUMP, NO_JUMP), [], [], c.outer)
  {}

  // ---------------------------------------------------------------- steps of `exp2reg`

  ghost predicate LoadsOk(p: Prog, pf: int, pt: int, reg: nat, ts: seq<nat>, fl: seq<nat>) {
    && Loads(p, pf, reg, false) && Loads(p, pt, reg, true) && 0 <= pf < pt < |p.code| && Entry(p.code, pf)
    && Entry(p.code, pt)
    && (forall j :: j in ts ==> j < pf) && (forall j :: j in fl ==> j < pf)
  }

  lemma LoadsShaped(p: Prog, q: Prog, label0: nat, t: int, f: int, ts: seq<nat>, fl: seq<nat>, outer: set<nat>,
          reg: nat)
    requires Shaped(p, label0, Bare(t, f), ts, fl, outer)
          && q == p.(code := p.code + [LoadFalse(reg, true), LoadTrue(reg)])
    requires CodeOk(q, |q.code|) && SetsKept(p, q) && Loads(q, |p.code|, reg, false)
          && Loads(q, |p.code| + 1, reg, true)
    ensures Shaped(q, |q.code|, Bare(t, f), ts, fl, outer) && LoadsOk(q, |p.code|, |p.code| + 1, reg, ts, fl)
    ensures Framed(p.code, p.k, q.code, q.k, outer)
  {
    hide CodeOk, Loads, IsList, IsSet;
    ListsStay(p, q, t, ts);
    ListsStay(p, q, f, fl);
    ListJumps(p.code, t, ts);
    ListJumps(p.code, f, fl);
    EndEntry(p, label0);
    assert q.code[|p.code|] == LoadFalse(reg, true);
    if |p.code| > 0 { assert q.code[|p.code| - 1] == p.code[|p.code| - 1]; }
    PendJumps(p, label0);
    FramedBy(p, q, outer);
  }

  lemma LoneJump(q: Prog, j: nat)
    requires j < |q.code| && q.code[j] == Jmp(NO_JUMP)
    ensures IsList(q.code, j, [j]) && NoDup([j])
  {
    assert [j][1..] == [];
    assert IsList(q.code, NO_JUMP, []);
  }

  lemma SkipDone(p: Prog, q0: Prog, q: Prog, label0: nat, t: int, f: int, ts: seq<nat>, fl: seq<nat>, c: Ctx, reg: nat)
    requires Shaped(p, label0, Bare(t, f), ts, fl, c.outer) && Denotes(p, VNonReloc(reg), 0, ts, fl, c)
          && Skips(p, q0, q, reg)
    requires CodeOk(q, |q.code|) && q.pend == q0.pend - {|p.code|} && q.k == p.k
    ensures Shaped(q, |q.code|, Bare(t, f), ts, fl, c.outer) && Denotes(q, VNonReloc(reg), 0, ts, fl, c)
    ensures LoadsOk(q, |p.code| + 1, |p.code| + 2, reg, ts, fl) && Framed(p.code, p.k, q.code, q.k, c.outer)
  {
    hide CodeOk, Loads, IsList, Redirected, Denotes;
    var n := |p.code|;
    PendJumps(p, label0);
    ListJumps(p.code, t, ts);
    ListJumps(p.code, f, fl);
    SkipLoads(p, q0, q, label0, reg, ts, fl, c);
    SkipCode(p, q0, q, reg);
    SkipKeeps(p, q0, q, reg, ts);
    SkipKeeps(p, q0, q, reg, fl);
    ListKept(p.code, q.code, t, ts);
    ListKept(p.code, q.code, f, fl);
    assert q.pend == p.pend;
    SkipFrame(p, q0, q, reg, c.outer);
  }

  lemma SkipKeeps(p: Prog, q0: Prog, q: Prog, reg: nat, js: seq<nat>)
    requires Skips(p, q0, q, reg) && AllJumps(p.code, js)
    ensures forall j :: j in js ==> j < |q.code| && q.code[j] == p.code[j]
  {
    hide Redirected;
    forall j | j in js ensures j < |q.code| && q.code[j] == p.code[j] { assert q0.code[j] == p.code[j]; }
  }

  lemma SkipFrame(p: Prog, q0: Prog, q: Prog, reg: nat, outer: set<nat>)
    requires Skips(p, q0, q, reg) && (forall j :: j in outer ==> j < |p.code| && p.code[j].Jmp?) && q.k == p.k
    ensures Framed(p.code, p.k, q.code, q.k, outer)
  {
    hide Redirected;
    forall j | j in outer ensures j < |q.code| && q.code[j] == p.code[j] && IsSet(q.code, j) == IsSet(p.code, j) {
      assert q0.code[j] == p.code[j] && q.code[j] == q0.code[j];
      if j >= 1 { assert q0.code[j - 1] == p.code[j - 1] && q.code[j - 1] == q0.code[j - 1]; }
    }
  }

  /** The facts about a list that joining it with the comparison's jump needs. */
  lemma JmpReady(p: Prog, label0: nat, e: Exp, ts: seq<nat>, fl: seq<nat>, outer: set<nat>)
    requires Shaped(p, label0, e, ts, fl, outer) && e.kind.VJmp?
    ensures CodeOk(p, label0) && IsList(p.code, e.t, ts) && IsList(p.code, e.f, fl)
          && IsList(p.code, e.kind.pc, [e.kind.pc])
    ensures NoDup(ts + [e.kind.pc]) && NoDup(fl + [e.kind.pc]) && Elems(ts) <= p.pend && Elems(fl) <= p.pend
  {
    hide CodeOk, IsList;
    NoDupAdd(ts, fl, e.kind.pc);
    LoneJump(p, e.kind.pc);
  }

  lemma BareShape(p: Prog, label0: nat, e: Exp, ts: seq<nat>, fl: seq<nat>, outer: set<nat>)
    requires Shaped(p, label0, e, ts, fl, outer) && !e.kind.VJmp?
    ensures Shaped(p, label0, Bare(e.t, e.f), ts, fl, outer)
  {}

  lemma BareLists(p: Prog, label0: nat, t: int, f: int, ts: seq<nat>, fl: seq<nat>, outer: set<nat>)
    requires Shaped(p, label0, Bare(t, f), ts, fl, outer)
    ensures CodeOk(p, label0) && label0 <= |p.code| && IsList(p.code, t, ts) && IsList(p.code, f, fl) && NoDup(ts)
          && NoDup(fl) && NoDup(ts + fl)
    ensures Elems(ts) <= p.pend && Elems(fl) <= p.pend && outer <= p.pend && outer !! Elems(ts) && outer !! Elems(fl)
    ensures AllJumps(p.code, ts) && AllJumps(p.code, fl) && forall j :: j in outer ==> j < |p.code|
  {
    PartsDistinct(ts, fl);
    ListJumps(p.code, t, ts);
    ListJumps(p.code, f, fl);
  }

  lemma FinalLabel(p: Prog, label0: nat, t: int, f: int, ts: seq<nat>, fl: seq<nat>, outer: set<nat>)
    requires Shaped(p, label0, Bare(t, f), ts, fl, outer)
    ensures Shaped(p, |p.code|, Bare(t, f), ts, fl, outer)
  {
    LabelUp(p, label0, |p.code|);
  }

  /** If some jump of the list needs its value loaded, the load is at `dt`, behind all of them. */
  ghost predicate DtOk(p: Prog, js: seq<nat>, dt: int, reg: nat, b: bool) {
    (exists j :: j in js && !IsSet(p.code, j)) ==>
      Loads(p, dt, reg, b) && 0 <= dt < |p.code| && Entry(p.code, dt) && forall j :: j in js ==> j < dt
  }

  lemma DtTargets(p: Prog, label0: nat, js: seq<nat>, dt: int, reg: nat, b: bool)
    requires CodeOk(p, label0) && label0 == |p.code| && AllJumps(p.code, js) && DtOk(p, js, dt, reg, b)
    ensures Targets(p, |p.code|, js, |p.code|, dt)
  {
    EndEntry(p, label0);
  }

  /** One list is patched: Shape and meaning with that list empty. */
  lemma PatchedOnce(p: Prog, q: Prog, t: int, f: int, ts: seq<nat>, fl: seq<nat>, isT: bool, reg: nat, dt: int, c: Ctx)
    requires Shaped(p, |p.code|, Bare(t, f), ts, fl, c.outer) && Denotes(p, VNonReloc(reg), 0, ts, fl, c)
          && c.base <= reg < 255
    requires var js := if isT then ts else fl;
      && DtOk(p, js, dt, reg, isT) && CodeOk(q, |p.code|) && q.k == p.k && q.ord == p.ord
      && q.pend == p.pend - Elems(js) && OnlyPatched(p.code, q.code, js)
      && AllJumps(q.code, js) && Redirected(p, js, |p.code|, reg, dt, q)
    ensures Shaped(q, |q.code|, Bare(if isT then NO_JUMP else t, if isT then f else NO_JUMP), if isT then [] else ts,
                   if isT then fl else [], c.outer)
    ensures Denotes(q, VNonReloc(reg), 0, if isT then [] else ts, if isT then fl else [], c)
    ensures Framed(p.code, p.k, q.code, q.k, c.outer) && SetsAgree(p.code, q.code, if isT then fl else ts)
          && |q.code| == |p.code|
  {
    hide Redirected, Denotes, Loads, IsList;
    var js := if isT then ts else fl;
    BareLists(p, |p.code|, t, f, ts, fl, c.outer);
    ListGone(p, q, |p.code|, t, f, ts, fl, isT, c.outer);
    if exists j :: j in js && !IsSet(p.code, j) { LoadsStay(p, q, |p.code|, js, dt, reg, isT); }
    ValuePatched(p, q, ts, fl, isT, reg, dt, c);
  }

  /** The second list's loads are still there after the first patch. */
  lemma DtStays(p: Prog, q: Prog, js: seq<nat>, other: seq<nat>, pf: int, pt: int, reg: nat)
    requires CodeOk(p, |p.code|) && OnlyPatched(p.code, q.code, js) && AllJumps(p.code, js) && AllJumps(q.code, js)
          && SetsAgree(p.code, q.code, other)
    requires q.k == p.k && q.ord == p.ord && q.pend == p.pend - Elems(js)
    requires (exists j :: j in other && !IsSet(p.code, j)) ==> LoadsOk(p, pf, pt, reg, other, js)
    ensures DtOk(q, other, pt, reg, true)
  {
    if exists j :: j in other && !IsSet(q.code, j) {
      var j :| j in other && !IsSet(q.code, j);
      assert !IsSet(p.code, j);
      LoadsStay(p, q, |p.code|, js, pt, reg, true);
      EntrySame(p.code, q.code, js, pt);
    }
  }

  // ---------------------------------------------------------------- steps of `goiftrue`, `goiffalse` and `codenot`

  /** Lists of an expression, and `pcs`, a list of at most one new jump. */
  ghost predicate Dangling(p: Prog, label0: nat, t: int, f: int, ts: seq<nat>, fl: seq<nat>, pc: int, pcs: seq<nat>,
          outer: set<nat>) {
    && CodeOk(p, label0) && IsList(p.code, t, ts) && IsList(p.code, f, fl) && IsList(p.code, pc, pcs)
    && NoDup(ts + fl) && |pcs| <= 1
    && p.pend == outer + Elems(ts) + Elems(fl) + Elems(pcs)
    && outer !! Elems(ts) && outer !! Elems(fl) && Elems(pcs) !! (outer + Elems(ts) + Elems(fl))
  }

  lemma DanglingNone(p: Prog, label0: nat, e: Exp, ts: seq<nat>, fl: seq<nat>, outer: set<nat>)
    requires Shaped(p, label0, e, ts, fl, outer) && !e.kind.VJmp?
    ensures Dangling(p, label0, e.t, e.f, ts, fl, NO_JUMP, [], outer)
  {}

  lemma DanglingJmp(p: Prog, q: Prog, label0: nat, e: Exp, ts: seq<nat>, fl: seq<nat>, outer: set<nat>)
    requires Shaped(p, label0, e, ts, fl, outer) && e.kind.VJmp? && (q == p || q == Inverted(p)) && CodeOk(q, label0)
    ensures Dangling(q, label0, e.t, e.f, ts, fl, e.kind.pc, [e.kind.pc], outer)
          && Framed(p.code, p.k, q.code, q.k, outer)
    ensures AllJumps(p.code, ts) && AllJumps(p.code, fl) && e.kind.pc !in ts && e.kind.pc !in fl
          && e.kind.pc !in outer && e.kind.pc in p.pend
  {
    hide CodeOk, IsList;
    ListJumps(p.code, e.t, ts);
    ListJumps(p.code, e.f, fl);
    PendJumps(p, label0);
    ListKept(p.code, q.code, e.t, ts);
    ListKept(p.code, q.code, e.f, fl);
    LoneJump(q, e.kind.pc);
    NotIn(ts, e.kind.pc);
    NotIn(fl, e.kind.pc);
  }

  lemma NotIn(js: seq<nat>, j: nat)
    requires j !in Elems(js)
    ensures j !in js
  {}

  lemma DanglingTest(p: Prog, label0: nat, e: Exp, ts: seq<nat>, fl: seq<nat>, outer: set<nat>, test: Instr)
    requires Shaped(p, label0, e, ts, fl, outer) && !e.kind.VJmp? && IsTest(test) && (test.EqK? ==> test.kx < |p.k|)
    ensures var q, pc := WithTest(p, test), |p.code| + 1;
      Dangling(q, label0, e.t, e.f, ts, fl, pc, [pc], outer) && Framed(p.code, p.k, q.code, q.k, outer)
    ensures AllJumps(p.code, ts) && AllJumps(p.code, fl)
  {
    hide CodeOk, IsList, Run, Tested;
    CondJumped(p, label0, test);
    var q := WithTest(p, test);
    ListJumps(p.code, e.t, ts);
    ListJumps(p.code, e.f, fl);
    PendJumps(p, label0);
    ListsStay(p, q, e.t, ts);
    ListsStay(p, q, e.f, fl);
    FramedBy(p, q, outer);
  }

  lemma DanglingLists(p: Prog, label0: nat, t: int, f: int, ts: seq<nat>, fl: seq<nat>, pc: int, pcs: seq<nat>,
          outer: set<nat>)
    requires Dangling(p, label0, t, f, ts, fl, pc, pcs, outer)
    ensures CodeOk(p, label0) && IsList(p.code, t, ts) && IsList(p.code, f, fl) && IsList(p.code, pc, pcs)
    ensures NoDup(ts + pcs) && NoDup(fl + pcs) && NoDup(ts + (fl + pcs)) && NoDup((ts + pcs) + fl)
    ensures Elems(ts) <= p.pend && Elems(fl) <= p.pend && forall j :: j in outer ==> j < |p.code|
  {
    PartsDistinct(ts, fl);
    if pcs == [] {
      assert ts + pcs == ts && fl + pcs == fl;
    } else {
      assert pcs == [pcs[0]];
      assert pcs[0] in Elems(pcs);
      NoDupAdd(ts, fl, pcs[0]);
    }
  }

  /** The new jump joined one of the lists. */
  lemma JumpJoined(p: Prog, q: Prog, label0: nat, t: int, f: int, ts: seq<nat>, fl: seq<nat>, pc: int, pcs: seq<nat>,
          outer: set<nat>, toT: bool, l: int)
    requires Dangling(p, label0, t, f, ts, fl, pc, pcs, outer) && CodeOk(q, label0) && q == p.(code := q.code)
    requires IsList(q.code, l, (if toT then ts else fl) + pcs) && |q.code| == |p.code|
    requires forall i :: 0 <= i < |q.code| ==>
              q.code[i] == p.code[i] || (i in (if toT then ts else fl) && q.code[i].Jmp? && p.code[i].Jmp?)
    ensures Shaped(q, label0, Bare(if toT then l else t, if toT then f else l), if toT then ts + pcs else ts,
                   if toT then fl else fl + pcs, outer)
    ensures forall js: seq<nat> :: SetsAgree(p.code, q.code, js)
    ensures Framed(p.code, p.k, q.code, q.k, outer)
  {
    hide CodeOk, IsList;
    DanglingLists(p, label0, t, f, ts, fl, pc, pcs, outer);
    var js, others := if toT then ts else fl, if toT then fl else ts;
    forall j | j in others ensures j !in js { Apart(ts, fl, j); }
    ListJumps(p.code, if toT then f else t, others);
    ListKept(p.code, q.code, if toT then f else t, others);
    assert Elems(js + pcs) == Elems(js) + Elems(pcs);
    forall j | j in outer ensures j !in js { assert j in js ==> j in Elems(js); }
    forall j: nat ensures IsSet(q.code, j) == IsSet(p.code, j) {}
  }

  /** Values that go through have been patched to the end. */
  lemma ThroughDone(p: Prog, q: Prog, label0: nat, t: int, f: int, ts: seq<nat>, fl: seq<nat>, cst: bool, c: Ctx)
    requires Shaped(p, label0, Bare(t, f), ts, fl, c.outer) && Split(p, ts, fl, cst, c) && CodeOk(q, |p.code|)
          && q.k == p.k
    requires var js := if cst then ts else fl; q.pend == p.pend - Elems(js) && OnlyPatched(p.code, q.code, js)
                                               && AllJumps(q.code, js)
    requires Redirected(p, if cst then ts else fl, |p.code|, NO_REG, |p.code|, q)
    ensures Shaped(q, |q.code|, Bare(if cst then NO_JUMP else t, if cst then f else NO_JUMP), if cst then [] else ts,
                   if cst then fl else [], c.outer)
    ensures Split(q, if cst then [] else ts, if cst then fl else [], cst, c)
          && Framed(p.code, p.k, q.code, q.k, c.outer)
  {
    hide CodeOk, IsList, Split, Redirected;
    FinalLabel(p, label0, t, f, ts, fl, c.outer);
    ListGone(p, q, |p.code|, t, f, ts, fl, cst, c.outer);
    SplitThrough(p, q, ts, fl, cst, c);
  }

  function UnsetOne(code: seq<Instr>, j: nat): seq<Instr> {
    if IsSet(code, j) then code[j - 1 := Test(code[j - 1].b, code[j - 1].k)] else code
  }

  ghost function UnsetAll(code: seq<Instr>, js: seq<nat>): seq<Instr>
    decreases |js|
  {
    if js == [] then code else UnsetAll(UnsetOne(code, js[0]), js[1..])
  }

  lemma UnsetOneSame(code: seq<Instr>, j: nat, more: seq<Instr>)
    requires j < |code|
    ensures UnsetOne(code + more, j) == UnsetOne(code, j) + more
  {
    var all := code + more;
    if j >= 1 {
      assert all[j - 1] == code[j - 1];
      var x := Test(if code[j - 1].TestSet? then code[j - 1].b else 0, if code[j - 1].TestSet? then code[j - 1].k
                    else false);
      assert all[j - 1 := x] == code[j - 1 := x] + more;
    }
  }

  lemma {:induction false} UnsetSame(code: seq<Instr>, js: seq<nat>, more: seq<Instr>)
    requires forall j :: j in js ==> j < |code|
    ensures |UnsetAll(code, js)| == |code| && UnsetAll(code + more, js) == UnsetAll(code, js) + more
    ensures forall i :: 0 <= i < |code| && !code[i].TestSet? ==> UnsetAll(code, js)[i] == code[i]
    ensures forall j: nat :: !IsSet(code, j) ==> !IsSet(UnsetAll(code, js), j)
    ensures forall i :: 0 <= i < |code| ==> UnsetAll(code, js)[i] == code[i] || i + 1 in js
    decreases |js|
  {
    if js == [] {
      assert UnsetAll(code + more, js) == code + more;
    } else {
      var c1 := UnsetOne(code, js[0]);
      assert js[0] in js;
      UnsetOneSame(code, js[0], more);
      assert forall j :: j in js[1..] ==> j in js;
      UnsetSame(c1, js[1..], more);
    }
  }

  lemma {:induction false} UnsetBlanks(p: Prog, label0: nat, js: seq<nat>)
    requires CodeOk(p, label0) && Elems(js) <= p.pend
    ensures var q := p.(code := UnsetAll(p.code, js)); CodeOk(q, label0) && Blanked(p, q, js)
    decreases |js|
  {
    hide CodeOk, Run;
    if js != [] {
      var j := js[0];
      assert j in Elems(js) && Elems(js[1..]) <= Elems(js);
      var p1 := p.(code := UnsetOne(p.code, j));
      if IsSet(p.code, j) {
        UnsetOk(p, label0, j);
        forall R: Regs ensures BlankAt(p, p1, [j], R) { RunUnset(p, label0, j, 0, R); }
      }
      PendJumps(p1, label0);
      UnsetBlanks(p1, label0, js[1..]);
      assert forall i :: i in js[1..] ==> i in Elems(js);
      UnsetSame(p1.code, js[1..], []);
      BlankedChain(p, p1, p.(code := UnsetAll(p.code, js)), [j], js[1..], js);
    }
  }

  lemma BlankedChain(p: Prog, p1: Prog, q: Prog, a: seq<nat>, b: seq<nat>, js: seq<nat>)
    requires (forall R: Regs :: BlankAt(p, p1, a, R)) && Blanked(p1, q, b)
          && (forall j :: j in js <==> j in a || j in b)
    requires forall j :: j in a ==> !IsSet(q.code, j)
    ensures Blanked(p, q, js)
  {
    hide Run, IsSet;
    forall R: Regs ensures BlankAt(p, q, js, R) { assert BlankAt(p, p1, a, R) && BlankAt(p1, q, b, R); }
  }

  /** Lists of an expression whose values were dropped, swapped. */
  lemma UnsetLists(p: Prog, label0: nat, e: Exp, ts: seq<nat>, fl: seq<nat>, outer: set<nat>, kind: Kind)
    requires Shaped(p, label0, e, ts, fl, outer) && (kind == e.kind || (!e.kind.VJmp? && !kind.VJmp? && !kind.VK?))
    ensures var q := p.(code := UnsetAll(UnsetAll(p.code, ts), fl));
      && Shaped(q, label0, Exp(kind, e.f, e.t), fl, ts, outer) && Blanked(p, q, ts + fl)
      && Framed(p.code, p.k, q.code, q.k, outer)
      && |q.code| == |p.code|
  {
    hide CodeOk, IsList, Blanked, UnsetAll;
    var q := p.(code := UnsetAll(UnsetAll(p.code, ts), fl));
    PendJumps(p, label0);
    ListJumps(p.code, e.t, ts);
    ListJumps(p.code, e.f, fl);
    UnsetTwice(p, label0, ts, fl);
    ListKept(p.code, q.code, e.t, ts);
    ListKept(p.code, q.code, e.f, fl);
    Swapped(ts, fl);
    OuterApart(ts, fl, outer);
  }

  lemma UnsetTwice(p: Prog, label0: nat, ts: seq<nat>, fl: seq<nat>)
    requires CodeOk(p, label0) && Elems(ts) <= p.pend && Elems(fl) <= p.pend
    ensures var q := p.(code := UnsetAll(UnsetAll(p.code, ts), fl));
      && CodeOk(q, label0) && Blanked(p, q, ts + fl) && |q.code| == |p.code|
      && (forall i :: 0 <= i < |p.code| && !p.code[i].TestSet? ==> q.code[i] == p.code[i])
      && (forall i :: 0 <= i < |p.code| ==> q.code[i] == p.code[i] || i + 1 in ts || i + 1 in fl)
  {
    hide CodeOk, Blanked, UnsetAll;
    var p1 := p.(code := UnsetAll(p.code, ts));
    var q := p.(code := UnsetAll(p1.code, fl));
    PendJumps(p, label0);
    assert (forall j :: j in ts ==> j in Elems(ts)) && forall j :: j in fl ==> j in Elems(fl);
    UnsetBlanks(p, label0, ts);
    UnsetSame(p.code, ts, []);
    UnsetBlanks(p1, label0, fl);
    UnsetSame(p1.code, fl, []);
    BlankBoth(p, p1, q, ts, fl);
  }

  lemma OuterApart(ts: seq<nat>, fl: seq<nat>, outer: set<nat>)
    requires outer !! Elems(ts) && outer !! Elems(fl)
    ensures forall j :: j in outer ==> j !in ts && j !in fl
  {
    forall j | j in outer ensures j !in ts && j !in fl {
      assert (j in ts ==> j in Elems(ts)) && (j in fl ==> j in Elems(fl));
    }
  }

  lemma Swapped(ts: seq<nat>, fl: seq<nat>)
    requires NoDup(ts + fl)
    ensures NoDup(fl + ts)
  {
    PartsDistinct(ts, fl);
    forall a, b | 0 <= a < b < |fl + ts| ensures (fl + ts)[a] != (fl + ts)[b] {
      if a < |fl| <= b { Apart(ts, fl, fl[a]); assert (fl + ts)[b] in ts; }
    }
  }

  lemma BlankBoth(p: Prog, p1: Prog, q: Prog, ts: seq<nat>, fl: seq<nat>)
    requires Blanked(p, p1, ts) && Blanked(p1, q, fl) && forall j: nat :: !IsSet(p1.code, j) ==> !IsSet(q.code, j)
    ensures Blanked(p, q, ts + fl)
  {
    hide Run, IsSet;
    BlankedChain(p, p1, q, ts, fl, ts + fl);
  }

  lemma KindSame(p: Prog, label0: nat, e: Exp, kx: nat, ts: seq<nat>, fl: seq<nat>, c: Ctx)
    requires Shaped(p, label0, e, ts, fl, c.outer) && Denotes(p, e.kind, 0, ts, fl, c) && IsConst(e.kind) && kx < |p.k|
    requires forall R1: Regs :: ValueOf(e.kind, p.k, 0, R1) == p.k[kx]
    ensures Shaped(p, label0, e.(kind := VK(kx)), ts, fl, c.outer) && Denotes(p, VK(kx), 0, ts, fl, c)
  {
    hide CodeOk, IsList, Run;
    forall R: Regs ensures DenotesAt(p, VK(kx), 0, ts, fl, c, R) { assert DenotesAt(p, e.kind, 0, ts, fl, c, R); }
  }

  /** The last instruction was taken away and something else put there. */
  lemma CutFrame(c0: seq<Instr>, p: Prog, q: Prog, label0: nat, outer: set<nat>)
    requires |c0| == |p.code| + 1 && c0[..|p.code|] == p.code && Framed(p.code, p.k, q.code, q.k, outer)
          && forall j :: j in outer ==> j < |p.code|
    ensures Framed(c0, p.k, q.code, q.k, outer)
  {
    forall j | j in outer ensures IsSet(c0, j) == IsSet(p.code, j) && c0[j] == p.code[j] {
      assert c0[..|p.code|][j] == c0[j];
      if j >= 1 { assert c0[..|p.code|][j - 1] == c0[j - 1]; }
    }
  }

  lemma JmpFacts(p: Prog, label0: nat, e: Exp, ts: seq<nat>, fl: seq<nat>, outer: set<nat>)
    requires Shaped(p, label0, e, ts, fl, outer) && e.kind.VJmp?
    ensures var pc := e.kind.pc;
      && CodeOk(p, label0) && |p.code| >= 2 && pc == |p.code| - 1 && label0 <= |p.code| - 2 && IsCompare(p.code[pc - 1])
      && pc in p.pend && pc !in ts && pc !in fl && pc !in outer && AllJumps(p.code, ts) && AllJumps(p.code, fl)
      && CodeOk(Inverted(p), label0)
  {
    hide CodeOk, IsList;
    InvertedOk(p, label0);
    DanglingJmp(p, p, label0, e, ts, fl, outer);
  }

  lemma JmpInverted(p: Prog, label0: nat, e: Exp, ts: seq<nat>, fl: seq<nat>, outer: set<nat>)
    requires Shaped(p, label0, e, ts, fl, outer) && e.kind.VJmp?
    ensures |p.code| >= 2 && IsCompare(p.code[|p.code| - 2])
    ensures Shaped(Inverted(p), label0, e, ts, fl, outer) && Framed(p.code, p.k, Inverted(p).code, p.k, outer)
  {
    hide CodeOk, IsList;
    JmpFacts(p, label0, e, ts, fl, outer);
    InvertedOk(p, label0);
    DanglingJmp(p, Inverted(p), label0, e, ts, fl, outer);
  }

  lemma KindBare(p: Prog, label0: nat, e: Exp, kind: Kind, ts: seq<nat>, fl: seq<nat>, outer: set<nat>)
    requires Shaped(p, label0, e, ts, fl, outer) && !e.kind.VJmp? && !kind.VJmp? && !kind.VK?
    ensures Shaped(p, label0, e.(kind := kind), ts, fl, outer)
  {}

  lemma ShapedLists(p: Prog, label0: nat, e: Exp, ts: seq<nat>, fl: seq<nat>, outer: set<nat>)
    requires Shaped(p, label0, e, ts, fl, outer)
    ensures IsList(p.code, e.t, ts) && IsList(p.code, e.f, fl) && AllJumps(p.code, ts) && AllJumps(p.code, fl)
    ensures forall j :: j in outer ==> j < |p.code| && p.code[j].Jmp?
  {
    hide CodeOk;
    ListJumps(p.code, e.t, ts);
    ListJumps(p.code, e.f, fl);
    PendJumps(p, label0);
  }

  lemma ShapedApart(p: Prog, label0: nat, e: Exp, ts: seq<nat>, fl: seq<nat>, outer: set<nat>)
    requires Shaped(p, label0, e, ts, fl, outer)
    ensures outer !! Elems(ts) && outer !! Elems(fl) && outer <= p.pend && CodeOk(p, label0)
  {}

  lemma LongLists(c0: seq<Instr>, c1: seq<Instr>, tail: seq<Instr>, t: int, ts: seq<nat>, f: int, fl: seq<nat>)
    requires c1 == c0 + tail && IsList(c0, t, ts) && IsList(c0, f, fl)
    ensures IsList(c1, t, ts) && IsList(c1, f, fl)
  {
    ListKept(c0, c1, t, ts);
    ListKept(c0, c1, f, fl);
  }

  lemma ListUnset(c0: seq<Instr>, ts: seq<nat>, tail: seq<Instr>, f: int, fl: seq<nat>)
    requires IsList(c0, f, fl) && forall j :: j in ts ==> j < |c0|
    ensures IsList(UnsetAll(c0 + tail, ts), f, fl)
  {
    UnsetSame(c0, ts, tail);
    ListJumps(c0, f, fl);
    ListKept(c0, UnsetAll(c0 + tail, ts), f, fl);
  }

  /** A last instruction that stays does not matter to outer jumps. */
  lemma TailFrame(p: Prog, q: Prog, label0: nat, tail: seq<Instr>, outer: set<nat>)
    requires Framed(p.code, p.k, q.code, q.k, outer) && |q.code| == |p.code| && forall j :: j in outer ==> j < |p.code|
    ensures Framed(p.code + tail, p.k, q.code + tail, q.k, outer)
  {
    forall j | j in outer ensures IsSet(p.code + tail, j) == IsSet(p.code, j)
      && IsSet(q.code + tail, j) == IsSet(q.code, j) {}
  }

  lemma LongFrame(c0: seq<Instr>, tail: seq<Instr>, k: seq<V>, outer: set<nat>)
    requires forall j :: j in outer ==> j < |c0|
    ensures Framed(c0, k, c0 + tail, k, outer)
  {
    forall j | j in outer ensures IsSet(c0 + tail, j) == IsSet(c0, j) {}
  }
}
