/** The instructions that code for logical expressions is made of, what the virtual machine does with
    them, and how a run changes when code is extended or patched. */
module LuaVm {

  datatype V = Nil | Bool(b: bool) | Int(i: int) | Flt(r: real) | Str(s: string) | Other(id: nat)

  type Regs = s: seq<V> | |s| == 255 witness seq(255, _ => Nil)

  /** The order of Lua values; for operands without an order the outcome is arbitrary. */
  datatype Order = Order(lt: (V, V) -> bool, le: (V, V) -> bool)

  datatype Instr =
    | Move(a: nat, b: nat)
    | LoadI(a: nat, i: int)
    | LoadF(a: nat, i: int)
    | LoadK(a: nat, kx: nat)
    | LoadKX(a: nat)
    | ExtraArg(ax: nat)
    | LoadFalse(a: nat, skip: bool)
    | LoadTrue(a: nat)
    | LoadNil(a: nat, n: nat)              // registers a .. a + n
    | Not(a: nat, b: nat)
    | Jmp(sj: int)
    | Eq(a: nat, b: nat, k: bool)
    | Lt(a: nat, b: nat, k: bool)
    | Le(a: nat, b: nat, k: bool)
    | EqK(a: nat, kx: nat, k: bool)
    | EqI(a: nat, im: int, k: bool)
    | LtI(a: nat, im: int, isf: bool, k: bool)
    | LeI(a: nat, im: int, isf: bool, k: bool)
    | GtI(a: nat, im: int, isf: bool, k: bool)
    | GeI(a: nat, im: int, isf: bool, k: bool)
    | Test(a: nat, k: bool)
    | TestSet(a: nat, b: nat, k: bool)

  const NO_REG: nat := 255

  /** A program under construction: `pend` holds the jumps whose destination is not known yet. */
  datatype Prog = Prog(code: seq<Instr>, k: seq<V>, pend: set<nat>, ord: Order)

  function Get(R: Regs, r: nat): V {
    if r < 255 then R[r] else Nil
  }

  function Set(R: Regs, r: nat, v: V): Regs {
    if r < 255 then R[r := v] else R
  }

  function SetNils(R: Regs, a: nat, n: nat): Regs {
    seq(255, i requires 0 <= i < 255 => if a <= i <= a + n then Nil else R[i])
  }

  predicate Truthy(v: V) {
    v != Nil && v != Bool(false)
  }

  /** Equality without metamethods: an integer equals the float with the same value. */
  predicate LuaEq(v: V, w: V) {
    match (v, w)
    case (Int(i), Flt(r)) => i as real == r
    case (Flt(r), Int(i)) => i as real == r
    case _ => v == w
  }

  function Number(im: int, isf: bool): V {
    if isf then Flt(im as real) else Int(im)
  }

  predicate IsCompare(i: Instr) {
    i.Eq? || i.Lt? || i.Le? || i.EqK? || i.EqI? || i.LtI? || i.LeI? || i.GtI? || i.GeI?
  }

  /** `testTMode`: the next instruction is a jump that depends on this one. */
  predicate IsTest(i: Instr) {
    IsCompare(i) || i.Test? || i.TestSet?
  }

  /** What a test found, before it is compared with its `k`. */
  predicate Outcome(i: Instr, K: seq<V>, ord: Order, R: Regs)
    requires IsTest(i)
  {
    match i
    case Eq(a, b, _) => LuaEq(Get(R, a), Get(R, b))
    case Lt(a, b, _) => ord.lt(Get(R, a), Get(R, b))
    case Le(a, b, _) => ord.le(Get(R, a), Get(R, b))
    case EqK(a, kx, _) => kx < |K| && LuaEq(Get(R, a), K[kx])
    case EqI(a, im, _) => LuaEq(Get(R, a), Int(im))
    case LtI(a, im, isf, _) => ord.lt(Get(R, a), Number(im, isf))
    case LeI(a, im, isf, _) => ord.le(Get(R, a), Number(im, isf))
    case GtI(a, im, isf, _) => ord.lt(Number(im, isf), Get(R, a))
    case GeI(a, im, isf, _) => ord.le(Number(im, isf), Get(R, a))
    case Test(a, _) => Truthy(Get(R, a))
    case TestSet(_, b, _) => Truthy(Get(R, b))
  }

  predicate IsPlain(i: Instr) {
    i.Move? || i.LoadI? || i.LoadF? || i.LoadK? || i.LoadTrue? || i.LoadNil? || i.Not? || (i.LoadFalse? && !i.skip)
  }

  function Effect(i: Instr, K: seq<V>, R: Regs): Regs
    requires IsPlain(i) || i.LoadFalse?
  {
    match i
    case Move(a, b) => Set(R, a, Get(R, b))
    case LoadI(a, n) => Set(R, a, Int(n))
    case LoadF(a, n) => Set(R, a, Flt(n as real))
    case LoadK(a, kx) => Set(R, a, if kx < |K| then K[kx] else Nil)
    case LoadFalse(a, _) => Set(R, a, Bool(false))
    case LoadTrue(a) => Set(R, a, Bool(true))
    case LoadNil(a, n) => SetNils(R, a, n)
    case Not(a, b) => Set(R, a, Bool(!Truthy(Get(R, b))))
  }

  /** How a run ends: behind the last instruction, or at a jump still without destination. A pending
      TESTSET has not stored the value it tested, which is then `held`. */
  datatype Exit = Fell(R: Regs) | At(j: nat, R: Regs, held: V) | Stuck

  datatype Turn = Stop(x: Exit) | Go(pc: int, R: Regs)

  /** One instruction; a test and the jump behind it are executed together. */
  function Next(p: Prog, pc: nat, R: Regs): Turn
    requires pc < |p.code|
  {
    var i := p.code[pc];
    if IsPlain(i) then Go(pc + 1, Effect(i, p.k, R))
    else if i.LoadFalse? then Go(pc + 2, Effect(i, p.k, R))
    else if i.Jmp? then (if pc in p.pend then Stop(At(pc, R, Nil)) else Go(pc + 1 + i.sj, R))
    else if i.LoadKX? then
      (if pc + 1 < |p.code| && p.code[pc + 1].ExtraArg? && p.code[pc + 1].ax < |p.k|
       then Go(pc + 2, Set(R, i.a, p.k[p.code[pc + 1].ax])) else Stop(Stuck))
    else if i.ExtraArg? then Go(pc + 1, R)  // never entered; LOADKX skips it
    else if pc + 1 >= |p.code| || !p.code[pc + 1].Jmp? then Stop(Stuck)
    else if Outcome(i, p.k, p.ord, R) != i.k then Go(pc + 2, R)
    else if pc + 1 in p.pend then Stop(At(pc + 1, R, if i.TestSet? then Get(R, i.b) else Nil))
    else Go(pc + 2 + p.code[pc + 1].sj, if i.TestSet? then Set(R, i.a, Get(R, i.b)) else R)
  }

  /** Jumps made for expressions lead forward. */
  function Run(p: Prog, pc: nat, R: Regs): Exit
    decreases |p.code| - pc
  {
    if pc == |p.code| then Fell(R)
    else if pc > |p.code| then Stuck
    else
      match Next(p, pc, R)
      case Stop(x) => x
      case Go(n, R1) => if pc < n <= |p.code| then Run(p, n, R1) else Stuck
  }

  /** Not the jump of a test: only the test itself leads there. */
  predicate Entry(code: seq<Instr>, pc: int) {
    0 < pc <= |code| ==> !IsTest(code[pc - 1])
  }

  /** Code in good order: jumps with a destination lead forward, at most to the last label; tests
      are followed by their jump; constants exist. */
  ghost predicate InstrOk(p: Prog, label0: nat, i: nat)
    requires i < |p.code|
  {
    && (i in p.pend ==> p.code[i].Jmp?)
    && (p.code[i].Jmp? && i !in p.pend ==> i < i + 1 + p.code[i].sj <= label0 && Entry(p.code, i + 1 + p.code[i].sj))
    && (IsTest(p.code[i]) ==> i + 1 < |p.code| && p.code[i + 1].Jmp?)
    && (p.code[i].LoadKX? ==> i + 1 < |p.code| && p.code[i + 1].ExtraArg? && p.code[i + 1].ax < |p.k|)
    && (p.code[i].LoadFalse? && p.code[i].skip ==> i + 1 < |p.code| && p.code[i + 1].LoadTrue?)
    && (p.code[i].LoadK? ==> p.code[i].kx < |p.k|)
    && (p.code[i].EqK? ==> p.code[i].kx < |p.k|)
  }

  ghost predicate CodeOk(p: Prog, label0: nat) {
    && label0 <= |p.code| && (forall j :: j in p.pend ==> j < |p.code|)
    && forall i :: 0 <= i < |p.code| ==> InstrOk(p, label0, i)
  }

  // ---------------------------------------------------------------- runs of code in good order

  lemma {:induction false} NextOk(p: Prog, label0: nat, pc: nat, R: Regs)
    requires CodeOk(p, label0) && pc < |p.code|
    ensures match Next(p, pc, R)
      case Stop(x) => x.At? && x.j in p.pend && pc <= x.j < |p.code|
      case Go(n, _) => pc < n <= |p.code| && Entry(p.code, n)
  {
    assert InstrOk(p, label0, pc);
    if pc + 1 < |p.code| { assert InstrOk(p, label0, pc + 1); }
  }

  lemma {:induction false} RunOk(p: Prog, label0: nat, pc: nat, R: Regs)
    requires CodeOk(p, label0) && pc <= |p.code|
    ensures !Run(p, pc, R).Stuck?
    ensures Run(p, pc, R).At? ==> Run(p, pc, R).j in p.pend && pc <= Run(p, pc, R).j < |p.code|
    decreases |p.code| - pc
  {
    if pc < |p.code| {
      NextOk(p, label0, pc, R);
      match Next(p, pc, R)
      case Stop(x) =>
      case Go(n, R1) => RunOk(p, label0, n, R1);
    }
  }

  /** `q` is `p` with more code, more constants and possibly more pending jumps in the new part. */
  ghost predicate Extends(p: Prog, q: Prog) {
    && |p.code| <= |q.code| && q.code[..|p.code|] == p.code && |p.k| <= |q.k| && q.k[..|p.k|] == p.k
    && q.ord == p.ord && forall j :: 0 <= j < |p.code| ==> (j in q.pend <==> j in p.pend)
  }

  lemma NextExtends(p: Prog, q: Prog, label0: nat, pc: nat, R: Regs)
    requires CodeOk(p, label0) && Extends(p, q) && pc < |p.code|
    ensures Next(q, pc, R) == Next(p, pc, R)
  {
    assert InstrOk(p, label0, pc);
    assert q.code[pc] == q.code[..|p.code|][pc];
    if pc + 1 < |p.code| { assert q.code[pc + 1] == q.code[..|p.code|][pc + 1]; }
    if p.code[pc].LoadK? { assert q.k[p.code[pc].kx] == q.k[..|p.k|][p.code[pc].kx]; }
    if p.code[pc].EqK? { assert q.k[p.code[pc].kx] == q.k[..|p.k|][p.code[pc].kx]; }
    if p.code[pc].LoadKX? { assert q.k[p.code[pc + 1].ax] == q.k[..|p.k|][p.code[pc + 1].ax]; }
  }

  /** A run of the longer code goes through the shorter one, and on behind it. */
  lemma {:induction false} RunExtends(p: Prog, q: Prog, label0: nat, pc: nat, R: Regs)
    requires CodeOk(p, label0) && Extends(p, q) && pc <= |p.code|
    ensures Run(q, pc, R) == match Run(p, pc, R) case Fell(R1) => Run(q, |p.code|, R1) case x => x
    decreases |p.code| - pc
  {
    if pc < |p.code| {
      NextOk(p, label0, pc, R);
      NextExtends(p, q, label0, pc, R);
      match Next(p, pc, R)
      case Stop(x) =>
      case Go(n, R1) => RunExtends(p, q, label0, n, R1);
    }
  }

  /** Code that agrees from `pc` on runs alike from `pc` on. */
  lemma {:induction false} RunFrom(p: Prog, q: Prog, label0: nat, pc: nat, R: Regs)
    requires CodeOk(p, label0) && |q.code| == |p.code| && q.k == p.k && q.ord == p.ord && pc <= |p.code|
    requires forall i :: pc <= i < |p.code| ==> q.code[i] == p.code[i] && (i in q.pend <==> i in p.pend)
    ensures Run(q, pc, R) == Run(p, pc, R)
    decreases |p.code| - pc
  {
    if pc < |p.code| {
      NextOk(p, label0, pc, R);
      match Next(p, pc, R)
      case Stop(x) =>
      case Go(n, R1) => RunFrom(p, q, label0, n, R1);
    }
  }

  // ---------------------------------------------------------------- patching one jump

  /** The jump at `j` is controlled by a TESTSET. */
  predicate IsSet(code: seq<Instr>, j: nat) {
    1 <= j < |code| && code[j - 1].TestSet?
  }

  /** What becomes of a TESTSET when its value goes to `reg`. */
  function Retest(i: Instr, reg: nat): Instr
    requires i.TestSet?
  {
    if reg != NO_REG && reg != i.b then TestSet(reg, i.b, i.k) else Test(i.b, i.k)
  }

  function Patched(p: Prog, j: nat, target: nat, reg: nat): Prog
    requires j < |p.code|
  {
    var code := if IsSet(p.code, j) then p.code[j - 1 := Retest(p.code[j - 1], reg)] else p.code;
    p.(code := code[j := Jmp(target - (j + 1))], pend := p.pend - {j})
  }

  /** The registers with which a run that got to the pending jump `x.j` goes on after the patch. */
  function Settle(code: seq<Instr>, x: Exit, reg: nat): Regs
    requires x.At?
  {
    if IsSet(code, x.j) && reg != NO_REG then Set(x.R, reg, x.held) else x.R
  }

  lemma SetSame(R: Regs, r: nat)
    ensures Set(R, r, Get(R, r)) == R
  {}

  lemma NextPatchedAway(p: Prog, label0: nat, j: nat, target: nat, reg: nat, pc: nat, R: Regs)
    requires CodeOk(p, label0) && j in p.pend && j < target <= |p.code| && pc < |p.code| && pc != j && pc + 1 != j
    ensures Next(Patched(p, j, target, reg), pc, R) == Next(p, pc, R)
    ensures Next(p, pc, R).Stop? && Next(p, pc, R).x.At? ==> Next(p, pc, R).x.j != j
  {
    hide Outcome, Effect;
    assert InstrOk(p, label0, pc);
    var q := Patched(p, j, target, reg);
    assert q.code[pc] == p.code[pc];
    if pc + 1 < |p.code| {
      assert IsTest(p.code[pc]) || p.code[pc].LoadKX? ==> q.code[pc + 1] == p.code[pc + 1] by {
        assert InstrOk(p, label0, j);
      }
    }
  }

  lemma NextPatchedHere(p: Prog, label0: nat, j: nat, target: nat, reg: nat, pc: nat, R: Regs)
    requires CodeOk(p, label0) && j in p.pend && j < target <= |p.code| && pc < |p.code| && (pc == j || pc + 1 == j)
          && Entry(p.code, pc)
    ensures var x, y := Next(p, pc, R), Next(Patched(p, j, target, reg), pc, R);
      if x.Stop? && x.x.At? && x.x.j == j then y == Go(target, Settle(p.code, x.x, reg)) else y == x
  {
    hide Effect;
    assert InstrOk(p, label0, pc) && InstrOk(p, label0, j);
    if pc + 1 == j && p.code[pc].TestSet? { SetSame(R, p.code[pc].b); }
  }

  lemma NextPatched(p: Prog, label0: nat, j: nat, target: nat, reg: nat, pc: nat, R: Regs)
    requires CodeOk(p, label0) && j in p.pend && j < target <= |p.code| && pc < |p.code| && Entry(p.code, pc)
    ensures var x, y := Next(p, pc, R), Next(Patched(p, j, target, reg), pc, R);
      if x.Stop? && x.x.At? && x.x.j == j then y == Go(target, Settle(p.code, x.x, reg)) else y == x
  {
    hide CodeOk, Next, Patched, Settle;
    if pc == j || pc + 1 == j {
      NextPatchedHere(p, label0, j, target, reg, pc, R);
    } else {
      NextPatchedAway(p, label0, j, target, reg, pc, R);
    }
  }

  /** After the patch, runs that ended at `j` go on at its target; all others are as before. */
  lemma {:induction false} RunPatched(p: Prog, label0: nat, j: nat, target: nat, reg: nat, pc: nat, R: Regs)
    requires CodeOk(p, label0) && j in p.pend && j < target <= |p.code| && pc <= |p.code| && Entry(p.code, pc)
    ensures var q, x := Patched(p, j, target, reg), Run(p, pc, R);
      Run(q, pc, R) == if x.At? && x.j == j then Run(q, target, Settle(p.code, x, reg)) else x
    decreases |p.code| - pc
  {
    if pc < |p.code| {
      NextOk(p, label0, pc, R);
      NextPatched(p, label0, j, target, reg, pc, R);
      match Next(p, pc, R)
      case Stop(x) =>
      case Go(n, R1) => RunPatched(p, label0, j, target, reg, n, R1);
    }
  }

  lemma PatchedOk(p: Prog, label0: nat, j: nat, target: nat, reg: nat)
    requires CodeOk(p, label0) && j in p.pend && j < target <= label0 && Entry(p.code, target)
    ensures CodeOk(Patched(p, j, target, reg), label0)
  {
    var q := Patched(p, j, target, reg);
    forall i | 0 <= i < |q.code| ensures InstrOk(q, label0, i) {
      assert InstrOk(p, label0, i);
      if i + 1 < |p.code| { assert InstrOk(p, label0, i + 1); }
    }
  }

  // ---------------------------------------------------------------- other changes to code

  /** The link of a pending jump to the next one of its list plays no part in runs. */
  lemma {:induction false} RunRelinked(p: Prog, label0: nat, j: nat, sj: int, pc: nat, R: Regs)
    requires CodeOk(p, label0) && j in p.pend && pc <= |p.code|
    ensures Run(p.(code := p.code[j := Jmp(sj)]), pc, R) == Run(p, pc, R)
    decreases |p.code| - pc
  {
    if pc < |p.code| {
      var q := p.(code := p.code[j := Jmp(sj)]);
      assert InstrOk(p, label0, j) && InstrOk(p, label0, pc);
      NextOk(p, label0, pc, R);
      assert Next(q, pc, R) == Next(p, pc, R);
      match Next(p, pc, R)
      case Stop(x) =>
      case Go(n, R1) => RunRelinked(p, label0, j, sj, n, R1);
    }
  }

  lemma RelinkedOk(p: Prog, label0: nat, j: nat, sj: int)
    requires CodeOk(p, label0) && j in p.pend
    ensures CodeOk(p.(code := p.code[j := Jmp(sj)]), label0)
  {
    var q := p.(code := p.code[j := Jmp(sj)]);
    forall i | 0 <= i < |q.code| ensures InstrOk(q, label0, i) {
      assert InstrOk(p, label0, i) && InstrOk(p, label0, j);
    }
  }

  function Negated(i: Instr): Instr
    requires IsCompare(i)
  {
    match i
    case Eq(a, b, k) => Eq(a, b, !k)
    case Lt(a, b, k) => Lt(a, b, !k)
    case Le(a, b, k) => Le(a, b, !k)
    case EqK(a, kx, k) => EqK(a, kx, !k)
    case EqI(a, im, k) => EqI(a, im, !k)
    case LtI(a, im, isf, k) => LtI(a, im, isf, !k)
    case LeI(a, im, isf, k) => LeI(a, im, isf, !k)
    case GtI(a, im, isf, k) => GtI(a, im, isf, !k)
    case GeI(a, im, isf, k) => GeI(a, im, isf, !k)
  }

  /** Inverting the comparison in front of the last jump swaps falling through and jumping. */
  lemma {:induction false} RunNegated(p: Prog, label0: nat, pc: nat, R: Regs)
    requires CodeOk(p, label0) && |p.code| >= 2 && label0 <= |p.code| - 2 && pc <= |p.code| - 2
    requires IsCompare(p.code[|p.code| - 2]) && |p.code| - 1 in p.pend
    ensures var n := |p.code|;
      Run(p.(code := p.code[n - 2 := Negated(p.code[n - 2])]), pc, R) ==
        match Run(p, pc, R)
        case Fell(R1) => At(n - 1, R1, Nil)
        case At(j, R1, h) => if j == n - 1 then Fell(R1) else At(j, R1, h)
        case Stuck => Stuck
    decreases |p.code| - pc
  {
    hide Next, CodeOk, Negated;
    var n := |p.code|;
    var q := p.(code := p.code[n - 2 := Negated(p.code[n - 2])]);
    if pc < n - 2 {
      NegatedBefore(p, label0, pc, R);
      match Next(p, pc, R)
      case Stop(x) =>
      case Go(m, R1) => RunNegated(p, label0, m, R1);
    } else {
      NegatedLast(p, label0, R);
    }
  }

  lemma NegatedBefore(p: Prog, label0: nat, pc: nat, R: Regs)
    requires CodeOk(p, label0) && |p.code| >= 2 && label0 <= |p.code| - 2 && pc < |p.code| - 2
    requires IsCompare(p.code[|p.code| - 2])
    ensures Next(p.(code := p.code[|p.code| - 2 := Negated(p.code[|p.code| - 2])]), pc, R) == Next(p, pc, R)
    ensures match Next(p, pc, R)
      case Stop(x) => !x.Fell? && (x.At? ==> x.j != |p.code| - 1)
      case Go(m, _) => pc < m <= |p.code| - 2
  {
    NextOk(p, label0, pc, R);
    assert InstrOk(p, label0, pc) && InstrOk(p, label0, pc + 1);
    if Next(p, pc, R).Go? { ShortOfTest(p, label0, pc, R); }
  }

  lemma NegatedLast(p: Prog, label0: nat, R: Regs)
    requires CodeOk(p, label0) && |p.code| >= 2 && IsCompare(p.code[|p.code| - 2]) && |p.code| - 1 in p.pend
    ensures var n := |p.code|;
      Run(p.(code := p.code[n - 2 := Negated(p.code[n - 2])]), n - 2, R) ==
        match Run(p, n - 2, R)
        case Fell(R1) => At(n - 1, R1, Nil)
        case At(j, R1, h) => if j == n - 1 then Fell(R1) else At(j, R1, h)
        case Stuck => Stuck
  {
    NextOk(p, label0, |p.code| - 2, R);
    assert InstrOk(p, label0, |p.code| - 2) && InstrOk(p, label0, |p.code| - 1);
  }

  /** No instruction before the last test leads past it. */
  lemma ShortOfTest(p: Prog, label0: nat, pc: nat, R: Regs)
    requires CodeOk(p, label0) && |p.code| >= 2 && label0 <= |p.code| - 2 && pc < |p.code| - 2
    requires IsCompare(p.code[|p.code| - 2]) && Next(p, pc, R).Go?
    ensures Next(p, pc, R).pc <= |p.code| - 2
  {
    assert InstrOk(p, label0, pc) && InstrOk(p, label0, pc + 1);
  }

  // ---------------------------------------------------------------- extending the last LOADNIL

  /** The ranges `a .. a + n` and `b .. b + m` touch, and together are `a1 .. a1 + n1`. */
  predicate Joins(a: nat, n: nat, b: nat, m: nat, a1: nat, n1: nat) {
    && (a <= b <= a + n + 1 || b <= a <= b + m + 1)
    && a1 == (if a < b then a else b) && a1 + n1 == if a + n > b + m then a + n else b + m
  }

  lemma NilsJoin(R: Regs, a: nat, n: nat, b: nat, m: nat, a1: nat, n1: nat)
    requires Joins(a, n, b, m, a1, n1)
    ensures SetNils(R, a1, n1) == SetNils(SetNils(R, a, n), b, m)
  {}

  lemma {:induction false} RunNil(p: Prog, label0: nat, a1: nat, n1: nat, b: nat, m: nat, pc: nat, R: Regs)
    requires CodeOk(p, label0) && |p.code| > 0 && label0 <= |p.code| - 1 && p.code[|p.code| - 1].LoadNil?
          && pc <= |p.code| - 1
    requires Joins(p.code[|p.code| - 1].a, p.code[|p.code| - 1].n, b, m, a1, n1)
    ensures Run(p.(code := p.code[|p.code| - 1 := LoadNil(a1, n1)]), pc, R) ==
      match Run(p, pc, R) case Fell(R1) => Fell(SetNils(R1, b, m)) case x => x
    decreases |p.code| - pc
  {
    var n := |p.code|;
    var q := p.(code := p.code[n - 1 := LoadNil(a1, n1)]);
    NextOk(p, label0, pc, R);
    assert InstrOk(p, label0, pc) && InstrOk(p, label0, n - 1);
    if pc == n - 1 {
      NilsJoin(R, p.code[pc].a, p.code[pc].n, b, m, a1, n1);
    } else {
      if pc + 1 < n { assert InstrOk(p, label0, pc + 1); }
      assert Next(q, pc, R) == Next(p, pc, R);
      match Next(p, pc, R)
      case Stop(x) =>
      case Go(k, R1) => RunNil(p, label0, a1, n1, b, m, k, R1);
    }
  }

  // ---------------------------------------------------------------- dropping the value of a test

  function Unset(p: Prog, j: nat): Prog
    requires IsSet(p.code, j)
  {
    p.(code := p.code[j - 1 := Test(p.code[j - 1].b, p.code[j - 1].k)])
  }

  /** A pending TESTSET that becomes a TEST holds no value any more. */
  lemma {:induction false} RunUnset(p: Prog, label0: nat, j: nat, pc: nat, R: Regs)
    requires CodeOk(p, label0) && j in p.pend && IsSet(p.code, j) && pc <= |p.code|
    ensures Run(Unset(p, j), pc, R) ==
      match Run(p, pc, R) case At(i, R1, h) => if i == j then At(j, R1, Nil) else At(i, R1, h) case x => x
    decreases |p.code| - pc
  {
    if pc < |p.code| {
      var q := Unset(p, j);
      NextOk(p, label0, pc, R);
      assert InstrOk(p, label0, pc) && InstrOk(p, label0, j);
      assert Next(q, pc, R) == match Next(p, pc, R)
        case Stop(x) => if x.At? && x.j == j then Stop(At(j, x.R, Nil)) else Stop(x)
        case y => y;
      match Next(p, pc, R)
      case Stop(x) =>
      case Go(n, R1) => RunUnset(p, label0, j, n, R1);
    }
  }

  lemma UnsetOk(p: Prog, label0: nat, j: nat)
    requires CodeOk(p, label0) && j in p.pend && IsSet(p.code, j)
    ensures CodeOk(Unset(p, j), label0)
  {
    var q := Unset(p, j);
    forall i | 0 <= i < |q.code| ensures InstrOk(q, label0, i) {
      assert InstrOk(p, label0, i) && InstrOk(p, label0, j);
      if i + 1 < |p.code| { assert InstrOk(p, label0, i + 1); }
    }
  }
}
