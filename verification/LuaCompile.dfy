/** Logical expressions, their meaning, and the walk that turns them into code. */
module LuaCompile {
  import opened LuaVm
  import opened LuaExp
  import opened LuaPatch
  import opened LuaPlace
  import opened LuaLogic
  import opened LuaCode

  datatype BinOp = AndOp | OrOp | EqOp | NeOp | LtOp | LeOp | GtOp | GeOp

  datatype Expr =
    | ENil | ETrue | EFalse | EInt(i: int) | EFlt(r: real) | EStr(s: string)
    | ELocal(reg: nat)
    | ENot(e: Expr)
    | EBin(op: BinOp, l: Expr, r2: Expr)

  /** Section 3.4.4 of the Lua 5.4 Reference Manual: `a > b` is `b < a`. */
  predicate Rel(op: BinOp, ord: Order, v: V, w: V) {
    match op
    case EqOp => LuaEq(v, w)
    case NeOp => !LuaEq(v, w)
    case LtOp => ord.lt(v, w)
    case LeOp => ord.le(v, w)
    case GtOp => ord.lt(w, v)
    case GeOp => ord.le(w, v)
    case _ => false
  }

  /** The value of an expression (section 3.4.5 of the Lua 5.4 Reference Manual for `and`, `or`, `not`). */
  function Eval(x: Expr, ord: Order, R: Regs): V {
    match x
    case ENil => Nil
    case ETrue => Bool(true)
    case EFalse => Bool(false)
    case EInt(i) => Int(i)
    case EFlt(r) => Flt(r)
    case EStr(s) => Str(s)
    case ELocal(r) => Get(R, r)
    case ENot(e) => Bool(!Truthy(Eval(e, ord, R)))
    case EBin(op, l, r) =>
      var v := Eval(l, ord, R);
      if op.AndOp? then (if Truthy(v) then Eval(r, ord, R) else v)
      else if op.OrOp? then (if Truthy(v) then v else Eval(r, ord, R))
      else Bool(Rel(op, ord, v, Eval(r, ord, R)))
  }

  /** The expression uses only local variables that exist. */
  predicate LocalsBelow(x: Expr, n: nat) {
    match x
    case ELocal(r) => r < n
    case ENot(e) => LocalsBelow(e, n)
    case EBin(_, l, r) => LocalsBelow(l, n) && LocalsBelow(r, n)
    case _ => true
  }

  lemma {:induction false} EvalKeep(x: Expr, ord: Order, R0: Regs, R1: Regs, n: nat)
    requires LocalsBelow(x, n) && Keep(R0, R1, n)
    ensures Eval(x, ord, R1) == Eval(x, ord, R0)
  {
    match x
    case ENot(e) => EvalKeep(e, ord, R0, R1, n);
    case EBin(_, l, r) =>
      EvalKeep(l, ord, R0, R1, n);
      EvalKeep(r, ord, R0, R1, n);
    case _ =>
  }

  predicate IsNum(v: V) {
    v.Int? || v.Flt?
  }

  function AsReal(v: V): real
    requires IsNum(v)
  {
    if v.Int? then v.i as real else v.r
  }

  /** Numbers are compared by their mathematical values, integer or float. */
  ghost predicate NumericOrder(ord: Order) {
    forall v, w :: IsNum(v) && IsNum(w) ==> ord.lt(v, w) == (AsReal(v) < AsReal(w))
                                            && ord.le(v, w) == (AsReal(v) <= AsReal(w))
  }

  predicate IsNumeral(e: Exp) {
    !HasJumps(e) && (e.kind.VKInt? || e.kind.VKFlt?)
  }

  /** `luaV_flttointeger` in mode `F2Ieq` (lvm.c 121-130): the float has an exact integer value, of 64 bits. */
  predicate HasInteger(r: real) {
    r == r.Floor as real && -0x8000_0000_0000_0000 <= r.Floor < 0x8000_0000_0000_0000
  }

  predicate FltIntegral(e: Exp) {
    e.kind.VKFlt? && HasInteger(e.kind.r)
  }

  /** `isSCnumber` (lcode.c 1239-1253): a numeral that fits an operand of eight bits. */
  predicate IsSC(e: Exp) {
    !HasJumps(e) && ((e.kind.VKInt? && FitsC(e.kind.i)) || (FltIntegral(e) && FitsC(e.kind.r.Floor)))
  }

  function ScVal(e: Exp): int
    requires IsSC(e)
  {
    if e.kind.VKInt? then e.kind.i else e.kind.r.Floor
  }

  // ---------------------------------------------------------------- two operands

  ghost predicate Operand(kind: Kind, k: seq<V>) {
    (IsConst(kind) && (kind.VK? ==> kind.kx < |k|)) || (kind.VNonReloc? && kind.reg < 255)
  }

  predicate IsTemp(kind: Kind, nvar: nat) {
    kind.VNonReloc? && kind.reg >= nvar
  }

  /** The registers that two operands occupy are the last ones in use. */
  ghost predicate Temps(ka: Kind, kb: Kind, nvar: nat, base: nat, freereg: nat) {
    && nvar <= base <= freereg < 255
    && (ka.VNonReloc? && ka.reg >= nvar ==> base <= ka.reg < freereg)
    && (kb.VNonReloc? && kb.reg >= nvar ==> base <= kb.reg < freereg)
    && freereg == base + (if IsTemp(ka, nvar) then 1 else 0) + (if IsTemp(kb, nvar) then 1 else 0)
    && (IsTemp(ka, nvar) && IsTemp(kb, nvar) ==> ka.reg != kb.reg)
  }

  /** Both operands have been computed and can be used by an instruction. */
  ghost predicate BothIn(fs: FuncState, ka: Kind, kb: Kind, c: Ctx, va: Regs -> V, vb: Regs -> V)
    reads fs
  {
    && Shaped(fs.P(), fs.lasttarget, Bare(NO_JUMP, NO_JUMP), [], [], c.outer)
    && Denotes(fs.P(), ka, 0, [], [], c.(v := va)) && Denotes(fs.P(), kb, 0, [], [], c.(v := vb))
    && Operand(ka, fs.k) && Operand(kb, fs.k) && Temps(ka, kb, fs.nvar, c.base, fs.freereg)
  }

  /** The first operand is in place in `p1`, and the second one's code follows. */
  ghost predicate FirstIn(fs: FuncState, p1: Prog, e1: Exp, c: Ctx, c2: Ctx, v1: Regs -> V)
    reads fs
  {
    && !HasJumps(e1) && Operand(e1.kind, p1.k) && Denotes(p1, e1.kind, 0, [], [], c.(v := v1)) && p1.k <= fs.k
    && (forall R: Regs :: c2.pre(R) == Run(p1, 0, R)) && c2.outer == c.outer
    && Level(e1.kind, 0, fs.nvar, c.base, c2.base)
  }

  lemma SecondClosed(fs: FuncState, p1: Prog, e1: Exp, e2: Exp, c: Ctx, c2: Ctx, v1: Regs -> V)
    requires FirstIn(fs, p1, e1, c, c2, v1) && fs.Valid(e2, [], [], c2)
          && (InReg(e2) || (IsConst(e2.kind) && !HasJumps(e2)))
    ensures BothIn(fs, e1.kind, e2.kind, c, v1, c2.v)
  {
    hide CodeOk, Run, IsList, Denotes;
    Carried(p1, fs.P(), e1.kind, e2.kind, c, c2, v1);
    assert fs.Solid(e2) == fs.P();
    NoJumpsNoLists(fs.code, e2.t, [], []);
  }

  /** The second operand goes to a register. */
  method CloseSecond(fs: FuncState, e1: Exp, e2: Exp, ghost p1: Prog, ghost ts: seq<nat>, ghost fl: seq<nat>,
          ghost c: Ctx, ghost c2: Ctx, ghost v1: Regs -> V)
    returns (s: Status, e: Exp)
    requires FirstIn(fs, p1, e1, c, c2, v1) && fs.Valid(e2, ts, fl, c2)
    modifies fs
    ensures s.Pass? ==> InReg(e) && BothIn(fs, e1.kind, e.kind, c, v1, c2.v)
                        && Framed(old(fs.code), old(fs.k), fs.code, fs.k, c.outer)
    ensures fs.nvar == old(fs.nvar)
    ensures s.Fail? ==> fs.AtLimit()
  {
    hide Denotes, Run, Framed, Shaped;
    s, e := fs.ExpToAnyReg(e2, ts, fl, c2);
    if s.Pass? {
      FirstStays(fs, p1, e1, c, c2, v1, old(fs.k));
      SecondClosed(fs, p1, e1, e, c, c2, v1);
    }
  }

  lemma FirstStays(fs: FuncState, p1: Prog, e1: Exp, c: Ctx, c2: Ctx, v1: Regs -> V, k0: seq<V>)
    requires !HasJumps(e1) && Operand(e1.kind, p1.k) && Denotes(p1, e1.kind, 0, [], [], c.(v := v1)) && p1.k <= k0
    requires (forall R: Regs :: c2.pre(R) == Run(p1, 0, R)) && c2.outer == c.outer
          && Level(e1.kind, 0, fs.nvar, c.base, c2.base)
    requires exists c0, c1 :: Framed(c0, k0, c1, fs.k, c.outer)
    ensures FirstIn(fs, p1, e1, c, c2, v1)
  {
    hide Denotes, Run;
    var c0, c1 :| Framed(c0, k0, c1, fs.k, c.outer);
  }

  /** Where the program stands, as the surroundings of one more operand. */
  ghost function Here(fs: FuncState, c: Ctx, v: Regs -> V): Ctx
    reads fs
  {
    var p := fs.P();
    Ctx(c.outer, fs.freereg, (R: Regs) => Run(p, 0, R), v)
  }

  lemma ConstHere(fs: FuncState, e: Exp, kb: Kind, c: Ctx, va: Regs -> V, vb: Regs -> V)
    requires BothIn(fs, e.kind, kb, c, va, vb) && IsConst(e.kind) && !HasJumps(e)
    ensures e.t == NO_JUMP && e.f == NO_JUMP ==> fs.Valid(e, [], [], Here(fs, c, va))
    ensures FirstIn(fs, fs.P(), Exp(kb, NO_JUMP, NO_JUMP), c, Here(fs, c, va), vb)
  {
    hide CodeOk, IsList;
    var p, c3 := fs.P(), Here(fs, c, va);
    forall R: Regs ensures DenotesAt(p, e.kind, 0, [], [], c3, R) {
      assert DenotesAt(p, e.kind, 0, [], [], c.(v := va), R);
    }
  }

  lemma BothSwap(fs: FuncState, ka: Kind, kb: Kind, c: Ctx, va: Regs -> V, vb: Regs -> V)
    requires BothIn(fs, ka, kb, c, va, vb)
    ensures BothIn(fs, kb, ka, c, vb, va)
  {
    hide Shaped, Denotes;
  }

  lemma BothLists(fs: FuncState, ka: Kind, kb: Kind, c: Ctx, va: Regs -> V, vb: Regs -> V)
    requires BothIn(fs, ka, kb, c, va, vb)
    ensures CodeOk(fs.P(), fs.lasttarget) && fs.pend == c.outer && forall j :: j in c.outer ==> j < |fs.code|
  {
    BareLists(fs.P(), fs.lasttarget, NO_JUMP, NO_JUMP, [], [], c.outer);
    assert Elems([]) == {};
  }

  /** An operand that is a constant is put into a register; one in a register stays there. */
  method LoadOperand(fs: FuncState, e: Exp, ghost kb: Kind, ghost c: Ctx, ghost va: Regs -> V, ghost vb: Regs -> V)
    returns (s: Status, e1: Exp)
    requires BothIn(fs, e.kind, kb, c, va, vb) && (InReg(e) || (IsConst(e.kind) && e.t == NO_JUMP && e.f == NO_JUMP))
    modifies fs
    ensures s.Pass? ==> InReg(e1) && BothIn(fs, e1.kind, kb, c, va, vb)
                        && Framed(old(fs.code), old(fs.k), fs.code, fs.k, c.outer)
    ensures fs.nvar == old(fs.nvar)
    ensures s.Fail? ==> fs.AtLimit()
  {
    hide Shaped, Denotes, Framed, Run;
    if InReg(e) {
      FramedSelf(fs.code, fs.k, c.outer);
      return Pass, e;
    }
    ConstHere(fs, e, kb, c, va, vb);
    ghost var p, c3, eb, k0 := fs.P(), Here(fs, c, va), Exp(kb, NO_JUMP, NO_JUMP), fs.k;
    s, e1 := fs.ExpToAnyReg(e, [], [], c3);
    if s.Pass? {
      FirstStays(fs, p, eb, c, c3, vb, k0);
      SecondClosed(fs, p, eb, e1, c, c3, vb);
      BothSwap(fs, kb, e1.kind, c, vb, va);
    }
  }

  /** The same with a constant index where that fits (`luaK_exp2RK`). */
  method OperandToRK(fs: FuncState, e: Exp, ghost kb: Kind, ghost c: Ctx, ghost va: Regs -> V, ghost vb: Regs -> V)
    returns (s: Status, e1: Exp, isK: bool)
    requires BothIn(fs, e.kind, kb, c, va, vb) && IsConst(e.kind) && e.t == NO_JUMP && e.f == NO_JUMP
    modifies fs
    ensures s.Pass? ==> BothIn(fs, e1.kind, kb, c, va, vb) && Framed(old(fs.code), old(fs.k), fs.code, fs.k, c.outer)
    ensures s.Pass? ==> if isK then e1.kind.VK? else InReg(e1)
    ensures fs.nvar == old(fs.nvar)
    ensures s.Fail? ==> fs.AtLimit()
  {
    hide Shaped, Denotes, Framed, Run;
    ConstHere(fs, e, kb, c, va, vb);
    ghost var p, c3, eb, k0 := fs.P(), Here(fs, c, va), Exp(kb, NO_JUMP, NO_JUMP), fs.k;
    s, e1, isK := fs.ExpToRK(e, [], [], c3);
    if s.Pass? {
      FirstStays(fs, p, eb, c, c3, vb, k0);
      SecondClosed(fs, p, eb, e1, c, c3, vb);
      BothSwap(fs, kb, e1.kind, c, vb, va);
    }
  }

  /** `freeexps` (lcode.c 535-539): the higher register is freed first. */
  method FreeExps(fs: FuncState, k1: Kind, k2: Kind, ghost base: nat)
    requires Temps(k1, k2, fs.nvar, base, fs.freereg)
    modifies fs`freereg
    ensures fs.freereg == base
  {
    var r1 := if k1.VNonReloc? then k1.reg else -1;
    var r2 := if k2.VNonReloc? then k2.reg else -1;
    if r1 > r2 {
      fs.FreeReg(r1);
      if r2 >= 0 { fs.FreeReg(r2); }
    } else {
      if r2 >= 0 { fs.FreeReg(r2); }
      if r1 >= 0 { fs.FreeReg(r1); }
    }
  }

  /** The comparison itself: both registers are freed, and a test with its jump ends the code. */
  method CodeTest(fs: FuncState, test: Instr, k1: Kind, k2: Kind, ghost rel: (V, V) -> bool, ghost c: Ctx,
          ghost v1: Regs -> V, ghost v2: Regs -> V)
    returns (e: Exp)
    requires BothIn(fs, k1, k2, c, v1, v2) && IsCompare(test) && (test.EqK? ==> test.kx < |fs.k|)
    requires TestRight(fs.P(), test, rel, c, v1, v2)
          && forall R: Regs :: c.pre(R).Fell? ==> c.v(R) == Bool(rel(v1(R), v2(R)))
    modifies fs
    ensures e.kind.VJmp? && e.t == NO_JUMP && e.f == NO_JUMP && fs.Valid(e, [], [], c)
    ensures Framed(old(fs.code), old(fs.k), fs.code, fs.k, c.outer)
    ensures fs.nvar == old(fs.nvar)
  {
    hide Shaped, Denotes, Framed, Run, CodeOk, Outcome;
    ghost var p := fs.P();
    BothLists(fs, k1, k2, c, v1, v2);
    FreeExps(fs, k1, k2, c.base);
    Compared(p, fs.lasttarget, test, k1, k2, rel, c, v1, v2);
    DanglingTest(p, fs.lasttarget, Bare(NO_JUMP, NO_JUMP), [], [], c.outer, test);
    var pc := fs.CondJump(test);
    e := Exp(VJmp(pc), NO_JUMP, NO_JUMP);
    TestShaped(p, fs.lasttarget, test, c.outer);
  }

  ghost predicate TestRight(p: Prog, test: Instr, rel: (V, V) -> bool, c: Ctx, v1: Regs -> V, v2: Regs -> V)
    requires IsTest(test)
  {
    forall R: Regs :: c.pre(R).Fell? && Run(p, 0, R).Fell? ==>
      ((Outcome(test, p.k, p.ord, Run(p, 0, R).R) == test.k) == rel(v1(R), v2(R)))
  }

  lemma TestShaped(p: Prog, label0: nat, test: Instr, outer: set<nat>)
    requires Shaped(p, label0, Bare(NO_JUMP, NO_JUMP), [], [], outer) && IsCompare(test)
          && (test.EqK? ==> test.kx < |p.k|)
    ensures Shaped(WithTest(p, test), label0, Exp(VJmp(|p.code| + 1), NO_JUMP, NO_JUMP), [], [], outer)
  {
    hide Outcome, Run, Tested;
    CondJumped(p, label0, test);
    var q := WithTest(p, test);
    assert q.code[|p.code|] == test && q.code[|p.code| + 1] == Jmp(NO_JUMP);
    PendJumps(p, label0);
    assert Elems([]) == {};
  }

  /** The operands' values where the test reads them. */
  lemma OperandValues(fs: FuncState, k1: Kind, k2: Kind, c: Ctx, v1: Regs -> V, v2: Regs -> V)
    requires BothIn(fs, k1, k2, c, v1, v2)
    ensures forall R: Regs :: c.pre(R).Fell? && Run(fs.P(), 0, R).Fell? ==>
      v1(R) == ValueOf(k1, fs.k, 0, Run(fs.P(), 0, R).R) && v2(R) == ValueOf(k2, fs.k, 0, Run(fs.P(), 0, R).R)
  {
    hide Run, Shaped;
    forall R: Regs | c.pre(R).Fell? && Run(fs.P(), 0, R).Fell?
      ensures v1(R) == ValueOf(k1, fs.k, 0, Run(fs.P(), 0, R).R) && v2(R) == ValueOf(k2, fs.k, 0, Run(fs.P(), 0, R).R)
    {
      assert DenotesAt(fs.P(), k1, 0, [], [], c.(v := v1), R) && DenotesAt(fs.P(), k2, 0, [], [], c.(v := v2), R);
    }
  }

  /** A constant second operand's value, known from the start. */
  lemma ConstValue(fs: FuncState, p1: Prog, e1: Exp, e2: Exp, ts: seq<nat>, fl: seq<nat>, c: Ctx, c2: Ctx,
          v1: Regs -> V)
    requires FirstIn(fs, p1, e1, c, c2, v1) && fs.Valid(e2, ts, fl, c2) && e2.kind.VKFlt? && ts == [] && fl == []
    ensures forall R: Regs :: c.pre(R).Fell? ==> c2.v(R) == Flt(e2.kind.r)
  {
    hide Run, Shaped;
    forall R: Regs | c.pre(R).Fell? ensures c2.v(R) == Flt(e2.kind.r) {
      assert DenotesAt(p1, e1.kind, 0, [], [], c.(v := v1), R) && DenotesAt(fs.P(), e2.kind, 0, ts, fl, c2, R);
    }
  }

  // ---------------------------------------------------------------- comparisons

  function OrderTest(op: BinOp, r1: nat, r2: nat): Instr {
    if op.LtOp? then Lt(r1, r2, true) else Le(r1, r2, true)
  }

  /** `r1 op im`, or with the operands exchanged `im op r1`. */
  function OrderTestI(op: BinOp, left: bool, r1: nat, im: int, isf: bool): Instr {
    if op.LtOp? then (if left then LtI(r1, im, isf, true) else GtI(r1, im, isf, true))
    else if left then LeI(r1, im, isf, true) else GeI(r1, im, isf, true)
  }

  ghost function OrderRel(op: BinOp, swap: bool, ord: Order): (V, V) -> bool {
    (v, w) => Rel(op, ord, if swap then w else v, if swap then v else w)
  }

  lemma OrderRight(fs: FuncState, op: BinOp, swap: bool, k1: Kind, k2: Kind, c: Ctx, v1: Regs -> V, v2: Regs -> V)
    requires BothIn(fs, k1, k2, c, v1, v2) && k1.VNonReloc? && k2.VNonReloc? && (op.LtOp? || op.LeOp?)
    ensures TestRight(fs.P(), OrderTest(op, if swap then k2.reg else k1.reg, if swap then k1.reg else k2.reg),
                      OrderRel(op, swap, fs.ord), c, v1, v2)
  {
    hide Run, Shaped, Denotes;
    OperandValues(fs, k1, k2, c, v1, v2);
  }

  /** One operand in register `k2`, the other the immediate numeral `e1`; `left` if the register is on
      the left of the (exchanged) comparison. `isf` may be set wrongly only if the other operand is a number. */
  lemma OrderIRight(fs: FuncState, op: BinOp, left: bool, flip: bool, isf: bool, e1: Exp, k2: Kind, c: Ctx,
          v1: Regs -> V, v2: Regs -> V)
    requires BothIn(fs, e1.kind, k2, c, v1, v2) && k2.VNonReloc? && IsSC(e1) && (op.LtOp? || op.LeOp?)
          && NumericOrder(fs.ord)
    requires isf == e1.kind.VKFlt? || forall R: Regs :: c.pre(R).Fell? ==> IsNum(v2(R))
    requires flip == left
    ensures TestRight(fs.P(), OrderTestI(op, left, k2.reg, ScVal(e1), isf), OrderRel(op, flip, fs.ord), c, v1, v2)
  {
    hide Run, Shaped, Denotes;
    OperandValues(fs, e1.kind, k2, c, v1, v2);
    var p, im := fs.P(), ScVal(e1);
    forall R: Regs | c.pre(R).Fell? && Run(p, 0, R).Fell?
      ensures (Outcome(OrderTestI(op, left, k2.reg, im, isf), p.k, p.ord, Run(p, 0, R).R) == OrderTestI(op, left,
          k2.reg, im, isf).k)
           == OrderRel(op, flip, fs.ord)(v1(R), v2(R))
    {
      var w := Get(Run(p, 0, R).R, k2.reg);
      assert v2(R) == w && v1(R) == Number(im, e1.kind.VKFlt?);
      if isf != e1.kind.VKFlt? { SameNumber(fs.ord, im, w); }
    }
  }

  lemma SameNumber(ord: Order, im: int, w: V)
    requires NumericOrder(ord) && IsNum(w)
    ensures ord.lt(Int(im), w) == ord.lt(Flt(im as real), w) && ord.le(Int(im), w) == ord.le(Flt(im as real), w)
    ensures ord.lt(w, Int(im)) == ord.lt(w, Flt(im as real)) && ord.le(w, Int(im)) == ord.le(w, Flt(im as real))
  {
    assert IsNum(Int(im)) && IsNum(Flt(im as real));
  }

  /** The relation read with the operands' roles exchanged. */
  lemma TestFlipped(p: Prog, test: Instr, rel: (V, V) -> bool, rel1: (V, V) -> bool, c: Ctx, v1: Regs -> V,
          v2: Regs -> V)
    requires IsTest(test) && TestRight(p, test, rel, c, v2, v1) && forall v, w :: rel1(v, w) == rel(w, v)
    ensures TestRight(p, test, rel1, c, v1, v2)
  {
    hide Run, Outcome;
  }

  /** The source's flag for float operands is set by an integral float in the second operand even when that
      operand is not used as an immediate one (lcode.c 1239-1253, 1493-1516): with jumps in it, the second
      operand may be no number, and then the first one reaches its metamethod as a float. */
  predicate Quirked(first: Exp, second: Exp, swap: bool) {
    !swap && IsSC(first) && first.kind.VKInt? && FltIntegral(second) && HasJumps(second)
  }

  function Seen(first: Exp, quirk: bool, v: V): V
    requires quirk ==> IsSC(first)
  {
    if quirk then Flt(ScVal(first) as real) else v
  }

  lemma QuirkRight(fs: FuncState, op: BinOp, e1: Exp, k2: Kind, c: Ctx, v1: Regs -> V, v2: Regs -> V,
          rel: (V, V) -> bool)
    requires BothIn(fs, e1.kind, k2, c, v1, v2) && k2.VNonReloc? && IsSC(e1) && (op.LtOp? || op.LeOp?)
    requires forall v, w :: rel(v, w) == Rel(op, fs.ord, Flt(ScVal(e1) as real), w)
    ensures TestRight(fs.P(), OrderTestI(op, false, k2.reg, ScVal(e1), true), rel, c, v1, v2)
  {
    hide Run, Shaped, Denotes;
    OperandValues(fs, e1.kind, k2, c, v1, v2);
  }

  /** `codeorder` (lcode.c 1493-1516) with the exchange that `luaK_posfix` makes for `>` and `>=`. */
  method CodeOrder(fs: FuncState, op: BinOp, first: Exp, second: Exp, swap: bool,
                   ghost p1: Prog, ghost ts: seq<nat>, ghost fl: seq<nat>, ghost c: Ctx, ghost c2: Ctx,
                     ghost v1: Regs -> V)
    returns (s: Status, e: Exp)
    requires (op.LtOp? || op.LeOp?) && NumericOrder(fs.ord)
    requires FirstIn(fs, p1, first, c, c2, v1) && (InReg(first) || IsSC(first)) && first.t == NO_JUMP
          && first.f == NO_JUMP
    requires fs.Valid(second, ts, fl, c2) && !second.kind.VLocal?
    requires forall R: Regs :: c.pre(R).Fell? ==>
      c.v(R) == Bool(OrderRel(op, swap, fs.ord)(Seen(first, Quirked(first, second, swap), v1(R)), c2.v(R)))
    modifies fs
    ensures s.Pass? ==> e.kind.VJmp? && e.t == NO_JUMP && e.f == NO_JUMP && fs.Valid(e, [], [], c)
    ensures s.Pass? ==> Framed(old(fs.code), old(fs.k), fs.code, fs.k, c.outer)
    ensures fs.nvar == old(fs.nvar)
    ensures s.Fail? ==> fs.AtLimit()
  {
    hide Shaped, Denotes, Framed, Run, BothIn, TestRight, NumericOrder, FirstIn;
    e := second;
    ghost var c0, k0 := fs.code, fs.k;
    if !HasJumps(second) && IsConst(second.kind) { fs.InRegLists(second, ts, fl, c2); }
    fs.OuterLess(second, ts, fl, c2);
    FirstFields(fs, p1, first, c, c2, v1);
    var e1, e2 := if swap then second else first, if swap then first else second;
    ghost var v2, rel := c2.v, OrderRel(op, swap, fs.ord);
    if !swap && IsSC(e2) {
      SecondClosed(fs, p1, first, second, c, c2, v1);
      var r1 :- LoadOperand(fs, first, second.kind, c, v1, v2);
      ghost var c1, k1 := fs.code, fs.k;
      BothSwap(fs, r1.kind, second.kind, c, v1, v2);
      OrderIRight(fs, op, true, true, e2.kind.VKFlt?, second, r1.kind, c, v2, v1);
      var test := OrderTestI(op, true, r1.kind.reg, ScVal(e2), e2.kind.VKFlt?);
      TestFlipped(fs.P(), test, OrderRel(op, true, fs.ord), rel, c, v1, v2);
      e := CodeTest(fs, test, r1.kind, second.kind, rel, c, v1, v2);
      FramedChain(c0, k0, c1, k1, fs.code, fs.k, c.outer);
    } else if swap && IsSC(e2) {
      var r1 :- CloseSecond(fs, first, second, p1, ts, fl, c, c2, v1);
      ghost var c1, k1 := fs.code, fs.k;
      OrderIRight(fs, op, true, true, e2.kind.VKFlt?, first, r1.kind, c, v1, v2);
      e := CodeTest(fs, OrderTestI(op, true, r1.kind.reg, ScVal(e2), e2.kind.VKFlt?), first.kind, r1.kind, rel, c, v1,
                    v2);
      FramedChain(c0, k0, c1, k1, fs.code, fs.k, c.outer);
    } else if !swap && IsSC(e1) {
      var isf := e1.kind.VKFlt? || FltIntegral(e2);  // the flag is also set by an integral e2 that does not fit
      if isf != e1.kind.VKFlt? && !HasJumps(second) { ConstValue(fs, p1, first, second, ts, fl, c, c2, v1); }
      var r1 :- CloseSecond(fs, first, second, p1, ts, fl, c, c2, v1);
      ghost var c1, k1 := fs.code, fs.k;
      if Quirked(first, second, swap) {
        ghost var rel1: (V, V) -> bool := (v, w) => Rel(op, fs.ord, Flt(ScVal(first) as real), w);
        QuirkRight(fs, op, first, r1.kind, c, v1, v2, rel1);
        e := CodeTest(fs, OrderTestI(op, false, r1.kind.reg, ScVal(e1), isf), first.kind, r1.kind, rel1, c, v1, v2);
      } else {
        OrderIRight(fs, op, false, false, isf, first, r1.kind, c, v1, v2);
        e := CodeTest(fs, OrderTestI(op, false, r1.kind.reg, ScVal(e1), isf), first.kind, r1.kind, rel, c, v1, v2);
      }
      FramedChain(c0, k0, c1, k1, fs.code, fs.k, c.outer);
    } else if swap && IsSC(e1) {
      SecondClosed(fs, p1, first, second, c, c2, v1);
      BothSwap(fs, first.kind, second.kind, c, v1, v2);
      OrderIRight(fs, op, false, false, e1.kind.VKFlt?, second, first.kind, c, v2, v1);
      var test := OrderTestI(op, false, first.kind.reg, ScVal(e1), e1.kind.VKFlt?);
      TestFlipped(fs.P(), test, OrderRel(op, false, fs.ord), rel, c, v1, v2);
      e := CodeTest(fs, test, first.kind, second.kind, rel, c, v1, v2);
    } else {
      var r2 :- CloseSecond(fs, first, second, p1, ts, fl, c, c2, v1);
      ghost var c1, k1 := fs.code, fs.k;
      OrderRight(fs, op, swap, first.kind, r2.kind, c, v1, v2);
      e := CodeTest(fs, OrderTest(op, if swap then r2.kind.reg else first.kind.reg, if swap then first.kind.reg
                                  else r2.kind.reg),
                    first.kind, r2.kind, rel, c, v1, v2);
      FramedChain(c0, k0, c1, k1, fs.code, fs.k, c.outer);
    }
    return Pass, e;
  }

  lemma FirstFields(fs: FuncState, p1: Prog, e1: Exp, c: Ctx, c2: Ctx, v1: Regs -> V)
    requires FirstIn(fs, p1, e1, c, c2, v1)
    ensures c2.outer == c.outer && !HasJumps(e1)
  {}

  // ---------------------------------------------------------------- equality

  lemma EqRight(fs: FuncState, test: Instr, k1: Kind, k2: Kind, c: Ctx, v1: Regs -> V, v2: Regs -> V, neg: bool,
          rel: (V, V) -> bool)
    requires BothIn(fs, k1, k2, c, v1, v2) && IsCompare(test) && test.k == !neg && k1.VNonReloc?
    requires || (k2.VNonReloc? && test == Eq(k1.reg, k2.reg, !neg))
             || (k2.VK? && test == EqK(k1.reg, k2.kx, !neg))
             || (IsSC(Exp(k2, NO_JUMP, NO_JUMP)) && test == EqI(k1.reg, ScVal(Exp(k2, NO_JUMP, NO_JUMP)), !neg))
    requires forall v, w :: rel(v, w) == (LuaEq(v, w) != neg)
    ensures TestRight(fs.P(), test, rel, c, v1, v2) && TestRight(fs.P(), test, rel, c, v2, v1)
  {
    hide Run, Shaped, Denotes;
    OperandValues(fs, k1, k2, c, v1, v2);
  }

  /** `codeeq` (lcode.c 1523-1548): the operand in a register comes first, a constant second. */
  method CodeEq(fs: FuncState, neg: bool, first: Exp, second: Exp,
                ghost p1: Prog, ghost ts: seq<nat>, ghost fl: seq<nat>, ghost c: Ctx, ghost c2: Ctx,
                  ghost v1: Regs -> V)
    returns (s: Status, e: Exp)
    requires FirstIn(fs, p1, first, c, c2, v1) && first.t == NO_JUMP && first.f == NO_JUMP
    requires InReg(first) || first.kind.VK? || first.kind.VKInt? || first.kind.VKFlt?
    requires fs.Valid(second, ts, fl, c2) && !second.kind.VLocal?
    requires forall R: Regs :: c.pre(R).Fell? ==> c.v(R) == Bool(LuaEq(v1(R), c2.v(R)) != neg)
    modifies fs
    ensures s.Pass? ==> e.kind.VJmp? && e.t == NO_JUMP && e.f == NO_JUMP && fs.Valid(e, [], [], c)
    ensures s.Pass? ==> Framed(old(fs.code), old(fs.k), fs.code, fs.k, c.outer)
    ensures fs.nvar == old(fs.nvar)
    ensures s.Fail? ==> fs.AtLimit()
  {
    hide Shaped, Denotes, Framed, Run, BothIn, TestRight, FirstIn;
    e := second;
    ghost var c0, k0, v2 := fs.code, fs.k, c2.v;
    ghost var rel: (V, V) -> bool := (v, w) => LuaEq(v, w) != neg;
    fs.OuterLess(second, ts, fl, c2);
    FirstFields(fs, p1, first, c, c2, v1);
    if InReg(first) {
      if IsSC(second) {
        fs.InRegLists(second, ts, fl, c2);
        SecondClosed(fs, p1, first, second, c, c2, v1);
        SameEnds(fs, second, c2);
        var test := EqI(first.kind.reg, ScVal(second), !neg);
        EqRight(fs, test, first.kind, second.kind, c, v1, v2, neg, rel);
        e := CodeTest(fs, test, first.kind, second.kind, rel, c, v1, v2);
      } else {
        var e2, isK :- SecondToRK(fs, first, second, p1, ts, fl, c, c2, v1);
        ghost var c1, k1 := fs.code, fs.k;
        var test := if isK then EqK(first.kind.reg, e2.kind.kx, !neg) else Eq(first.kind.reg, e2.kind.reg, !neg);
        EqRight(fs, test, first.kind, e2.kind, c, v1, v2, neg, rel);
        KInside(fs, first.kind, e2.kind, c, v1, v2);
        e := CodeTest(fs, test, first.kind, e2.kind, rel, c, v1, v2);
        FramedChain(c0, k0, c1, k1, fs.code, fs.k, c.outer);
      }
    } else {  // operands exchanged
      var r1 :- CloseSecond(fs, first, second, p1, ts, fl, c, c2, v1);
      ghost var c1, k1 := fs.code, fs.k;
      if IsSC(first) {
        BothSwap(fs, first.kind, r1.kind, c, v1, v2);
        var test := EqI(r1.kind.reg, ScVal(first), !neg);
        EqRight(fs, test, r1.kind, first.kind, c, v2, v1, neg, rel);
        e := CodeTest(fs, test, first.kind, r1.kind, rel, c, v1, v2);
        FramedChain(c0, k0, c1, k1, fs.code, fs.k, c.outer);
      } else {
        var e1, isK :- OperandToRK(fs, first, r1.kind, c, v1, v2);
        FramedChain(c0, k0, c1, k1, fs.code, fs.k, c.outer);
        ghost var c3, k3 := fs.code, fs.k;
        BothSwap(fs, e1.kind, r1.kind, c, v1, v2);
        var test := if isK then EqK(r1.kind.reg, e1.kind.kx, !neg) else Eq(r1.kind.reg, e1.kind.reg, !neg);
        EqRight(fs, test, r1.kind, e1.kind, c, v2, v1, neg, rel);
        KInside(fs, e1.kind, r1.kind, c, v1, v2);
        e := CodeTest(fs, test, e1.kind, r1.kind, rel, c, v1, v2);
        FramedChain(c0, k0, c3, k3, fs.code, fs.k, c.outer);
      }
    }
    return Pass, e;
  }

  lemma KInside(fs: FuncState, k1: Kind, k2: Kind, c: Ctx, v1: Regs -> V, v2: Regs -> V)
    requires BothIn(fs, k1, k2, c, v1, v2)
    ensures (k1.VK? ==> k1.kx < |fs.k|) && (k2.VK? ==> k2.kx < |fs.k|)
  {}

  lemma SameEnds(fs: FuncState, e: Exp, c: Ctx)
    requires fs.Valid(e, [], [], c)
    ensures e.t == NO_JUMP && e.f == NO_JUMP
  {
    hide CodeOk, Denotes;
  }

  method SecondToRK(fs: FuncState, e1: Exp, e2: Exp, ghost p1: Prog, ghost ts: seq<nat>, ghost fl: seq<nat>,
          ghost c: Ctx, ghost c2: Ctx, ghost v1: Regs -> V)
    returns (s: Status, e: Exp, isK: bool)
    requires FirstIn(fs, p1, e1, c, c2, v1) && fs.Valid(e2, ts, fl, c2)
    modifies fs
    ensures s.Pass? ==> BothIn(fs, e1.kind, e.kind, c, v1, c2.v)
                        && Framed(old(fs.code), old(fs.k), fs.code, fs.k, c.outer)
    ensures s.Pass? ==> if isK then e.kind.VK? else InReg(e)
    ensures fs.nvar == old(fs.nvar)
    ensures s.Fail? ==> fs.AtLimit()
  {
    hide Denotes, Run, Framed, Shaped;
    s, e, isK := fs.ExpToRK(e2, ts, fl, c2);
    if s.Pass? {
      FirstStays(fs, p1, e1, c, c2, v1, old(fs.k));
      SecondClosed(fs, p1, e1, e, c, c2, v1);
    }
  }

  // ---------------------------------------------------------------- whole expressions

  /** What a descriptor shows of its expression: the kind of its last part. */
  datatype Tail = TInt(i: int) | TFlt(r: real) | TYes | TNo | TOther

  function TailOf(x: Expr): Tail {
    match x
    case ENil => TNo
    case EFalse => TNo
    case ETrue => TYes
    case EStr(_) => TYes
    case EInt(i) => TInt(i)
    case EFlt(r) => TFlt(r)
    case ELocal(_) => TOther
    case ENot(e) => (match TailOf(e) case TNo => TYes case TOther => TOther case _ => TNo)
    case EBin(op, _, r) => if op.AndOp? || op.OrOp? then TailOf(r) else TOther
  }

  function KindTail(k: Kind): Tail {
    match k
    case VNil => TNo
    case VFalse => TNo
    case VTrue => TYes
    case VK(_) => TYes
    case VKStr(_) => TYes
    case VKInt(i) => TInt(i)
    case VKFlt(r) => TFlt(r)
    case _ => TOther
  }

  /** No jump leaves the expression when it is true (`want`), or when it is false. */
  predicate NoExit(x: Expr, want: bool) {
    match x
    case ENot(e) => NoExit(e, !want)
    case EBin(AndOp, l, r) => NoExit(r, want) && (want || (NoExit(l, false) && !TailOf(l).TNo? && !TailOf(l).TOther?))
    case EBin(OrOp, l, r) => NoExit(r, want) && (!want || (NoExit(l, true) && TailOf(l).TNo?))
    case _ => true
  }

  /** A comparison whose first operand is a small integer and whose second may be something else or an
      integral float: the first one is passed on as a float. */
  predicate Quirk(l: Expr, r: Expr) {
    && TailOf(l).TInt? && FitsC(TailOf(l).i) && NoExit(l, true) && NoExit(l, false)
    && TailOf(r).TFlt? && HasInteger(TailOf(r).r) && !(NoExit(r, true) && NoExit(r, false))
  }

  /** The value that the generated code computes. */
  function Coded(x: Expr, ord: Order, R: Regs): V {
    match x
    case ENot(e) => Bool(!Truthy(Coded(e, ord, R)))
    case EBin(op, l, r) =>
      var v := Coded(l, ord, R);
      if op.AndOp? then (if Truthy(v) then Coded(r, ord, R) else v)
      else if op.OrOp? then (if Truthy(v) then v else Coded(r, ord, R))
      else if (op.LtOp? || op.LeOp?) && Quirk(l, r) then Bool(Rel(op, ord, Flt(TailOf(l).i as real), Coded(r, ord, R)))
      else Bool(Rel(op, ord, v, Coded(r, ord, R)))
    case _ => Eval(x, ord, R)
  }

  predicate QuirkFree(x: Expr) {
    match x
    case ENot(e) => QuirkFree(e)
    case EBin(op, l, r) => QuirkFree(l) && QuirkFree(r) && !((op.LtOp? || op.LeOp?) && Quirk(l, r))
    case _ => true
  }

  /** Without such a comparison the code computes the expression's value. */
  lemma {:induction false} CodedRight(x: Expr, ord: Order, R: Regs)
    requires QuirkFree(x)
    ensures Coded(x, ord, R) == Eval(x, ord, R)
  {
    match x
    case ENot(e) => CodedRight(e, ord, R);
    case EBin(_, l, r) =>
      CodedRight(l, ord, R);
      CodedRight(r, ord, R);
    case _ =>
  }

  /** The order treats an integer that fits an operand and the float of the same value alike. */
  ghost predicate FloatBlind(ord: Order) {
    forall i: int, w: V {:trigger ord.lt(Int(i), w)} {:trigger ord.le(Int(i), w)} :: FitsC(i) ==>
      ord.lt(Int(i), w) == ord.lt(Flt(i as real), w) && ord.le(Int(i), w) == ord.le(Flt(i as real), w)
  }

  /** A jump-free integer has that value. */
  lemma {:induction false} IntValue(x: Expr, ord: Order, R: Regs)
    requires TailOf(x).TInt? && NoExit(x, true) && NoExit(x, false)
    ensures Coded(x, ord, R) == Int(TailOf(x).i) && Eval(x, ord, R) == Int(TailOf(x).i)
  {
    match x
    case EBin(op, l, r) =>
      IntValue(r, ord, R);
      if op.AndOp? { ConstTruth(l, ord, R, true); } else { ConstTruth(l, ord, R, false); }
    case _ =>
  }

  /** The truth of an expression that never leaves by a jump the other way. */
  lemma {:induction false} ConstTruth(x: Expr, ord: Order, R: Regs, truth: bool)
    requires NoExit(x, !truth) && if truth then !TailOf(x).TNo? && !TailOf(x).TOther? else TailOf(x).TNo?
    ensures Truthy(Coded(x, ord, R)) == truth && Truthy(Eval(x, ord, R)) == truth
  {
    match x
    case ENot(e) => ConstTruth(e, ord, R, !truth);
    case EBin(op, l, r) =>
      ConstTruth(r, ord, R, truth);
      if op.AndOp? && !truth {} else if op.OrOp? && truth {} else {
        ConstTruth(l, ord, R, op.AndOp?);
      }
    case _ =>
  }

  /** With an order that is blind to the difference, the code computes the value of every expression. */
  lemma {:induction false} CodedBlind(x: Expr, ord: Order, R: Regs)
    requires FloatBlind(ord)
    ensures Coded(x, ord, R) == Eval(x, ord, R)
  {
    match x
    case ENot(e) => CodedBlind(e, ord, R);
    case EBin(op, l, r) =>
      CodedBlind(l, ord, R);
      CodedBlind(r, ord, R);
      if (op.LtOp? || op.LeOp?) && Quirk(l, r) {
        IntValue(l, ord, R);
        assert ord.lt(Int(TailOf(l).i), Eval(r, ord, R)) == ord.lt(Flt(TailOf(l).i as real), Eval(r, ord, R));
        assert ord.le(Int(TailOf(l).i), Eval(r, ord, R)) == ord.le(Flt(TailOf(l).i as real), Eval(r, ord, R));
      }
    case _ =>
  }

  /** An order in which only integers come before things that are no numbers. */
  function PickyOrder(): Order {
    Order((v, w) => if IsNum(v) && IsNum(w) then AsReal(v) < AsReal(w) else v.Int?,
          (v, w) => if IsNum(v) && IsNum(w) then AsReal(v) <= AsReal(w) else v.Int?)
  }

  lemma Thousand()
    ensures HasInteger(1000.0)
  {
    assert (1000 as real).Floor == 1000;
    assert 1000 as real == 1000.0;
  }

  /** `5 < (a or 1000.0)` for an `a` whose comparison tells integers from floats. */
  lemma QuirkShown(R: Regs)
    requires R[0] == Other(0)
    ensures var x := EBin(LtOp, EInt(5), EBin(OrOp, ELocal(0), EFlt(1000.0)));
      NumericOrder(PickyOrder()) && Eval(x, PickyOrder(), R) == Bool(true) && Coded(x, PickyOrder(), R) == Bool(false)
  {
    var ord, r := PickyOrder(), EBin(OrOp, ELocal(0), EFlt(1000.0));
    Thousand();
    assert Quirk(EInt(5), r);
    assert Eval(ELocal(0), ord, R) == Other(0) && Coded(ELocal(0), ord, R) == Other(0);
    assert Coded(r, ord, R) == Other(0) && Eval(r, ord, R) == Other(0);
    assert Rel(LtOp, ord, Flt(5 as real), Other(0)) == false && Rel(LtOp, ord, Int(5), Other(0)) == true;
  }

  /** A comparison in which the integer `i` meets the value `w` as a float. */
  function QuirkExpr(op: BinOp, i: int, w: V): Expr {
    EBin(op, EInt(i), EBin(if Truthy(w) then OrOp else AndOp, ELocal(0), EFlt(1000.0)))
  }

  lemma QuirkMeets(op: BinOp, ord: Order, i: int, w: V, R: Regs)
    requires FitsC(i) && (op.LtOp? || op.LeOp?) && R[0] == w
    ensures Coded(QuirkExpr(op, i, w), ord, R) == Bool(Rel(op, ord, Flt(i as real), w))
    ensures Eval(QuirkExpr(op, i, w), ord, R) == Bool(Rel(op, ord, Int(i), w))
  {
    var r := EBin(if Truthy(w) then OrOp else AndOp, ELocal(0), EFlt(1000.0));
    Thousand();
    assert Quirk(EInt(i), r);
    assert Eval(EInt(i), ord, R) == Int(i);
    LocalChosen(ord, w, R);
  }

  /** Whichever way the value is, the operand that is a local gives it. */
  lemma LocalChosen(ord: Order, w: V, R: Regs)
    requires R[0] == w
    ensures var r := EBin(if Truthy(w) then OrOp else AndOp, ELocal(0), EFlt(1000.0));
      Coded(r, ord, R) == w && Eval(r, ord, R) == w
  {
    assert Coded(ELocal(0), ord, R) == w && Eval(ELocal(0), ord, R) == w;
  }

  /** The code computes the value of every expression in every state of the registers if and only if the comparison
      cannot tell small integers from the floats of the same value. */
  lemma QuirkExact(ord: Order)
    ensures (forall x: Expr, R: Regs :: Coded(x, ord, R) == Eval(x, ord, R)) <==> FloatBlind(ord)
  {
    hide Coded, Eval;
    if FloatBlind(ord) {
      forall x: Expr, R: Regs ensures Coded(x, ord, R) == Eval(x, ord, R) { CodedBlind(x, ord, R); }
    } else {
      var i: int, w: V :| FitsC(i) &&
        !(ord.lt(Int(i), w) == ord.lt(Flt(i as real), w) && ord.le(Int(i), w) == ord.le(Flt(i as real), w));
      var R: Regs := seq(255, _ => w);
      QuirkMeets(LtOp, ord, i, w, R);
      QuirkMeets(LeOp, ord, i, w, R);
      assert Coded(QuirkExpr(LtOp, i, w), ord, R) != Eval(QuirkExpr(LtOp, i, w), ord, R)
        || Coded(QuirkExpr(LeOp, i, w), ord, R) != Eval(QuirkExpr(LeOp, i, w), ord, R);
    }
  }

  lemma {:induction false} CodedKeep(x: Expr, ord: Order, R0: Regs, R1: Regs, n: nat)
    requires LocalsBelow(x, n) && Keep(R0, R1, n)
    ensures Coded(x, ord, R1) == Coded(x, ord, R0)
  {
    match x
    case ENot(e) => CodedKeep(e, ord, R0, R1, n);
    case EBin(_, l, r) =>
      CodedKeep(l, ord, R0, R1, n);
      CodedKeep(r, ord, R0, R1, n);
    case _ => EvalKeep(x, ord, R0, R1, n);
  }

  ghost function ValOf(pre: Regs -> Exit, x: Expr, ord: Order): Regs -> V {
    (R: Regs) => if pre(R).Fell? then Coded(x, ord, pre(R).R) else Nil
  }

  ghost predicate Agrees(c: Ctx, v: Regs -> V) {
    forall R: Regs :: c.pre(R).Fell? ==> c.v(R) == v(R)
  }

  /** Where the code of an expression begins. */
  ghost predicate Ready(fs: FuncState, x: Expr, c: Ctx)
    reads fs
  {
    && CodeOk(fs.P(), fs.lasttarget) && fs.pend == c.outer && fs.freereg == c.base && fs.nvar <= c.base < 255
    && LocalsBelow(x, fs.nvar) && NumericOrder(fs.ord) && (forall R: Regs :: c.pre(R) == Run(fs.P(), 0, R))
    && Agrees(c, ValOf(c.pre, x, fs.ord))
  }

  /** The code of an expression is there, and its descriptor shows what kind of expression it was. */
  ghost predicate Compiled(fs: FuncState, x: Expr, e: Exp, ts: seq<nat>, fl: seq<nat>, c: Ctx)
    reads fs
  {
    && fs.Valid(e, ts, fl, c) && KindTail(e.kind) == TailOf(x) && !e.kind.VK?
    && (ts == [] <==> NoExit(x, true)) && (fl == [] <==> NoExit(x, false))
  }

  lemma CtxSame(fs: FuncState, e: Exp, ts: seq<nat>, fl: seq<nat>, c1: Ctx, c: Ctx)
    requires fs.Valid(e, ts, fl, c1) && c1 == c.(v := c1.v) && Agrees(c, c1.v)
    ensures fs.Valid(e, ts, fl, c)
  {
    hide Shaped, Run;
    var p, nb := fs.Solid(e), fs.NotReg(e);
    forall R: Regs ensures DenotesAt(p, e.kind, nb, ts, fl, c, R) { assert DenotesAt(p, e.kind, nb, ts, fl, c1, R); }
  }

  lemma LeafValid(fs: FuncState, x: Expr, kind: Kind, c: Ctx)
    requires Ready(fs, x, c) && (kind.VLocal? ==> kind.reg < fs.nvar) && !kind.VJmp? && !kind.VReloc? && !kind.VK?
          && !kind.VNonReloc?
    requires forall R: Regs :: ValueOf(kind, fs.k, 0, R) == Coded(x, fs.ord, R)
    ensures fs.Valid(Exp(kind, NO_JUMP, NO_JUMP), [], [], c) && Framed(fs.code, fs.k, fs.code, fs.k, c.outer)
  {
    hide CodeOk, Run, Coded, ValueOf;
    forall R: Regs ensures DenotesAt(fs.P(), kind, 0, [], [], c, R) { LeafAt(fs, x, kind, c, R); }
    assert Elems([]) == {};
  }

  lemma LeafAt(fs: FuncState, x: Expr, kind: Kind, c: Ctx, R: Regs)
    requires Ready(fs, x, c) && !kind.VJmp?
    requires Run(fs.P(), 0, R).Fell? ==>
        ValueOf(kind, fs.k, 0, Run(fs.P(), 0, R).R) == Coded(x, fs.ord, Run(fs.P(), 0, R).R)
    ensures DenotesAt(fs.P(), kind, 0, [], [], c, R)
  {
    hide Run, Coded, ValueOf;
    RunOk(fs.P(), fs.lasttarget, 0, R);
  }

  function LeafKind(x: Expr): Kind
    requires !x.ENot? && !x.EBin?
  {
    match x
    case ENil => VNil
    case ETrue => VTrue
    case EFalse => VFalse
    case EInt(i) => VKInt(i)
    case EFlt(r) => VKFlt(r)
    case EStr(s) => VKStr(s)
    case ELocal(r) => VLocal(r)
  }

  lemma JumpsLists(fs: FuncState, e: Exp, ts: seq<nat>, fl: seq<nat>, c: Ctx)
    requires fs.Core(e, ts, fl, c)
    ensures HasJumps(e) <==> ts != [] || fl != []
    ensures ts == [] && fl == [] ==> e.t == NO_JUMP && e.f == NO_JUMP
    ensures !e.kind.VReloc? ==> fs.Solid(e) == fs.P()
  {
    hide CodeOk, Denotes;
    if ts != [] && fl != [] && e.t == e.f { Apart(ts, fl, ts[0]); }
  }

  // ---------------------------------------------------------------- `and` and `or`

  /** The left operand has gone through; the right one's code begins here. */
  ghost function Right(fs: FuncState, r: Expr, left: seq<nat>, c: Ctx): Ctx
    reads fs
  {
    var p := fs.P();
    var pre := (R: Regs) => Run(p, 0, R);
    Ctx(c.outer + Elems(left), c.base, pre, ValOf(pre, r, fs.ord))
  }

  lemma RightReady(fs: FuncState, r: Expr, l: int, left: seq<nat>, cst: bool, c1: Ctx)
    requires GoneThrough(fs.P(), fs.lasttarget, l, left, cst, c1) && fs.freereg == c1.base && fs.nvar <= c1.base < 255
    requires LocalsBelow(r, fs.nvar) && NumericOrder(fs.ord)
    ensures Ready(fs, r, Right(fs, r, left, c1))
  {
    hide CodeOk, Run, Split;
    assert Elems([]) == {};
  }

  lemma RightValue(fs: FuncState, x: Expr, l: Expr, r: Expr, cst: bool, left: seq<nat>, c: Ctx, c1: Ctx, p1: Prog,
          c2: Ctx)
    requires x.EBin? && x.l == l && x.r2 == r && (if cst then x.op.AndOp? else x.op.OrOp?) && LocalsBelow(r, fs.nvar)
          && fs.nvar <= c.base
    requires Agrees(c, ValOf(c.pre, x, fs.ord)) && c1 == c.(v := ValOf(c.pre, l, fs.ord))
    requires Split(p1, if cst then [] else left, if cst then left else [], cst, c1)
    requires (forall R: Regs :: c2.pre(R) == Run(p1, 0, R)) && c2.v == ValOf(c2.pre, r, fs.ord)
    ensures forall R: Regs :: c.pre(R).Fell? ==> c.v(R) == if Truthy(c1.v(R)) == cst then c2.v(R) else c1.v(R)
  {
    hide Run, Coded;
    forall R: Regs | c.pre(R).Fell? ensures c.v(R) == if Truthy(c1.v(R)) == cst then c2.v(R) else c1.v(R) {
      assert SplitAt(p1, if cst then [] else left, if cst then left else [], cst, c1, R);
      CodedBin(x, fs.ord, c.pre(R).R);
      if c2.pre(R).Fell? {
        assert Keep(c.pre(R).R, c2.pre(R).R, fs.nvar);
        CodedKeep(r, fs.ord, c.pre(R).R, c2.pre(R).R, fs.nvar);
      }
    }
  }

  lemma CodedBin(x: Expr, ord: Order, R: Regs)
    requires x.EBin? && (x.op.AndOp? || x.op.OrOp?)
    ensures Coded(x, ord, R) == if Truthy(Coded(x.l, ord, R)) == x.op.AndOp? then Coded(x.r2, ord, R)
        else Coded(x.l, ord, R)
  {}

  lemma Relinks(p: Prog, q: Prog, label0: nat, js: seq<nat>)
    requires CodeOk(p, label0) && Relinked(p.code, q.code, js) && q == p.(code := q.code) && Elems(js) <= p.pend
    ensures CodeOk(q, label0) && SameRuns(p, q) && |q.code| == |p.code|
    ensures forall i :: 0 <= i < |q.code| ==> q.code[i] == p.code[i] || (i in js && q.code[i].Jmp? && p.code[i].Jmp?)
  {
    if js != [] {
      var j := js[|js| - 1];
      assert j in js && j in Elems(js);
      PendJumps(p, label0);
      RelinkedOk(p, label0, j, q.code[j].sj);
      forall R: Regs ensures Run(q, 0, R) == Run(p, 0, R) { RunRelinked(p, label0, j, q.code[j].sj, 0, R); }
    }
  }

  /** The code with and without the pending NOT. */
  lemma WithNot(fs: FuncState, e: Exp, ts: seq<nat>, fl: seq<nat>, c: Ctx)
    requires fs.Core(e, ts, fl, c)
    ensures CodeOk(fs.Solid(e), fs.lasttarget) && CodeOk(fs.P(), fs.lasttarget) && IsList(fs.code, e.t, ts)
          && IsList(fs.code, e.f, fl) && NoDup(ts + fl)
    ensures AllJumps(fs.Solid(e).code, ts) && AllJumps(fs.Solid(e).code, fl) && Elems(ts) <= fs.pend
          && Elems(fl) <= fs.pend
    ensures c.outer !! Elems(ts) && c.outer !! Elems(fl) && forall j :: j in c.outer ==>
              j < |fs.Solid(e).code| && fs.Solid(e).code[j].Jmp?
    ensures c.outer <= fs.pend && (e.kind.VReloc? ==> fs.code == fs.Solid(e).code + [fs.code[|fs.code| - 1]])
  {
    hide Denotes;
    var p := fs.Solid(e);
    ShapedLists(p, fs.lasttarget, e, ts, fl, c.outer);
    if e.kind.VReloc? {
      var tail := [fs.code[|fs.code| - 1]];
      assert fs.code == p.code + tail;
      LongLists(p.code, fs.code, tail, e.t, ts, e.f, fl);
      ExtendsCode(p, tail, p.k);
      assert fs.P() == p.(code := p.code + tail, k := p.k);
      assert fs.code[|p.code|].Not?;
      ExtendOk(p, fs.P(), fs.lasttarget, fs.lasttarget);
    }
  }

  /** The lists of both operands have become one. */
  lemma JoinShape(p: Prog, q: Prog, label0: nat, e: Exp, ts: seq<nat>, fl: seq<nat>, left: seq<nat>, cst: bool,
          l: int, outer: set<nat>)
    requires Shaped(p, label0, e, ts, fl, outer + Elems(left)) && outer !! Elems(left) && NoDup(left)
          && CodeOk(q, label0) && q == p.(code := q.code)
    requires |q.code| == |p.code| && IsList(q.code, l, (if cst then fl else ts) + left)
    requires forall i :: 0 <= i < |q.code| ==>
              q.code[i] == p.code[i] || (i in (if cst then fl else ts) && q.code[i].Jmp? && p.code[i].Jmp?)
    ensures Shaped(q, label0, if cst then e.(f := l) else e.(t := l), if cst then ts else ts + left,
                   if cst then fl + left else fl, outer)
    ensures Framed(p.code, p.k, q.code, q.k, outer) && forall js: seq<nat> :: SetsAgree(p.code, q.code, js)
  {
    hide CodeOk, IsList;
    var js, others := if cst then fl else ts, if cst then ts else fl;
    forall j | j in others ensures j !in js { Apart(ts, fl, j); }
    ShapedLists(p, label0, e, ts, fl, outer + Elems(left));
    ListKept(p.code, q.code, if cst then e.t else e.f, others);
    assert Elems(js + left) == Elems(js) + Elems(left);
    JoinNoDup(ts, fl, left, cst);
    forall j | j in outer ensures j !in js { assert j in js ==> j in Elems(js); }
    forall j: nat ensures IsSet(q.code, j) == IsSet(p.code, j) {}
    if e.kind.VJmp? { assert e.kind.pc !in js by { NotIn(js, e.kind.pc); } }
  }

  lemma JoinNoDup(ts: seq<nat>, fl: seq<nat>, left: seq<nat>, cst: bool)
    requires NoDup(ts + fl) && NoDup(left) && Elems(left) !! Elems(ts) && Elems(left) !! Elems(fl)
    ensures NoDup((if cst then ts else ts + left) + (if cst then fl + left else fl))
  {
    forall j | j in left ensures j !in ts && j !in fl {
      assert j in Elems(left) && (j in ts ==> j in Elems(ts)) && (j in fl ==> j in Elems(fl));
    }
    if cst {
      assert ts + (fl + left) == (ts + fl) + left;
      NoDupJoin(ts + fl, left);
    } else {
      Swapped(ts, fl);
      NoDupJoin(fl + ts, left);
      assert (fl + ts) + left == fl + (ts + left);
      Swapped(fl, ts + left);
    }
  }

  lemma NoDupJoin(a: seq<nat>, b: seq<nat>)
    requires NoDup(a) && NoDup(b) && forall j :: j in b ==> j !in a
    ensures NoDup(a + b)
  {
    forall i, j | 0 <= i < j < |a + b| ensures (a + b)[i] != (a + b)[j] {
      if i < |a| <= j { assert (a + b)[j] in b; }
    }
  }

  /** The last step of `luaK_posfix` for `and` and `or` (lcode.c 1649-1658). */
  method JoinLeft(fs: FuncState, e2: Exp, l: int, cst: bool, ghost left: seq<nat>, ghost ts: seq<nat>,
          ghost fl: seq<nat>,
                  ghost p1: Prog, ghost c: Ctx, ghost c1: Ctx, ghost c2: Ctx)
    returns (s: Status, e: Exp)
    requires fs.Valid(e2, ts, fl, c2) && IsList(fs.code, l, left) && NoDup(left)
          && SetsAgree(p1.code, fs.Solid(e2).code, left)
    requires Split(p1, if cst then [] else left, if cst then left else [], cst, c1) && c1 == c.(v := c1.v)
    requires c2.base == c.base && c2.outer == c.outer + Elems(left) && c.outer !! Elems(left)
    requires forall R: Regs :: c2.pre(R) == Run(p1, 0, R)
    requires forall R: Regs :: c.pre(R).Fell? ==> c.v(R) == if Truthy(c1.v(R)) == cst then c2.v(R) else c1.v(R)
    modifies fs
    ensures s.Pass? ==> e == (if cst then e2.(f := e.f) else e2.(t := e.t))
                                                             && fs.Valid(e, if cst then ts else ts + left,
                                                                         if cst then fl + left else fl, c)
    ensures s.Pass? ==> Framed(old(fs.code), old(fs.k), fs.code, fs.k, c.outer)
    ensures fs.nvar == old(fs.nvar)
    ensures s.Fail? ==> fs.AtLimit()
  {
    ValidParts(fs, e2, ts, fl, c2);
    hide Shaped, Denotes, Framed, Run, CodeOk, Split, IsList, SameRuns, Relinked, SetsAgree, AllJumps, NoDup, Level,
      Elems, Truthy;
    hide FuncState.AtLimit, FuncState.Valid, FuncState.Core;
    e := e2;
    ghost var p, c0 := fs.Solid(e2), fs.code;
    ghost var js := if cst then fl else ts;
    WithNot(fs, e2, ts, fl, c2);
    LeftApart(ts, fl, left, js, c.outer, c2);
    var l1 :- fs.Concat(if cst then e2.f else e2.t, l, js, left);
    e := if cst then e2.(f := l1) else e2.(t := l1);
    ghost var q := fs.Solid(e);
    CutRelinked(c0, fs.code, p.code, q.code, js, l1, left);
    JoinEnd(p, q, fs.lasttarget, e2, old(fs.NotReg(e2)), ts, fl, left, cst, l1, p1, c, c1, c2);
    JoinFrame(c0, fs.code, p, q, e2.kind, c.outer);
    ValidParts(fs, e, if cst then ts else ts + left, if cst then fl + left else fl, c);
    return Pass, e;
  }

  lemma ValidParts(fs: FuncState, e: Exp, ts: seq<nat>, fl: seq<nat>, c: Ctx)
    ensures fs.Valid(e, ts, fl, c) <==>
      && (e.kind.VReloc? ==> |fs.code| > 0 && e.kind.pc == |fs.code| - 1 && fs.code[|fs.code| - 1].Not?)
      && Shaped(fs.Solid(e), fs.lasttarget, e, ts, fl, c.outer) && Denotes(fs.Solid(e), e.kind, fs.NotReg(e), ts, fl, c)
      && Level(e.kind, fs.NotReg(e), fs.nvar, c.base, fs.freereg)
    ensures fs.Valid(e, ts, fl, c) ==> fs.Core(e, ts, fl, c)
  {
    hide Shaped, Denotes, Level;
  }

  lemma JoinEnd(p: Prog, q: Prog, label0: nat, e: Exp, nb: nat, ts: seq<nat>, fl: seq<nat>, left: seq<nat>, cst: bool,
          l: int, p1: Prog, c: Ctx, c1: Ctx, c2: Ctx)
    requires Shaped(p, label0, e, ts, fl, c.outer + Elems(left)) && Denotes(p, e.kind, nb, ts, fl, c2) && NoDup(left)
          && c.outer !! Elems(left)
    requires CodeOk(p, label0) && Relinked(p.code, q.code, if cst then fl else ts) && q == p.(code := q.code)
          && Elems(if cst then fl else ts) <= p.pend
    requires IsList(q.code, l, (if cst then fl else ts) + left) && SetsAgree(p1.code, p.code, left)
    requires Split(p1, if cst then [] else left, if cst then left else [], cst, c1) && c1 == c.(v := c1.v)
    requires c2.base == c.base && c2.outer == c.outer + Elems(left) && forall R: Regs :: c2.pre(R) == Run(p1, 0, R)
    requires forall R: Regs :: c.pre(R).Fell? ==> c.v(R) == if Truthy(c1.v(R)) == cst then c2.v(R) else c1.v(R)
    ensures var ts1, fl1 := if cst then ts else ts + left, if cst then fl + left else fl;
      Shaped(q, label0, if cst then e.(f := l) else e.(t := l), ts1, fl1, c.outer)
        && Denotes(q, e.kind, nb, ts1, fl1, c)
    ensures Framed(p.code, p.k, q.code, q.k, c.outer) && |q.code| == |p.code|
  {
    hide Shaped, Denotes, Framed, Run, CodeOk, Split, IsList, SameRuns, Relinked, SetsAgree;
    Relinks(p, q, label0, if cst then fl else ts);
    JoinShape(p, q, label0, e, ts, fl, left, cst, l, c.outer);
    Joined(p1, p, e.kind, nb, ts, fl, left, cst, c, c1, c2);
    var ts1, fl1 := if cst then ts else ts + left, if cst then fl + left else fl;
    DenotesSame(p, q, e.kind, nb, ts1, fl1, ts1, fl1, c);
  }

  lemma LeftApart(ts: seq<nat>, fl: seq<nat>, left: seq<nat>, js: seq<nat>, outer: set<nat>, c2: Ctx)
    requires NoDup(ts + fl) && NoDup(left) && c2.outer == outer + Elems(left) && c2.outer !! Elems(ts)
          && c2.outer !! Elems(fl) && (js == ts || js == fl)
    ensures NoDup(js + left) && forall j :: j in left ==> j in c2.outer
  {
    PartsDistinct(ts, fl);
    forall j | j in left ensures j !in js { assert j in Elems(left); assert j in js ==> j in Elems(js); }
    NoDupJoin(js, left);
  }

  /** A new link in a list, seen in the code without its last instruction. */
  lemma CutRelinked(c0: seq<Instr>, c1: seq<Instr>, s0: seq<Instr>, s1: seq<Instr>, js: seq<nat>, l: int,
          left: seq<nat>)
    requires Relinked(c0, c1, js) && AllJumps(s0, js) && (forall j :: j in left ==> j < |s0|)
          && IsList(c1, l, js + left)
    requires (c0 == s0 && c1 == s1) || (|c0| > 0 && s0 == c0[..|c0| - 1] && |c1| > 0 && s1 == c1[..|c1| - 1])
    ensures Relinked(s0, s1, js) && IsList(s1, l, js + left)
    ensures |c1| == |c0| && forall i :: |s0| <= i < |c0| ==> c1[i] == c0[i]
  {
    if js != [] { assert js[|js| - 1] in js; }
    ListKept(c1, s1, l, js + left);
  }

  lemma JoinFrame(c0: seq<Instr>, c1: seq<Instr>, p: Prog, q: Prog, kind: Kind, outer: set<nat>)
    requires Framed(p.code, p.k, q.code, q.k, outer) && |q.code| == |p.code|
          && (forall j :: j in outer ==> j < |p.code|)
    requires (c0 == p.code && c1 == q.code)
          || (|c0| > 0 && p.code == c0[..|c0| - 1] && |c1| > 0 && q.code == c1[..|c1| - 1])
    ensures Framed(c0, p.k, c1, q.k, outer)
  {
    forall j | j in outer ensures IsSet(c0, j) == IsSet(p.code, j) && IsSet(c1, j) == IsSet(q.code, j) {}
  }

  lemma FramedLess(c0: seq<Instr>, k0: seq<V>, c1: seq<Instr>, k1: seq<V>, outer: set<nat>, less: set<nat>)
    requires Framed(c0, k0, c1, k1, outer) && less <= outer
    ensures Framed(c0, k0, c1, k1, less)
  {}

  /** The left operand's list is untouched by the right operand's code. */
  lemma LeftKept(fs: FuncState, p1: Prog, label0: nat, l: int, left: seq<nat>, cst: bool, c1: Ctx, e2: Exp,
          ts: seq<nat>, fl: seq<nat>, c2: Ctx)
    requires GoneThrough(p1, label0, l, left, cst, c1) && fs.Valid(e2, ts, fl, c2) && c2.outer == c1.outer + Elems(left)
    requires Framed(p1.code, p1.k, fs.code, fs.k, c2.outer)
    ensures IsList(fs.code, l, left) && NoDup(left) && SetsAgree(p1.code, fs.Solid(e2).code, left)
          && c1.outer !! Elems(left)
  {
    hide CodeOk, Split, Denotes, IsSet, IsList;
    BareLists(p1, label0, if cst then NO_JUMP else l, if cst then l else NO_JUMP, if cst then [] else left,
              if cst then left else [], c1.outer);
    assert forall j :: j in left ==> j in c2.outer by { LeftIn(left, c1, c2); }
    ListKept(p1.code, fs.code, l, left);
    WithNot(fs, e2, ts, fl, c2);
    forall j | j in left ensures IsSet(fs.Solid(e2).code, j) == IsSet(p1.code, j) {
      CutSet(fs.code, fs.Solid(e2).code, j);
    }
  }

  lemma LeftIn(left: seq<nat>, c1: Ctx, c2: Ctx)
    requires c2.outer == c1.outer + Elems(left)
    ensures forall j :: j in left ==> j in c2.outer
  {
    forall j | j in left ensures j in c2.outer { assert j in Elems(left); }
  }

  lemma CutSet(c0: seq<Instr>, c1: seq<Instr>, j: nat)
    requires c1 == c0 || (|c0| > 0 && c1 == c0[..|c0| - 1])
    requires j < |c1|
    ensures IsSet(c1, j) == IsSet(c0, j)
  {}

  lemma PartReady(fs: FuncState, x: Expr, y: Expr, c: Ctx)
    requires Ready(fs, x, c) && ((x.ENot? && y == x.e) || (x.EBin? && y == x.l))
    ensures Ready(fs, y, c.(v := ValOf(c.pre, y, fs.ord))) && (x.EBin? ==> LocalsBelow(x.r2, fs.nvar))
  {
    hide CodeOk, Run;
  }

  lemma ReadyOuter(fs: FuncState, x: Expr, c: Ctx)
    requires Ready(fs, x, c)
    ensures forall j :: j in c.outer ==> j < |fs.code|
    ensures fs.freereg == c.base && fs.nvar <= c.base < 255 && Agrees(c, ValOf(c.pre, x, fs.ord))
          && NumericOrder(fs.ord)
  {
    PendJumps(fs.P(), fs.lasttarget);
  }

  /** A whole expression (the walk of `subexpr`, lparser.c 1240-1267). */
  method Compile(fs: FuncState, x: Expr, ghost c: Ctx)
    returns (s: Status, e: Exp, ghost ts: seq<nat>, ghost fl: seq<nat>)
    requires Ready(fs, x, c)
    modifies fs
    ensures s.Pass? ==> Compiled(fs, x, e, ts, fl, c) && Framed(old(fs.code), old(fs.k), fs.code, fs.k, c.outer)
    ensures fs.nvar == old(fs.nvar)
    ensures s.Fail? ==> fs.AtLimit()
    decreases x, 1
  {
    hide Ready, Shaped, Denotes, Framed, Run, CodeOk;
    e, ts, fl := Exp(VNil, NO_JUMP, NO_JUMP), [], [];
    match x {
      case ENot(y) =>
        ghost var c1 := c.(v := ValOf(c.pre, y, fs.ord));
        ghost var c0, k0 := fs.code, fs.k;
        PartReady(fs, x, y, c);
        ReadyOuter(fs, x, c);
        e, ts, fl :- Compile(fs, y, c1);
        fs.DischargedValid(e, ts, fl, c1);
        ghost var c2, k2 := fs.code, fs.k;
        e :- fs.CodeNot(Discharged(e), ts, fl, c1);
        ts, fl := fl, ts;
        CtxSame(fs, e, ts, fl, Opposite(c1), c);
        FramedChain(c0, k0, c2, k2, fs.code, fs.k, c.outer);
        return Pass, e, ts, fl;
      case EBin(op, l, r) =>
        if op.AndOp? || op.OrOp? {
          s, e, ts, fl := CompileLogic(fs, x, c);
        } else {
          s, e, ts, fl := CompileCompare(fs, x, c);
        }
      case _ =>
        LeafValid(fs, x, LeafKind(x), c) by { LeafFacts(fs, x, c); }
        e := Exp(LeafKind(x), NO_JUMP, NO_JUMP);
        return Pass, e, ts, fl;
    }
  }

  lemma LeafFacts(fs: FuncState, x: Expr, c: Ctx)
    requires Ready(fs, x, c) && !x.ENot? && !x.EBin?
    ensures x.ELocal? ==> x.reg < fs.nvar
    ensures forall R: Regs :: ValueOf(LeafKind(x), fs.k, 0, R) == Coded(x, fs.ord, R)
  {}

  method CompileLogic(fs: FuncState, x: Expr, ghost c: Ctx)
    returns (s: Status, e: Exp, ghost ts: seq<nat>, ghost fl: seq<nat>)
    requires Ready(fs, x, c) && x.EBin? && (x.op.AndOp? || x.op.OrOp?)
    modifies fs
    ensures s.Pass? ==> Compiled(fs, x, e, ts, fl, c) && Framed(old(fs.code), old(fs.k), fs.code, fs.k, c.outer)
    ensures fs.nvar == old(fs.nvar)
    ensures s.Fail? ==> fs.AtLimit()
    decreases x, 0
  {
    hide Ready, Shaped, Denotes, Framed, Run, CodeOk, GoneThrough, Split, IsList, SetsAgree, Coded, NoDup;
    hide FuncState.AtLimit, Elems, Level;
    e, ts, fl := Exp(VNil, NO_JUMP, NO_JUMP), [], [];
    var cst := x.op.AndOp?;
    ghost var c1 := c.(v := ValOf(c.pre, x.l, fs.ord));
    ghost var c0, k0 := fs.code, fs.k;
    PartReady(fs, x, x.l, c);
    ReadyOuter(fs, x, c);
    e, ts, fl :- Compile(fs, x.l, c1);
    ghost var cl, kl := fs.code, fs.k;
    var l: int;
    ghost var left;
    if cst {
      l, left :- fs.GoIfTrue(e, ts, fl, c1);
    } else {
      l, left :- fs.GoIfFalse(e, ts, fl, c1);
    }
    FramedChain(c0, k0, cl, kl, fs.code, fs.k, c.outer);
    ghost var cf, kf := fs.code, fs.k;
    e, ts, fl :- CompileRight(fs, x, l, left, c, c1);
    FramedChain(c0, k0, cf, kf, fs.code, fs.k, c.outer);
    return Pass, e, ts, fl;
  }

  /** The right operand, to which control gets when the left one decides nothing. */
  method CompileRight(fs: FuncState, x: Expr, l: int, ghost left: seq<nat>, ghost c: Ctx, ghost c1: Ctx)
    returns (s: Status, e: Exp, ghost ts: seq<nat>, ghost fl: seq<nat>)
    requires x.EBin? && (x.op.AndOp? || x.op.OrOp?) && GoneThrough(fs.P(), fs.lasttarget, l, left, x.op.AndOp?, c1)
    requires fs.freereg == c.base && fs.nvar <= c.base < 255 && LocalsBelow(x.r2, fs.nvar) && NumericOrder(fs.ord)
    requires Agrees(c, ValOf(c.pre, x, fs.ord)) && c1 == c.(v := ValOf(c.pre, x.l, fs.ord))
    requires left == [] <==> if x.op.AndOp? then NoExit(x.l, false) && !TailOf(x.l).TNo? && !TailOf(x.l).TOther?
                             else NoExit(x.l, true) && TailOf(x.l).TNo?
    modifies fs
    ensures s.Pass? ==> Compiled(fs, x, e, ts, fl, c) && Framed(old(fs.code), old(fs.k), fs.code, fs.k, c.outer)
    ensures fs.nvar == old(fs.nvar)
    ensures s.Fail? ==> fs.AtLimit()
    decreases x, 0, 0
  {
    hide Ready, Shaped, Denotes, Framed, Run, CodeOk, GoneThrough, Split, IsList, SetsAgree, Coded, NoDup;
    hide FuncState.AtLimit, Elems, Level;
    e, ts, fl := Exp(VNil, NO_JUMP, NO_JUMP), [], [];
    var cst := x.op.AndOp?;
    ghost var p1, label1, c2 := fs.P(), fs.lasttarget, Right(fs, x.r2, left, c1);
    RightReady(fs, x.r2, l, left, cst, c1);
    ReadyOuter(fs, x.r2, c2);
    var e2;
    ghost var ts2, fl2;
    e2, ts2, fl2 :- Compile(fs, x.r2, c2);
    FramedLess(p1.code, p1.k, fs.code, fs.k, c2.outer, c.outer);
    fs.DischargedValid(e2, ts2, fl2, c2);
    e2 := Discharged(e2);
    LeftKept(fs, p1, label1, l, left, cst, c1, e2, ts2, fl2, c2);
    assert Split(p1, if cst then [] else left, if cst then left else [], cst, c1) by {
      ThroughSplit(p1, label1, l, left, cst, c1);
    }
    RightValue(fs, x, x.l, x.r2, cst, left, c, c1, p1, c2);
    ghost var c3, k3 := fs.code, fs.k;
    e :- JoinLeft(fs, e2, l, cst, left, ts2, fl2, p1, c, c1, c2);
    FramedChain(p1.code, p1.k, c3, k3, fs.code, fs.k, c.outer);
    ts, fl := if cst then ts2 else ts2 + left, if cst then fl2 + left else fl2;
    return Pass, e, ts, fl;
  }

  lemma ThroughSplit(p: Prog, label0: nat, l: int, left: seq<nat>, cst: bool, c: Ctx)
    requires GoneThrough(p, label0, l, left, cst, c)
    ensures Split(p, if cst then [] else left, if cst then left else [], cst, c)
  {}

  // ---------------------------------------------------------------- comparisons as expressions

  /** The first operand of a comparison has been put where the comparison needs it (`luaK_infix`). */
  lemma FirstReady1(fs: FuncState, r: Expr, e1: Exp, c: Ctx, v1: Regs -> V)
    requires fs.Valid(e1, [], [], c.(v := v1)) && (InReg(e1) || IsConst(e1.kind)) && LocalsBelow(r, fs.nvar)
          && NumericOrder(fs.ord)
    ensures var c2 := Here(fs, c, ValOf(Here(fs, c, v1).pre, r, fs.ord));
      && Ready(fs, r, c2) && FirstIn(fs, fs.P(), e1, c, c2, v1) && e1.t == NO_JUMP && e1.f == NO_JUMP
      && Operand(e1.kind, fs.k) && Level(e1.kind, 0, fs.nvar, c.base, c2.base) && !HasJumps(e1)
    ensures Denotes(fs.P(), e1.kind, 0, [], [], c.(v := v1)) && !e1.kind.VJmp?
  {
    hide Run, Denotes;
    JumpsLists(fs, e1, [], [], c.(v := v1));
    assert Elems([]) == {};
  }

  lemma CompareValue(fs: FuncState, x: Expr, e1: Exp, p1: Prog, c: Ctx, c2: Ctx, quirk: bool)
    requires x.EBin? && !x.op.AndOp? && !x.op.OrOp? && LocalsBelow(x.r2, fs.nvar) && fs.nvar <= c.base
          && Agrees(c, ValOf(c.pre, x, fs.ord))
    requires Denotes(p1, e1.kind, 0, [], [], c.(v := ValOf(c.pre, x.l, fs.ord))) && !e1.kind.VJmp?
    requires (forall R: Regs :: c2.pre(R) == Run(p1, 0, R)) && c2.v == ValOf(c2.pre, x.r2, fs.ord)
    requires quirk == ((x.op.LtOp? || x.op.LeOp?) && Quirk(x.l, x.r2))
          && (quirk ==> IsSC(e1) && KindTail(e1.kind) == TailOf(x.l))
    ensures forall R: Regs :: c.pre(R).Fell? ==>
      c.v(R) == Bool(Rel(x.op, fs.ord, Seen(e1, quirk, ValOf(c.pre, x.l, fs.ord)(R)), c2.v(R)))
  {
    hide Run;
    forall R: Regs | c.pre(R).Fell? ensures c.v(R) ==
      Bool(Rel(x.op, fs.ord, Seen(e1, quirk, ValOf(c.pre, x.l, fs.ord)(R)), c2.v(R))) {
      assert DenotesAt(p1, e1.kind, 0, [], [], c.(v := ValOf(c.pre, x.l, fs.ord)), R);
      assert Keep(c.pre(R).R, c2.pre(R).R, fs.nvar);
      CodedKeep(x.r2, fs.ord, c.pre(R).R, c2.pre(R).R, fs.nvar);
    }
  }

  /** The first operand where the comparison needs it: a numeral may stay one, other operands go to a
      register or, for equality, to the constants (`luaK_infix`, lcode.c 1575-1616). */
  method CodeFirst(fs: FuncState, x: Expr, e0: Exp, ghost ts: seq<nat>, ghost fl: seq<nat>, ghost c: Ctx)
    returns (s: Status, e1: Exp)
    requires x.EBin? && !x.op.AndOp? && !x.op.OrOp? && Compiled(fs, x.l, e0, ts, fl, c)
    modifies fs
    ensures s.Pass? ==> fs.Valid(e1, [], [], c) && Framed(old(fs.code), old(fs.k), fs.code, fs.k, c.outer)
                        && !HasJumps(e1)
    ensures s.Pass? ==> (InReg(e1) || IsSC(e1)
                         || ((x.op.EqOp? || x.op.NeOp?) && (e1.kind.VK? || e1.kind.VKInt? || e1.kind.VKFlt?)))
    ensures s.Pass? ==>
              || x.op.EqOp? || x.op.NeOp?
              || (IsSC(e1) && e1.kind.VKInt? <==>
                  TailOf(x.l).TInt? && FitsC(TailOf(x.l).i) && NoExit(x.l, true) && NoExit(x.l, false))
    ensures s.Pass? && IsSC(e1) ==> KindTail(e1.kind) == TailOf(x.l)
    ensures fs.nvar == old(fs.nvar)
    ensures s.Fail? ==> fs.AtLimit()
  {
    hide Shaped, Denotes, Framed, Run, NoExit;
    fs.DischargedValid(e0, ts, fl, c);
    e1 := Discharged(e0);
    JumpsLists(fs, e1, ts, fl, c);
    var keep := if x.op.EqOp? || x.op.NeOp? then IsNumeral(e1) else IsSC(e1);
    if keep {
      fs.InRegLists(e1, ts, fl, c);
    } else if x.op.EqOp? || x.op.NeOp? {
      var isK: bool;
      e1, isK :- fs.ExpToRK(e1, ts, fl, c);
    } else {
      e1 :- fs.ExpToAnyReg(e1, ts, fl, c);
    }
    return Pass, e1;
  }

  method CompileCompare(fs: FuncState, x: Expr, ghost c: Ctx)
    returns (s: Status, e: Exp, ghost ts: seq<nat>, ghost fl: seq<nat>)
    requires Ready(fs, x, c) && x.EBin? && !x.op.AndOp? && !x.op.OrOp?
    modifies fs
    ensures s.Pass? ==> Compiled(fs, x, e, ts, fl, c) && Framed(old(fs.code), old(fs.k), fs.code, fs.k, c.outer)
    ensures fs.nvar == old(fs.nvar)
    ensures s.Fail? ==> fs.AtLimit()
    decreases x, 0, 1
  {
    hide Ready, Shaped, Denotes, Framed, Run, CodeOk, Coded, FirstIn, NoExit, Quirk, IsSC, FltIntegral;
    e, ts, fl := Exp(VNil, NO_JUMP, NO_JUMP), [], [];
    ghost var v1 := ValOf(c.pre, x.l, fs.ord);
    ghost var c1 := c.(v := v1);
    ghost var c0, k0 := fs.code, fs.k;
    PartReady(fs, x, x.l, c);
    ReadyOuter(fs, x, c);
    var e1;
    e1, ts, fl :- Compile(fs, x.l, c1);
    ghost var cl, kl := fs.code, fs.k;
    e1 :- CodeFirst(fs, x, e1, ts, fl, c1);
    FramedChain(c0, k0, cl, kl, fs.code, fs.k, c.outer);
    ghost var cf, kf := fs.code, fs.k;
    e, ts, fl :- CompareRest(fs, x, e1, c, v1);
    FramedChain(c0, k0, cf, kf, fs.code, fs.k, c.outer);
    return Pass, e, ts, fl;
  }

  /** The second operand of a comparison, and the comparison. */
  method CompareRest(fs: FuncState, x: Expr, e1: Exp, ghost c: Ctx, ghost v1: Regs -> V)
    returns (s: Status, e: Exp, ghost ts: seq<nat>, ghost fl: seq<nat>)
    requires x.EBin? && !x.op.AndOp? && !x.op.OrOp? && v1 == ValOf(c.pre, x.l, fs.ord)
          && fs.Valid(e1, [], [], c.(v := v1))
    requires Agrees(c, ValOf(c.pre, x, fs.ord)) && LocalsBelow(x.r2, fs.nvar) && NumericOrder(fs.ord)
          && fs.nvar <= c.base
    requires (InReg(e1) || IsSC(e1) || ((x.op.EqOp? || x.op.NeOp?)
                                        && (e1.kind.VK? || e1.kind.VKInt? || e1.kind.VKFlt?)))
    requires
      || x.op.EqOp? || x.op.NeOp?
      || (IsSC(e1) && e1.kind.VKInt? <==>
          TailOf(x.l).TInt? && FitsC(TailOf(x.l).i) && NoExit(x.l, true) && NoExit(x.l, false))
    requires IsSC(e1) ==> KindTail(e1.kind) == TailOf(x.l)
    modifies fs
    ensures s.Pass? ==> Compiled(fs, x, e, ts, fl, c) && Framed(old(fs.code), old(fs.k), fs.code, fs.k, c.outer)
    ensures fs.nvar == old(fs.nvar)
    ensures s.Fail? ==> fs.AtLimit()
    decreases x, 0, 0
  {
    hide Ready, Shaped, Denotes, Framed, Run, CodeOk, Coded, FirstIn, NoExit, Quirk, IsSC, FltIntegral;
    e, ts, fl := Exp(VNil, NO_JUMP, NO_JUMP), [], [];
    fs.OuterLess(e1, [], [], c.(v := v1));
    ghost var p1, c2 := fs.P(), Here(fs, c, ValOf(Here(fs, c, v1).pre, x.r2, fs.ord));
    FirstConst(e1);
    FirstReady1(fs, x.r2, e1, c, v1);
    var e2;
    e2, ts, fl :- Compile(fs, x.r2, c2);
    FirstBack(fs, p1, e1, c, c2, v1, p1.code);
    fs.DischargedValid(e2, ts, fl, c2);
    e2 := Discharged(e2);
    ghost var c3, k3 := fs.code, fs.k;
    JumpsLists(fs, e2, ts, fl, c2);
    var swap := x.op.GtOp? || x.op.GeOp?;
    ghost var quirk := (x.op.LtOp? || x.op.LeOp?) && Quirk(x.l, x.r2);
    QuirkSame(x, e1, e2, swap);
    CompareValue(fs, x, e1, p1, c, c2, quirk);
    if x.op.EqOp? || x.op.NeOp? {
      e :- CodeEq(fs, x.op.NeOp?, e1, e2, p1, ts, fl, c, c2, v1);
    } else {
      e :- CodeOrder(fs, if x.op.LtOp? || x.op.GtOp? then LtOp else LeOp, e1, e2, swap, p1, ts, fl, c, c2, v1);
    }
    FramedChain(p1.code, p1.k, c3, k3, fs.code, fs.k, c.outer);
    ts, fl := [], [];
    CompareNoExit(x);
    return Pass, e, ts, fl;
  }

  lemma CompareNoExit(x: Expr)
    requires x.EBin? && !x.op.AndOp? && !x.op.OrOp?
    ensures NoExit(x, true) && NoExit(x, false)
  {}

  lemma FirstConst(e1: Exp)
    requires InReg(e1) || IsSC(e1) || e1.kind.VK? || e1.kind.VKInt? || e1.kind.VKFlt?
    ensures InReg(e1) || IsConst(e1.kind)
    ensures IsSC(e1) ==> !InReg(e1) && (e1.kind.VKInt? || e1.kind.VKFlt?)
  {}

  lemma FirstBack(fs: FuncState, p1: Prog, e1: Exp, c: Ctx, c2: Ctx, v1: Regs -> V, c0: seq<Instr>)
    requires !HasJumps(e1) && Operand(e1.kind, p1.k) && Denotes(p1, e1.kind, 0, [], [], c.(v := v1))
    requires (forall R: Regs :: c2.pre(R) == Run(p1, 0, R)) && c2.outer == c.outer
          && Level(e1.kind, 0, fs.nvar, c.base, c2.base)
    requires Framed(c0, p1.k, fs.code, fs.k, c.outer)
    ensures FirstIn(fs, p1, e1, c, c2, v1)
  {}

  lemma QuirkSame(x: Expr, e1: Exp, e2: Exp, swap: bool)
    requires x.EBin? && !x.op.AndOp? && !x.op.OrOp? && swap == (x.op.GtOp? || x.op.GeOp?)
          && KindTail(e2.kind) == TailOf(x.r2)
    requires HasJumps(e2) <==> !(NoExit(x.r2, true) && NoExit(x.r2, false))
    requires
      || x.op.EqOp? || x.op.NeOp?
      || (IsSC(e1) && e1.kind.VKInt? <==>
          TailOf(x.l).TInt? && FitsC(TailOf(x.l).i) && NoExit(x.l, true) && NoExit(x.l, false))
    requires IsSC(e1) ==> KindTail(e1.kind) == TailOf(x.l)
    ensures x.op.EqOp? || x.op.NeOp? || (Quirked(e1, e2, swap) <==> (x.op.LtOp? || x.op.LeOp?) && Quirk(x.l, x.r2))
    ensures (x.op.LtOp? || x.op.LeOp?) && Quirk(x.l, x.r2) ==> IsSC(e1) && KindTail(e1.kind) == TailOf(x.l)
  {
    hide NoExit;
  }

  // ---------------------------------------------------------------- an expression on its own

  /** Code for one expression in a function with `nlocals` local variables: whatever the registers hold, it
      runs to its end with the value in the next register, no jump left open and the locals untouched. */
  method Translate(x: Expr, nlocals: nat, ghost ord: Order) returns (s: Status, fs: FuncState, reg: nat)
    requires LocalsBelow(x, nlocals) && nlocals < 255 && NumericOrder(ord)
    ensures s.Pass? ==> fs.pend == {} && fs.ord == ord && reg == nlocals
                        && forall R: Regs :: Delivers(fs.P(), reg, R, Coded(x, ord, R))
    ensures s.Pass? && (QuirkFree(x) || FloatBlind(ord)) ==> forall R: Regs :: Delivers(fs.P(), reg, R, Eval(x, ord, R))
    ensures s.Fail? ==> fs.AtLimit()
  {
    hide Shaped, Denotes, Framed, CodeOk, Coded;
    fs := new FuncState(nlocals, ord);
    reg := nlocals;
    ghost var p0 := fs.P();
    ghost var pre := (R: Regs) => Run(p0, 0, R);
    ghost var c := Ctx({}, nlocals, pre, ValOf(pre, x, ord));
    StartReady(fs, x, c);
    var e;
    ghost var ts, fl;
    e, ts, fl :- Compile(fs, x, c);
    e :- fs.ExpToNextReg(e, ts, fl, c);
    Delivered(fs, x, c, p0);
    return Pass, fs, reg;
  }

  ghost predicate Delivers(p: Prog, reg: nat, R: Regs, v: V) {
    Run(p, 0, R).Fell? && Get(Run(p, 0, R).R, reg) == v && Keep(R, Run(p, 0, R).R, reg)
  }

  lemma StartReady(fs: FuncState, x: Expr, c: Ctx)
    requires fs.code == [] && fs.pend == {} && fs.freereg == fs.nvar == c.base < 255 && fs.lasttarget == 0
    requires LocalsBelow(x, fs.nvar) && NumericOrder(fs.ord) && c.outer == {} && c.v == ValOf(c.pre, x, fs.ord)
    requires forall R: Regs :: c.pre(R) == Run(fs.P(), 0, R)
    ensures Ready(fs, x, c)
  {}

  lemma Delivered(fs: FuncState, x: Expr, c: Ctx, p0: Prog)
    requires fs.Valid(Exp(VNonReloc(c.base), NO_JUMP, NO_JUMP), [], [], c) && p0.code == [] && c.outer == {}
    requires (forall R: Regs :: c.pre(R) == Run(p0, 0, R)) && c.v == ValOf(c.pre, x, fs.ord)
    ensures fs.pend == {} && forall R: Regs :: Delivers(fs.P(), c.base, R, Coded(x, fs.ord, R))
    ensures QuirkFree(x) || FloatBlind(fs.ord) ==> forall R: Regs :: Delivers(fs.P(), c.base, R, Eval(x, fs.ord, R))
  {
    hide Coded, IsList, CodeOk;
    assert Elems([]) == {};
    forall R: Regs
      ensures Delivers(fs.P(), c.base, R, Coded(x, fs.ord, R))
      ensures QuirkFree(x) || FloatBlind(fs.ord) ==> Delivers(fs.P(), c.base, R, Eval(x, fs.ord, R))
    {
      assert Run(p0, 0, R) == Fell(R);
      assert DenotesAt(fs.P(), VNonReloc(c.base), 0, [], [], c, R);
      if QuirkFree(x) { CodedRight(x, fs.ord, R); }
      if FloatBlind(fs.ord) { CodedBlind(x, fs.ord, R); }
    }
  }
}
