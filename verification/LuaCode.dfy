/** The code generator for logical expressions (`lcode.c`): its state, changed in place, and its
    operations on jump lists, registers and expressions. */
module LuaCode {
  import opened LuaVm
  import opened LuaExp
  import opened LuaPatch
  import opened LuaPlace
  import opened LuaLogic

  /** `luaK_dischargevars` for the expressions at hand: a local variable is already in its register. */
  function Discharged(e: Exp): Exp {
    if e.kind.VLocal? then e.(kind := VNonReloc(e.kind.reg)) else e
  }

  /** At most the last jump of the list has a new link. */
  ghost predicate Relinked(c0: seq<Instr>, c1: seq<Instr>, js: seq<nat>) {
    if js == [] then c1 == c0
    else var j := js[|js| - 1]; j < |c0| && j < |c1| && c1[j].Jmp? && c1 == c0[j := Jmp(c1[j].sj)]
  }

  predicate InReg(e: Exp) {
    e.kind.VNonReloc? && !HasJumps(e)
  }

  /** The code goes through exactly for values of truth `cst`; others leave by the list. */
  ghost predicate GoneThrough(p: Prog, label0: nat, l: int, left: seq<nat>, cst: bool, c: Ctx) {
    && Shaped(p, label0, Bare(if cst then NO_JUMP else l, if cst then l else NO_JUMP), if cst then [] else left,
              if cst then left else [], c.outer)
    && Split(p, if cst then [] else left, if cst then left else [], cst, c)
  }

  /** The generator's state for one function (`FuncState` and the code of its `Proto`). */
  class FuncState {
    var code: seq<Instr>
    var k: seq<V>
    var freereg: nat
    var nvar: nat
    var lasttarget: nat
    ghost var pend: set<nat>
    ghost const ord: Order

    constructor (nlocals: nat, ghost order: Order)
      ensures code == [] && k == [] && freereg == nlocals && nvar == nlocals && lasttarget == 0 && pend == {}
            && ord == order
    {
      code, k, freereg, nvar, lasttarget, pend, ord := [], [], nlocals, nlocals, 0, {}, order;
    }

    ghost function P(): Prog
      reads this
    {
      Prog(code, k, pend, ord)
    }

    /** The registers, the reach of jumps or the constant table are used up. */
    ghost predicate AtLimit()
      reads this
    {
      freereg + 1 >= MAXREGS || |code| >= OFFSET_SJ || |k| >= MAXARG_AX
    }

    // -------------------------------------------------------------- jump lists

    /** `fixjump` (lcode.c 166-174). */
    method FixJump(j: nat, dest: nat) returns (s: Status)
      requires j < |code| && code[j].Jmp? && dest <= |code|
      modifies this`code
      ensures code == if s.Pass? then old(code)[j := Jmp(dest - (j + 1))] else old(code)
      ensures s.Fail? ==> AtLimit()
    {
      var offset := dest - (j + 1);
      if !(-OFFSET_SJ <= offset <= MAXARG_SJ - OFFSET_SJ) {
        return Fail;  // control structure too long
      }
      code := code[j := Jmp(offset)];
      return Pass;
    }

    /** `luaK_concat` (lcode.c 180-191): the last jump of the first list is linked to the second. */
    method Concat(l1: int, l2: int, ghost js1: seq<nat>, ghost js2: seq<nat>) returns (s: Status, l: int)
      requires CodeOk(P(), lasttarget) && IsList(code, l1, js1) && IsList(code, l2, js2) && NoDup(js1 + js2)
      requires Elems(js1) <= pend
      modifies this`code
      ensures s.Pass? ==> IsList(code, l, js1 + js2) && CodeOk(P(), lasttarget) && SameRuns(old(P()), P())
      ensures s.Pass? ==> Relinked(old(code), code, js1)
      ensures s.Pass? ==> |code| == |old(code)| && forall i :: 0 <= i < |code| ==>
                code[i] == old(code[i]) || (i in js1 && code[i].Jmp? && old(code[i]).Jmp?)
      ensures s.Fail? ==> AtLimit()
    {
      hide CodeOk, Run;
      ListJumps(code, l1, js1);
      assert js1 != [] ==> js1[|js1| - 1] in js1;
      if l2 == NO_JUMP {
        assert js1 + js2 == js1;
        return Pass, l1;
      }
      if l1 == NO_JUMP {
        assert js1 + js2 == js2;
        return Pass, l2;
      }
      var list: nat := l1;
      ghost var i := 0;
      var next := GetJump(code, list);
      while next != NO_JUMP
        invariant i < |js1| && list == js1[i] && list < |code| && code[list].Jmp? && next == GetJump(code, list)
        invariant IsList(code, next, js1[i + 1..]) && code == old(code)
        decreases |js1| - i
      {
        assert js1[i + 1..][0] == js1[i + 1] && js1[i + 1..][1..] == js1[i + 2..];
        list := next;
        i := i + 1;
        next := GetJump(code, list);
      }
      assert js1[i + 1..] == [] && i == |js1| - 1;
      ghost var p0 := P();
      assert list in js1;
      s := FixJump(list, l2);
      if s.Fail? { return s, l1; }
      ListJoined(p0.code, code, l1, js1, l2, js2);
      RelinkedOk(p0, lasttarget, list, l2 - (list + 1));
      assert P() == p0.(code := p0.code[list := Jmp(l2 - (list + 1))]);
      forall R: Regs ensures Run(P(), 0, R) == Run(p0, 0, R) {
        RunRelinked(p0, lasttarget, list, l2 - (list + 1), 0, R);
      }
      return Pass, l1;
    }

    /** `getjumpcontrol` and `patchtestreg` (lcode.c 242-270). */
    method PatchTestReg(node: nat, reg: nat) returns (patched: bool)
      requires node < |code| && code[node].Jmp?
      modifies this`code
      ensures patched == IsSet(old(code), node)
      ensures code == if patched then old(code)[node - 1 := Retest(old(code)[node - 1], reg)] else old(code)
    {
      var i := if node >= 1 && IsTest(code[node - 1]) then node - 1 else node;
      if !code[i].TestSet? { return false; }
      if reg != NO_REG && reg != code[i].b {
        code := code[i := TestSet(reg, code[i].b, code[i].k)];
      } else {
        code := code[i := Test(code[i].b, code[i].k)];
      }
      return true;
    }

    /** `patchlistaux` (lcode.c 287-297). */
    method PatchListAux(list0: int, vt: nat, reg: nat, dt: int, ghost js: seq<nat>) returns (s: Status)
      requires CodeOk(P(), lasttarget) && IsList(code, list0, js) && NoDup(js) && Elems(js) <= pend
      requires Targets(P(), lasttarget, js, vt, dt)
      modifies this`code, this`pend
      ensures s.Pass? ==> CodeOk(P(), lasttarget) && pend == old(pend) - Elems(js) && OnlyPatched(old(code), code, js)
                          && AllJumps(code, js)
      ensures s.Pass? ==> Redirected(old(P()), js, vt, reg, dt, P())
      ensures s.Fail? ==> AtLimit()
    {
      hide Halfway, CodeOk, NoDup, Targets, AllJumps;
      var list := list0;
      ghost var i := 0;
      ghost var p0 := P();
      HalfwayStart(p0, lasttarget, list, js, vt, reg, dt);
      while list != NO_JUMP
        invariant Halfway(p0, P(), lasttarget, list, js, i, vt, reg, dt) && i <= |js|
        decreases |js| - i
      {
        NotEnd(p0, P(), lasttarget, list, js, i, vt, reg, dt);
        HalfwayStep(p0, P(), lasttarget, list, js, i, vt, reg, dt);
        ghost var p := P();
        var next := GetJump(code, list);
        ghost var target := if IsSet(code, list) then vt else dt;
        var ok := PatchTestReg(list, reg);
        if ok {
          s := FixJump(list, vt);
        } else {
          s := FixJump(list, dt);
        }
        if s.Fail? { return; }
        pend := pend - {list};
        assert P() == Patched(p, list, target, reg);
        list := next;
        i := i + 1;
      }
      HalfwayEnd(p0, P(), lasttarget, js, i, vt, reg, dt);
      return Pass;
    }

    // -------------------------------------------------------------- invariants

    /** The code without a NOT whose register is not known yet. */
    ghost function Solid(e: Exp): Prog
      reads this
    {
      if e.kind.VReloc? && |code| > 0 then P().(code := code[..|code| - 1]) else P()
    }

    /** The register that the pending NOT reads. */
    ghost function NotReg(e: Exp): nat
      reads this
    {
      if e.kind.VReloc? && |code| > 0 && code[|code| - 1].Not? then code[|code| - 1].b else 0
    }

    ghost predicate RelocOk(e: Exp)
      reads this
    {
      e.kind.VReloc? ==> |code| > 0 && e.kind.pc == |code| - 1 && code[|code| - 1].Not?
    }

    ghost predicate Core(e: Exp, ts: seq<nat>, fl: seq<nat>, c: Ctx)
      reads this
    {
      RelocOk(e) && Shaped(Solid(e), lasttarget, e, ts, fl, c.outer) && Denotes(Solid(e), e.kind, NotReg(e), ts, fl, c)
    }

    /** The expression's code is in place and computes its value; its register is the first free one. */
    ghost predicate Valid(e: Exp, ts: seq<nat>, fl: seq<nat>, c: Ctx)
      reads this
    {
      Core(e, ts, fl, c) && Level(e.kind, NotReg(e), nvar, c.base, freereg)
    }

    // -------------------------------------------------------------- registers and constants

    /** `luaK_checkstack` and `luaK_reserveregs` (lcode.c 474-491). */
    method ReserveRegs(n: nat) returns (s: Status)
      modifies this`freereg
      ensures s.Pass? ==> freereg == old(freereg) + n < MAXREGS
      ensures s.Fail? ==> freereg == old(freereg) && freereg + n >= MAXREGS
    {
      if freereg + n >= MAXREGS {
        return Fail;  // function or expression needs too many registers
      }
      freereg := freereg + n;
      return Pass;
    }

    /** `freereg` (lcode.c 499-504); the source asserts that the register is the last one in use. */
    method FreeReg(reg: nat)
      requires reg >= nvar ==> freereg > 0 && reg == freereg - 1
      modifies this`freereg
      ensures freereg == if reg >= nvar then old(freereg) - 1 else old(freereg)
    {
      if reg >= nvar {
        freereg := freereg - 1;
      }
    }

    method FreeExp(e: Exp)
      requires e.kind.VNonReloc? && e.kind.reg >= nvar ==> freereg > 0 && e.kind.reg == freereg - 1
      modifies this`freereg
      ensures freereg == if e.kind.VNonReloc? && e.kind.reg >= nvar then old(freereg) - 1 else old(freereg)
    {
      if e.kind.VNonReloc? {
        FreeReg(e.kind.reg);
      }
    }

    /** `addk` (lcode.c 549-573): a constant is entered once. */
    method AddK(v: V) returns (s: Status, kx: nat)
      modifies this`k
      ensures old(k) <= k && (s.Pass? ==> kx < |k| && k[kx] == v)
      ensures s.Fail? ==> AtLimit()
    {
      for i := 0 to |k|
        invariant k == old(k)
      {
        if k[i] == v { return Pass, i; }
      }
      if |k| >= MAXARG_AX {
        return Fail, 0;  // too many constants
      }
      k := k + [v];
      return Pass, |k| - 1;
    }

    /** `luaK_codek` (lcode.c 459-467), for the constant that `kind` stands for. */
    method CodeK(reg: nat, kx: nat, ghost kind: Kind, ghost k0: seq<V>)
      requires CodeOk(P().(k := k0), lasttarget) && k0 <= k && kx < |k| && IsConst(kind)
      requires forall R1: Regs :: ValueOf(kind, k0, 0, R1) == k[kx]
      modifies this`code
      ensures CodeOk(P(), lasttarget) && Places(old(P()).(k := k0), P(), kind, 0, reg)
            && SetsKept(old(P()).(k := k0), P())
    {
      hide CodeOk, Places, ValueOf, SetsKept;
      ghost var p := P().(k := k0);
      if kx <= MAXARG_BX {
        assert forall R1: Regs :: Effect(LoadK(reg, kx), k, R1) == Set(R1, reg, ValueOf(kind, k0, 0, R1));
        PlainPlaces(p, lasttarget, LoadK(reg, kx), k, kind, 0, reg);
        code := code + [LoadK(reg, kx)];
        assert P() == p.(code := p.code + [LoadK(reg, kx)], k := k);
      } else {
        ExtraPlaces(p, lasttarget, kx, k, kind, reg);
        code := code + [LoadKX(reg)];
        code := code + [ExtraArg(kx)];
        assert P() == p.(code := p.code + [LoadKX(reg), ExtraArg(kx)], k := k);
      }
    }

    /** `luaK_nil` (lcode.c 130-146) for one register: a LOADNIL before it that is not followed by a label takes
        the register in. */
    method CodeNil(reg: nat)
      requires CodeOk(P(), lasttarget)
      modifies this`code
      ensures CodeOk(P(), lasttarget) && Places(old(P()), P(), VNil, 0, reg) && SetsKept(old(P()), P())
    {
      hide CodeOk, Places, ValueOf, SetsKept;
      ghost var p := P();
      if |code| > lasttarget && code[|code| - 1].LoadNil? {
        var pfrom, pl := code[|code| - 1].a, code[|code| - 1].a + code[|code| - 1].n;
        var from, l := reg, reg;
        if (pfrom <= from && from <= pl + 1) || (from <= pfrom && pfrom <= l + 1) {
          if pfrom < from { from := pfrom; }
          if pl > l { l := pl; }
          NilPlaces(p, lasttarget, from, l - from, 0, reg);
          code := code[|code| - 1 := LoadNil(from, l - from)];
          return;
        }
      }
      assert forall R1: Regs :: Effect(LoadNil(reg, 0), k, R1) == Set(R1, reg, ValueOf(VNil, k, 0, R1)) by {
        NilEffect(k, reg);
      }
      PlainPlaces(p, lasttarget, LoadNil(reg, 0), k, VNil, 0, reg);
      code := code + [LoadNil(reg, 0)];
      assert P() == p.(code := p.code + [LoadNil(reg, 0)], k := k);
    }

    /** One instruction that leaves the value of the expression in `reg`. */
    method CodePlain(i: Instr, reg: nat, ghost kind: Kind, ghost nb: nat)
      requires CodeOk(P(), lasttarget) && IsPlain(i) && !i.LoadK?
      requires forall R1: Regs :: Effect(i, k, R1) == Set(R1, reg, ValueOf(kind, k, nb, R1))
      modifies this`code
      ensures CodeOk(P(), lasttarget) && Places(old(P()), P(), kind, nb, reg) && SetsKept(old(P()), P())
    {
      hide CodeOk, Places, ValueOf, SetsKept, Effect;
      ghost var p := P();
      PlainPlaces(p, lasttarget, i, k, kind, nb, reg);
      code := code + [i];
      assert P() == p.(code := p.code + [i], k := k);
    }

    // -------------------------------------------------------------- putting a value into a register

    /** `discharge2reg` (lcode.c 813-860): the value itself, jumps aside, into `reg`. */
    method Discharge2Reg(e: Exp, reg: nat, ghost ts: seq<nat>, ghost fl: seq<nat>, ghost c: Ctx)
      returns (s: Status, e1: Exp)
      requires Core(e, ts, fl, c) && !e.kind.VLocal? && c.base <= reg < 255
      modifies this`code, this`k
      ensures s.Pass? ==> e1 == (if e.kind.VJmp? then e else e.(kind := VNonReloc(reg))) && Core(e1, ts, fl, c)
      ensures s.Pass? ==> Framed(old(code), old(k), code, k, c.outer) && forall j :: j in c.outer ==> j < |old(code)|
      ensures s.Pass? && e.kind.VJmp? ==> code == old(code)
      ensures s.Fail? ==> AtLimit()
    {
      hide CodeOk, Places, SetsKept, Shaped, Denotes, Framed;
      ghost var p, c0 := Solid(e), code;
      ShapedOk(p, lasttarget, e, ts, fl, c.outer);
      FramedSelf(code, k, c.outer);
      e1 := e;
      match e.kind {
        case VNil => CodeNil(reg);
        case VFalse => CodePlain(LoadFalse(reg, false), reg, e.kind, 0);
        case VTrue => CodePlain(LoadTrue(reg), reg, e.kind, 0);
        case VKStr(t) =>
          var kx :- AddK(Str(t));
          CodeK(reg, kx, e.kind, p.k);
        case VK(kx) => CodeK(reg, kx, e.kind, p.k);
        case VKFlt(r) =>
          if r == r.Floor as real && FitsBx(r.Floor) {
            CodePlain(LoadF(reg, r.Floor), reg, e.kind, 0);
          } else {
            var kx :- AddK(Flt(r));
            CodeK(reg, kx, e.kind, p.k);
          }
        case VKInt(i) =>
          if FitsBx(i) {
            CodePlain(LoadI(reg, i), reg, e.kind, 0);
          } else {
            var kx :- AddK(Int(i));
            CodeK(reg, kx, e.kind, p.k);
          }
        case VReloc(pc) =>
          var b := code[pc].b;
          assert forall R1: Regs :: Effect(Not(reg, b), k, R1) == Set(R1, reg, ValueOf(e.kind, k, b, R1));
          PlainPlaces(p, lasttarget, Not(reg, b), k, e.kind, b, reg);
          code := code[pc := Not(reg, b)];  // the pending NOT gets its register
          assert P() == p.(code := p.code + [Not(reg, b)], k := k);
        case VNonReloc(r) =>
          if r == reg { return Pass, e; }
          CodePlain(Move(reg, r), reg, e.kind, 0);
        case VJmp(_) =>
          return Pass, e;
      }
      e1 := e.(kind := VNonReloc(reg));
      Placed(p, P(), lasttarget, e, if e.kind.VReloc? then old(NotReg(e)) else 0, ts, fl, c, reg);
      PlacedFrame(c0, p, P(), e, lasttarget, ts, fl, c.outer);
      return Pass, e1;
    }

    // -------------------------------------------------------------- closing an expression

    /** `need_value` (lcode.c 885-891): does some jump of the list not carry its value? */
    method NeedValue(list0: int, ghost js: seq<nat>) returns (need: bool)
      requires IsList(code, list0, js)
      ensures need <==> exists j :: j in js && !IsSet(code, j)
    {
      var list := list0;
      ghost var n := 0;
      assert js[0..] == js;
      while list != NO_JUMP
        invariant n <= |js| && IsList(code, list, js[n..]) && forall j :: j in js[..n] ==> IsSet(code, j)
        decreases |js| - n
      {
        assert js[n..][0] == js[n] && js[n..][1..] == js[n + 1..];
        var i := if list >= 1 && IsTest(code[list - 1]) then list - 1 else list;
        if !code[i].TestSet? {
          assert js[n] in js && !IsSet(code, js[n]);
          return true;
        }
        assert js[..n + 1] == js[..n] + [js[n]];
        list := GetJump(code, list);
        n := n + 1;
      }
      assert js[..n] == js;
      return false;
    }

    /** `luaK_patchtohere` (lcode.c 311-314): the end of the code becomes a label and the list's target. */
    method PatchToHere(l: int, ghost js: seq<nat>) returns (s: Status)
      requires CodeOk(P(), lasttarget) && IsList(code, l, js) && NoDup(js) && Elems(js) <= pend
      modifies this`code, this`pend, this`lasttarget
      ensures s.Pass? ==> CodeOk(P(), lasttarget) && lasttarget == |code| == |old(code)|
                          && pend == old(pend) - Elems(js)
      ensures s.Pass? ==> OnlyPatched(old(code), code, js) && AllJumps(code, js)
      ensures s.Pass? ==> Redirected(old(P()), js, |old(code)|, NO_REG, |old(code)|, P())
      ensures s.Fail? ==> AtLimit()
    {
      hide CodeOk, Targets, OnlyPatched, AllJumps, Redirected;
      HereTargets(P(), lasttarget, l, js);
      LabelOk(P(), lasttarget);
      LabelUp(P(), lasttarget, |code|);
      ghost var p := P();
      lasttarget := |code|;
      s := PatchListAux(l, lasttarget, NO_REG, lasttarget, js);
      if s.Pass? { assert |code| == |p.code| by { PatchLength(p.code, code, js); } }
    }

    /** The loads of false and true behind an expression whose jumps need them (lcode.c 908-915). */
    method CodeLoads(isJmp: bool, reg: nat, t: int, f: int, ghost ts: seq<nat>, ghost fl: seq<nat>, ghost c: Ctx)
      returns (s: Status, pf: nat, pt: nat)
      requires Shaped(P(), lasttarget, Bare(t, f), ts, fl, c.outer) && c.base <= reg < 255
      requires Denotes(P(), if isJmp then VFalse else VNonReloc(reg), 0, ts, fl, c)
      modifies this`code, this`pend, this`lasttarget
      ensures s.Pass? ==> lasttarget == |code| && Shaped(P(), lasttarget, Bare(t, f), ts, fl, c.outer)
                                               && Denotes(P(), VNonReloc(reg), 0, ts, fl, c)
      ensures s.Pass? ==> LoadsOk(P(), pf, pt, reg, ts, fl) && Framed(old(code), k, code, k, c.outer)
      ensures s.Fail? ==> AtLimit()
    {
      hide Shaped, Denotes, CodeOk, Loads, Framed, SetsKept, Redirected, OnlyPatched;
      ghost var p, label0 := P(), lasttarget;
      ShapedOk(p, lasttarget, Bare(t, f), ts, fl, c.outer);
      var fj := NO_JUMP;
      ghost var fjs: seq<nat> := [];
      if !isJmp {
        fj := |code|;
        fjs := [|code|];
        code := code + [Jmp(NO_JUMP)];
        pend := pend + {fj};
      }
      lasttarget := |code|;
      pf := |code|;
      code := code + [LoadFalse(reg, true)];
      lasttarget := |code|;
      pt := |code|;
      code := code + [LoadTrue(reg)];
      if isJmp {
        TestLoads(p, label0, reg, ts, fl, c);
        assert P() == p.(code := p.code + [LoadFalse(reg, true), LoadTrue(reg)]);
        lasttarget := |code|;
        s := Pass;
        LoadsShaped(p, P(), label0, t, f, ts, fl, c.outer, reg);
      } else {
        ghost var q0 := P();
        assert q0 == p.(code := p.code + [Jmp(NO_JUMP), LoadFalse(reg, true), LoadTrue(reg)],
                        pend := p.pend + {|p.code|});
        LoadsCode(p, label0, [Jmp(NO_JUMP), LoadFalse(reg, true), LoadTrue(reg)], reg, p.pend + {|p.code|});
        lasttarget := |code|;
        LoneJump(q0, fj);
        s := PatchToHere(fj, fjs);
        if s.Fail? { return; }
        SkipDone(p, q0, P(), label0, t, f, ts, fl, c, reg);
      }
    }

    /** The patches of `exp2reg` for an expression with jumps (lcode.c 901-919). */
    method PatchValues(isJmp: bool, reg: nat, t: int, f: int, ghost ts: seq<nat>, ghost fl: seq<nat>, ghost c: Ctx)
      returns (s: Status)
      requires Shaped(P(), lasttarget, Bare(t, f), ts, fl, c.outer) && c.base <= reg < 255
            && (isJmp ==> exists j :: j in ts && !IsSet(code, j))
      requires Denotes(P(), if isJmp then VFalse else VNonReloc(reg), 0, ts, fl, c)
      modifies this`code, this`pend, this`lasttarget
      ensures s.Pass? ==> Shaped(P(), lasttarget, Bare(NO_JUMP, NO_JUMP), [], [], c.outer)
                          && Denotes(P(), VNonReloc(reg), 0, [], [], c)
      ensures s.Pass? ==> Framed(old(code), k, code, k, c.outer)
      ensures s.Fail? ==> AtLimit()
    {
      hide Shaped, Denotes, CodeOk, Loads, Framed, Redirected, OnlyPatched, LoadsOk, Targets, AllJumps, DtOk, NoDup,
        SetsAgree;
      ghost var c0 := code;
      BareLists(P(), lasttarget, t, f, ts, fl, c.outer);
      var pf, pt := NO_JUMP, NO_JUMP;
      var need := NeedValue(t, ts);
      if !need { need := NeedValue(f, fl); }
      FramedSelf(code, k, c.outer);
      if need {
        pf, pt :- CodeLoads(isJmp, reg, t, f, ts, fl, c);
      }
      FinalLabel(P(), lasttarget, t, f, ts, fl, c.outer);
      lasttarget := |code|;
      ghost var p3 := P();
      BareLists(p3, lasttarget, t, f, ts, fl, c.outer);
      FirstReady(p3, ts, fl, reg, pf, pt, need);
      DtTargets(p3, lasttarget, fl, pf, reg, false);
      :- PatchListAux(f, |code|, reg, pf, fl);
      ghost var p4 := P();
      PatchedOnce(p3, p4, t, f, ts, fl, false, reg, pf, c);
      FramedChain(c0, k, p3.code, k, code, k, c.outer);
      DtStays(p3, p4, fl, ts, pf, pt, reg);
      BareLists(p4, lasttarget, t, NO_JUMP, ts, [], c.outer);
      DtTargets(p4, lasttarget, ts, pt, reg, true);
      :- PatchListAux(t, |code|, reg, pt, ts);
      PatchedOnce(p4, P(), t, NO_JUMP, ts, [], true, reg, pt, c);
      FramedChain(c0, k, p4.code, k, code, k, c.outer);
      return Pass;
    }

    /** `exp2reg` (lcode.c 901-923): the expression's value ends up in `reg`, whichever jump is taken. */
    method ExpToReg(e: Exp, reg: nat, ghost ts: seq<nat>, ghost fl: seq<nat>, ghost c: Ctx) returns (s: Status, e1: Exp)
      requires Core(e, ts, fl, c) && !e.kind.VLocal? && c.base <= reg < 255
      modifies this`code, this`k, this`pend, this`lasttarget
      ensures s.Pass? ==> e1 == Exp(VNonReloc(reg), NO_JUMP, NO_JUMP) && Core(e1, [], [], c)
      ensures s.Pass? ==> Framed(old(code), old(k), code, k, c.outer)
      ensures s.Fail? ==> AtLimit()
    {
      hide Shaped, Denotes, CodeOk, Framed, SameRuns, NoDup, IsSet;
      ghost var c0, k0 := code, k;
      e1 := Exp(VNonReloc(reg), NO_JUMP, NO_JUMP);
      var e2 :- Discharge2Reg(e, reg, ts, fl, c);
      ghost var p1, ts1 := P(), ts;
      var t := e2.t;
      if e2.kind.VJmp? {
        JmpReady(p1, lasttarget, e2, ts, fl, c.outer);
        t :- Concat(e2.t, e2.kind.pc, ts, [e2.kind.pc]);
        ts1 := ts + [e2.kind.pc];
        JmpJoined(p1, P(), lasttarget, e2, t, ts, fl, c);
        FramedChain(c0, k0, p1.code, p1.k, code, k, c.outer);
        assert e2.kind.pc in ts1;
      } else {
        BareShape(p1, lasttarget, e2, ts, fl, c.outer);
      }
      ghost var p2 := P();
      BareLists(p2, lasttarget, t, e2.f, ts1, fl, c.outer);
      if t != e2.f {
        :- PatchValues(e2.kind.VJmp?, reg, t, e2.f, ts1, fl, c);
        FramedChain(c0, k0, p2.code, p2.k, code, k, c.outer);
      } else {
        NoJumpsNoLists(code, t, ts1, fl);
      }
      Closed(P(), lasttarget, reg, c);
      return Pass, e1;
    }

    /** `luaK_exp2nextreg` (lcode.c 929-934). */
    method ExpToNextReg(e0: Exp, ghost ts: seq<nat>, ghost fl: seq<nat>, ghost c: Ctx) returns (s: Status, e1: Exp)
      requires Valid(e0, ts, fl, c)
      modifies this`code, this`k, this`pend, this`lasttarget, this`freereg
      ensures s.Pass? ==> e1 == Exp(VNonReloc(c.base), NO_JUMP, NO_JUMP) && Valid(e1, [], [], c)
      ensures s.Pass? ==> Framed(old(code), old(k), code, k, c.outer) && freereg == c.base + 1
      ensures s.Fail? ==> AtLimit()
    {
      hide Shaped, Denotes, Framed;
      DischargedValid(e0, ts, fl, c);
      var e := Discharged(e0);
      e1 := e;
      FreeExp(e);
      :- ReserveRegs(1);
      e1 :- ExpToReg(e, freereg - 1, ts, fl, c);
      return Pass, e1;
    }

    lemma DischargedValid(e: Exp, ts: seq<nat>, fl: seq<nat>, c: Ctx)
      requires Valid(e, ts, fl, c)
      ensures Valid(Discharged(e), ts, fl, c)
    {
      hide CodeOk, IsList, Run;
      if e.kind.VLocal? {
        forall R: Regs ensures DenotesAt(P(), VNonReloc(e.kind.reg), 0, ts, fl, c, R) {
          assert DenotesAt(P(), e.kind, 0, ts, fl, c, R);
        }
      }
    }

    /** `luaK_exp2anyreg` (lcode.c 941-953). A value without jumps in a register stays there. */
    method ExpToAnyReg(e0: Exp, ghost ts: seq<nat>, ghost fl: seq<nat>, ghost c: Ctx) returns (s: Status, e1: Exp)
      requires InReg(e0) || Valid(e0, ts, fl, c)
      modifies this`code, this`k, this`pend, this`lasttarget, this`freereg
      ensures s.Pass? ==> InReg(e1) && (old(Valid(e0, ts, fl, c)) ==>
                Valid(e1, [], [], c) && Framed(old(code), old(k), code, k, c.outer))
      ensures InReg(e0) ==> s.Pass? && e1 == e0 && code == old(code) && k == old(k) && pend == old(pend)
                            && lasttarget == old(lasttarget) && freereg == old(freereg)
      ensures s.Fail? ==> AtLimit()
    {
      hide Shaped, Denotes, Framed;
      if InReg(e0) {
        if Valid(e0, ts, fl, c) { InRegLists(e0, ts, fl, c); }
        return Pass, e0;
      }
      DischargedValid(e0, ts, fl, c);
      var e := Discharged(e0);
      e1 := e;
      if e.kind.VNonReloc? {
        if !HasJumps(e) {
          InRegLists(e, ts, fl, c);
          return Pass, e;
        }
        if e.kind.reg >= nvar {
          e1 :- ExpToReg(e, e.kind.reg, ts, fl, c);
          return Pass, e1;
        }
      }
      s, e1 := ExpToNextReg(e, ts, fl, c);
    }

    lemma InRegLists(e: Exp, ts: seq<nat>, fl: seq<nat>, c: Ctx)
      requires Valid(e, ts, fl, c) && !HasJumps(e)
      ensures ts == [] && fl == [] && Framed(code, k, code, k, c.outer)
    {
      NoJumpsNoLists(Solid(e).code, e.t, ts, fl);
    }

    /** `luaK_exp2K` (lcode.c 982-1003): a constant whose index fits an instruction becomes one. */
    method ExpToK(e: Exp, ghost ts: seq<nat>, ghost fl: seq<nat>, ghost c: Ctx) returns (s: Status, e1: Exp, isK: bool)
      requires Valid(e, ts, fl, c)
      modifies this`k
      ensures s.Pass? ==> Valid(e1, ts, fl, c) && Framed(code, old(k), code, k, c.outer) && (!isK ==> e1 == e)
      ensures s.Pass? && isK ==> e1.kind.VK? && e1.kind.kx <= MAXINDEXRK && !HasJumps(e1)
      ensures s.Fail? ==> AtLimit()
    {
      hide Shaped, Denotes, CodeOk;
      e1, isK := e, false;
      if HasJumps(e) || !IsConst(e.kind) { return Pass, e, false; }
      var kx: nat;
      ghost var p := P();
      match e.kind {
        case VK(x) => kx := x;
        case VTrue => kx :- AddK(Bool(true));
        case VFalse => kx :- AddK(Bool(false));
        case VNil => kx :- AddK(Nil);
        case VKInt(i) => kx :- AddK(Int(i));
        case VKFlt(r) => kx :- AddK(Flt(r));
        case VKStr(t) => kx :- AddK(Str(t));
      }
      KGrown(p, lasttarget, k, e, 0, ts, fl, c);
      assert P() == p.(k := k);
      if kx > MAXINDEXRK { return Pass, e, false; }
      e1 := e.(kind := VK(kx));
      if e.kind.VK? { return Pass, e, true; }
      KindSame(P(), lasttarget, e, kx, ts, fl, c);
      return Pass, e1, true;
    }

    /** `luaK_exp2RK` (lcode.c 1012-1019). */
    method ExpToRK(e: Exp, ghost ts: seq<nat>, ghost fl: seq<nat>, ghost c: Ctx) returns (s: Status, e1: Exp, isK: bool)
      requires Valid(e, ts, fl, c)
      modifies this`code, this`k, this`pend, this`lasttarget, this`freereg
      ensures s.Pass? ==> Valid(e1, [], [], c) && Framed(old(code), old(k), code, k, c.outer) && !HasJumps(e1)
      ensures s.Pass? ==> if isK then e1.kind.VK? && e1.kind.kx <= MAXINDEXRK else InReg(e1)
      ensures s.Fail? ==> AtLimit()
    {
      hide Shaped, Denotes, Framed;
      e1, isK := e, false;
      OuterLess(e, ts, fl, c);
      ghost var k0 := k;
      e1, isK :- ExpToK(e, ts, fl, c);
      if isK {
        InRegLists(e1, ts, fl, c);
        return Pass, e1, true;
      }
      ghost var k1 := k;
      e1 :- ExpToAnyReg(e1, ts, fl, c);
      FramedChain(old(code), k0, old(code), k1, code, k, c.outer);
      return Pass, e1, false;
    }

    lemma OuterLess(e: Exp, ts: seq<nat>, fl: seq<nat>, c: Ctx)
      requires Core(e, ts, fl, c)
      ensures forall j :: j in c.outer ==> j < |code|
    {
      PendJumps(Solid(e), lasttarget);
    }

    // -------------------------------------------------------------- tests and jumps

    /** `condjump` (lcode.c 221-224). */
    method CondJump(test: Instr) returns (pc: nat)
      modifies this`code, this`pend
      ensures P() == WithTest(old(P()), test) && pc == |old(code)| + 1
    {
      code := code + [test];
      pc := |code|;
      code := code + [Jmp(NO_JUMP)];
      pend := pend + {pc};
      assert code == old(code) + [test, Jmp(NO_JUMP)];
    }

    /** `discharge2anyreg` (lcode.c 867-872). */
    method Discharge2AnyReg(e: Exp, ghost ts: seq<nat>, ghost fl: seq<nat>, ghost c: Ctx) returns (s: Status, e1: Exp)
      requires Valid(e, ts, fl, c) && !e.kind.VLocal? && !e.kind.VJmp?
      modifies this`code, this`k, this`freereg
      ensures s.Pass? ==> Valid(e1, ts, fl, c) && e1.kind.VNonReloc? && e1.t == e.t && e1.f == e.f
      ensures s.Pass? ==> Framed(old(code), old(k), code, k, c.outer)
      ensures s.Fail? ==> AtLimit()
    {
      hide Shaped, Denotes, Framed;
      e1 := e;
      if !e.kind.VNonReloc? {
        :- ReserveRegs(1);
        e1 :- Discharge2Reg(e, freereg - 1, ts, fl, c);
      } else {
        FramedSelf(code, k, c.outer);
      }
      return Pass, e1;
    }

    /** `jumponcond` (lcode.c 1099-1111): jump if the value's truth is `cond`. */
    method JumpOnCond(e: Exp, cond: bool, ghost ts: seq<nat>, ghost fl: seq<nat>, ghost c: Ctx)
      returns (s: Status, pc: nat)
      requires Valid(e, ts, fl, c) && !e.kind.VLocal? && !e.kind.VJmp?
      modifies this`code, this`k, this`pend, this`freereg
      ensures s.Pass? ==> Dangling(P(), lasttarget, e.t, e.f, ts, fl, pc, [pc], c.outer) && freereg == c.base
      ensures s.Pass? ==> Split(P(), With(ts, cond, pc), With(fl, !cond, pc), !cond, c)
      ensures s.Pass? ==> Framed(old(code), old(k), code, k, c.outer)
      ensures s.Fail? ==> AtLimit()
    {
      hide Shaped, Denotes, Framed, Dangling, Split;
      pc := 0;
      ghost var c0 := code;
      OuterLess(e, ts, fl, c);
      if e.kind.VReloc? {
        var ie := code[e.kind.pc];
        ghost var p := Solid(e);
        ShapedOk(p, lasttarget, e, ts, fl, c.outer);
        code := code[..|code| - 1];  // remove previous OP_NOT
        assert P() == p;
        DanglingTest(p, lasttarget, e, ts, fl, c.outer, Test(ie.b, !cond));
        SplitByNot(p, lasttarget, ie.b, e.kind.pc, cond, ts, fl, c);
        pc := CondJump(Test(ie.b, !cond));
        CutFrame(c0, p, P(), lasttarget, c.outer);
      } else {
        var e1 :- Discharge2AnyReg(e, ts, fl, c);
        ghost var p := P();
        ShapedOk(p, lasttarget, e1, ts, fl, c.outer);
        FreeExp(e1);
        DanglingTest(p, lasttarget, e1, ts, fl, c.outer, TestSet(NO_REG, e1.kind.reg, cond));
        SplitByValue(p, lasttarget, e1.kind.reg, cond, ts, fl, c);
        pc := CondJump(TestSet(NO_REG, e1.kind.reg, cond));
        FramedChain(c0, old(k), p.code, p.k, code, k, c.outer);
      }
      return Pass, pc;
    }

    /** The end of `luaK_goiftrue` and `luaK_goiffalse`: the new jump joins its list, and the other list is
        patched to go through. */
    method GoThrough(t: int, f: int, pc: int, cst: bool, ghost ts: seq<nat>, ghost fl: seq<nat>, ghost pcs: seq<nat>,
            ghost c: Ctx)
      returns (s: Status, l: int)
      requires Dangling(P(), lasttarget, t, f, ts, fl, pc, pcs, c.outer)
      requires Split(P(), if cst then ts else ts + pcs, if cst then fl + pcs else fl, cst, c)
      modifies this`code, this`pend, this`lasttarget
      ensures s.Pass? ==> GoneThrough(P(), lasttarget, l, (if cst then fl else ts) + pcs, cst, c)
                          && Framed(old(code), k, code, k, c.outer)
      ensures s.Fail? ==> AtLimit()
    {
      hide Split, Framed, CodeOk, SameRuns, Shaped, Redirected, OnlyPatched, AllJumps, NoDup, Dangling;
      ghost var p := P();
      DanglingLists(p, lasttarget, t, f, ts, fl, pc, pcs, c.outer);
      l :- Concat(if cst then f else t, pc, if cst then fl else ts, pcs);
      ghost var p1 := P();
      JumpJoined(p, p1, lasttarget, t, f, ts, fl, pc, pcs, c.outer, !cst, l);
      ghost var ts1, fl1 := if cst then ts else ts + pcs, if cst then fl + pcs else fl;
      ghost var t1, f1 := if cst then t else l, if cst then l else f;
      SplitSame(p, p1, ts1, fl1, ts1, fl1, cst, c);
      BareLists(p1, lasttarget, t1, f1, ts1, fl1, c.outer);
      ghost var label0 := lasttarget;
      :- PatchToHere(if cst then t else f, if cst then ts1 else fl1);
      ThroughDone(p1, P(), label0, t1, f1, ts1, fl1, cst, c);
      FramedChain(p.code, k, p1.code, k, code, k, c.outer);
      return Pass, l;
    }

    /** `luaK_goiftrue` (lcode.c 1117-1138): go on if the expression is true, jump otherwise. */
    method GoIfTrue(e0: Exp, ghost ts: seq<nat>, ghost fl: seq<nat>, ghost c: Ctx)
      returns (s: Status, f: int, ghost left: seq<nat>)
      requires Valid(e0, ts, fl, c) && (e0.kind.VK? ==> Truthy(k[e0.kind.kx]))
      modifies this`code, this`k, this`pend, this`lasttarget, this`freereg
      ensures s.Pass? ==> GoneThrough(P(), lasttarget, f, left, true, c) && freereg == c.base
      ensures s.Pass? ==> (left == [] <==> fl == [] && IsConst(e0.kind) && !e0.kind.VNil? && !e0.kind.VFalse?)
      ensures s.Pass? ==> Framed(old(code), old(k), code, k, c.outer)
      ensures s.Fail? ==> AtLimit()
    {
      hide Shaped, Denotes, Framed, Split, Dangling, GoneThrough;
      DischargedValid(e0, ts, fl, c);
      var e := Discharged(e0);
      f, left := 0, [];
      OuterLess(e, ts, fl, c);
      ghost var c0, k0, p := code, k, P();
      var pc := NO_JUMP;
      ghost var pcs: seq<nat> := [];
      FramedSelf(code, k, c.outer);
      if e.kind.VJmp? {  // jump when it is false
        JmpFacts(p, lasttarget, e, ts, fl, c.outer);
        SplitByNegated(p, lasttarget, e.kind.pc, ts, fl, c);
        DanglingJmp(p, Inverted(p), lasttarget, e, ts, fl, c.outer);
        NegateCondition(e.kind.pc);
        pc := e.kind.pc;
        pcs := [e.kind.pc];
      } else if e.kind.VK? || e.kind.VKFlt? || e.kind.VKInt? || e.kind.VKStr? || e.kind.VTrue? {
        // always true; do nothing
        DanglingNone(p, lasttarget, e, ts, fl, c.outer);
        ShapedOk(p, lasttarget, e, ts, fl, c.outer);
        SplitConst(p, e.kind, 0, ts, fl, true, c);
        assert fl + [] == fl;
      } else {
        pc :- JumpOnCond(e, false, ts, fl, c);
        pcs := [pc];
      }
      ghost var c1, k1 := code, k;
      f :- GoThrough(e.t, e.f, pc, true, ts, fl, pcs, c);
      FramedChain(c0, k0, c1, k1, code, k, c.outer);
      left := fl + pcs;
      return Pass, f, left;
    }

    /** `luaK_goiffalse` (lcode.c 1144-1164). */
    method GoIfFalse(e0: Exp, ghost ts: seq<nat>, ghost fl: seq<nat>, ghost c: Ctx)
      returns (s: Status, t: int, ghost left: seq<nat>)
      requires Valid(e0, ts, fl, c)
      modifies this`code, this`k, this`pend, this`lasttarget, this`freereg
      ensures s.Pass? ==> GoneThrough(P(), lasttarget, t, left, false, c) && freereg == c.base
      ensures s.Pass? ==> (left == [] <==> ts == [] && (e0.kind.VNil? || e0.kind.VFalse?))
      ensures s.Pass? ==> Framed(old(code), old(k), code, k, c.outer)
      ensures s.Fail? ==> AtLimit()
    {
      hide Shaped, Denotes, Framed, Split, Dangling, GoneThrough;
      DischargedValid(e0, ts, fl, c);
      var e := Discharged(e0);
      t, left := 0, [];
      OuterLess(e, ts, fl, c);
      ghost var c0, k0, p := code, k, P();
      var pc := NO_JUMP;
      ghost var pcs: seq<nat> := [];
      FramedSelf(code, k, c.outer);
      if e.kind.VJmp? {  // already jumps if true
        JmpFacts(p, lasttarget, e, ts, fl, c.outer);
        SplitByJmp(p, e.kind.pc, ts, fl, c);
        DanglingJmp(p, p, lasttarget, e, ts, fl, c.outer);
        pc := e.kind.pc;
        pcs := [e.kind.pc];
      } else if e.kind.VNil? || e.kind.VFalse? {  // always false; do nothing
        DanglingNone(p, lasttarget, e, ts, fl, c.outer);
        SplitConst(p, e.kind, 0, ts, fl, false, c);
        assert ts + [] == ts;
      } else {
        pc :- JumpOnCond(e, true, ts, fl, c);
        pcs := [pc];
      }
      ghost var c1, k1 := code, k;
      t :- GoThrough(e.t, e.f, pc, false, ts, fl, pcs, c);
      FramedChain(c0, k0, c1, k1, code, k, c.outer);
      left := ts + pcs;
      return Pass, t, left;
    }

    /** `negatecondition` (lcode.c 1085-1090). */
    method NegateCondition(pc: nat)
      requires |code| >= 2 && pc == |code| - 1 && IsCompare(code[pc - 1])
      modifies this`code
      ensures P() == Inverted(old(P()))
    {
      code := code[pc - 1 := Negated(code[pc - 1])];
    }

    /** `removevalues` (lcode.c 276-279). */
    method RemoveValues(list0: int, ghost js: seq<nat>)
      requires IsList(code, list0, js)
      modifies this`code
      ensures code == UnsetAll(old(code), js)
    {
      var list := list0;
      ghost var n := 0;
      assert js[0..] == js;
      while list != NO_JUMP
        invariant n <= |js| && IsList(code, list, js[n..]) && UnsetAll(code, js[n..]) == UnsetAll(old(code), js)
        decreases |js| - n
      {
        assert js[n..][0] == js[n] && js[n..][1..] == js[n + 1..];
        ghost var c1 := code;
        var ok := PatchTestReg(list, NO_REG);
        assert code == UnsetOne(c1, list);
        ListJumps(c1, list, js[n..]);
        ListKept(c1, code, list, js[n..]);
        list := GetJump(code, list);
        n := n + 1;
      }
      assert js[n..] == [];
    }

    /** The end of `codenot` (lcode.c 1193-1197): the lists change places and their tests keep no values. */
    method SwapLists(e: Exp, ghost ts: seq<nat>, ghost fl: seq<nat>, ghost c: Ctx) returns (e1: Exp)
      requires RelocOk(e) && Shaped(Solid(e), lasttarget, e, ts, fl, c.outer)
            && HalfNot(Solid(e), e.kind, NotReg(e), ts, fl, c)
      modifies this`code
      ensures e1 == Exp(e.kind, e.f, e.t) && Core(e1, fl, ts, Opposite(c)) && NotReg(e1) == old(NotReg(e))
      ensures Framed(old(code), k, code, k, c.outer)
    {
      hide Shaped, Denotes, Framed, HalfNot, UnsetAll, CodeOk, Blanked, IsList;
      ghost var c0, solid := code, Solid(e);
      ghost var tail := code[|solid.code|..];
      assert code == solid.code + tail;
      ShapedLists(solid, lasttarget, e, ts, fl, c.outer);
      LongLists(solid.code, code, tail, e.t, ts, e.f, fl);
      RemoveValues(e.t, ts);
      UnsetSame(solid.code, ts, tail);
      ListUnset(solid.code, ts, tail, e.f, fl);
      RemoveValues(e.f, fl);
      UnsetSame(UnsetAll(solid.code, ts), fl, tail);
      e1 := Exp(e.kind, e.f, e.t);
      ghost var solid1 := solid.(code := UnsetAll(UnsetAll(solid.code, ts), fl));
      assert code == solid1.code + tail && |solid1.code| == |solid.code|;
      assert code[..|solid1.code|] == solid1.code && (tail != [] ==> code[|code| - 1] == c0[|c0| - 1]);
      assert Solid(e1) == solid1;
      UnsetLists(solid, lasttarget, e, ts, fl, c.outer, e.kind);
      ShapedApart(solid, lasttarget, e, ts, fl, c.outer);
      NotDone(solid, solid1, e.kind, old(NotReg(e)), ts, fl, c);
      TailFrame(solid, solid1, lasttarget, tail, c.outer);
    }

    /** `codenot` for a comparison: its test is inverted. */
    method NegateJmp(e: Exp, ghost ts: seq<nat>, ghost fl: seq<nat>, ghost c: Ctx)
      requires Valid(e, ts, fl, c) && e.kind.VJmp?
      modifies this`code
      ensures Shaped(P(), lasttarget, e, ts, fl, c.outer) && HalfNot(P(), e.kind, 0, ts, fl, c)
            && Framed(old(code), k, code, k, c.outer)
    {
      hide Shaped, Denotes, Framed, HalfNot, CodeOk;
      ghost var p := P();
      JmpFacts(p, lasttarget, e, ts, fl, c.outer);
      NotJmp(p, lasttarget, e.kind.pc, ts, fl, c);
      JmpInverted(p, lasttarget, e, ts, fl, c.outer);
      NegateCondition(e.kind.pc);
    }

    /** `codenot` for other values: a NOT whose register is left open. */
    method NegateValue(e: Exp, ghost ts: seq<nat>, ghost fl: seq<nat>, ghost c: Ctx) returns (s: Status, e1: Exp)
      requires Valid(e, ts, fl, c) && (e.kind.VReloc? || e.kind.VNonReloc?)
      modifies this`code, this`k, this`freereg
      ensures s.Pass? ==> e1.kind.VReloc? && RelocOk(e1) && Level(e1.kind, NotReg(e1), nvar, c.base, freereg)
      ensures s.Pass? ==> Shaped(Solid(e1), lasttarget, e1, ts, fl, c.outer)
                          && HalfNot(Solid(e1), e1.kind, NotReg(e1), ts, fl, c)
      ensures s.Pass? ==> Framed(old(code), old(k), code, k, c.outer)
      ensures s.Fail? ==> AtLimit()
    {
      hide Shaped, Denotes, Framed, HalfNot, CodeOk;
      e1 := e;
      ghost var c0, k0 := code, k;
      OuterLess(e, ts, fl, c);
      e1 :- Discharge2AnyReg(e, ts, fl, c);
      FreeExp(e1);
      var r := e1.kind.reg;
      ghost var p := P();
      NotReg1(p, r, |code|, ts, fl, c);
      KindBare(p, lasttarget, e1, VReloc(|code|), ts, fl, c.outer);
      ShapedLists(p, lasttarget, e1, ts, fl, c.outer);
      e1 := e1.(kind := VReloc(|code|));
      code := code + [Not(0, r)];
      assert Solid(e1) == p;
      LongFrame(p.code, [Not(0, r)], k, c.outer);
      FramedChain(c0, k0, p.code, k, code, k, c.outer);
      return Pass, e1;
    }

    /** `codenot` (lcode.c 1170-1198). */
    method CodeNot(e: Exp, ghost ts: seq<nat>, ghost fl: seq<nat>, ghost c: Ctx) returns (s: Status, e1: Exp)
      requires Valid(e, ts, fl, c) && !e.kind.VLocal? && (e.kind.VK? ==> Truthy(k[e.kind.kx]))
      modifies this`code, this`k, this`freereg
      ensures s.Pass? ==> Valid(e1, fl, ts, Opposite(c)) && Framed(old(code), old(k), code, k, c.outer)
      ensures s.Pass? ==> if IsConst(e.kind) then e1.kind == (if e.kind.VNil?
            || e.kind.VFalse? then VTrue else VFalse) else e1.kind.VJmp? || e1.kind.VReloc?
      ensures s.Fail? ==> AtLimit()
    {
      hide Shaped, Denotes, Framed, HalfNot, CodeOk;
      e1 := e;
      OuterLess(e, ts, fl, c);
      ghost var c0, k0, p := code, k, P();
      FramedSelf(code, k, c.outer);
      if e.kind.VJmp? {
        NegateJmp(e, ts, fl, c);
      } else if e.kind.VReloc? || e.kind.VNonReloc? {
        e1 :- NegateValue(e, ts, fl, c);
      } else {
        e1 := e.(kind := if e.kind.VNil? || e.kind.VFalse? then VTrue else VFalse);
        ShapedOk(p, lasttarget, e, ts, fl, c.outer);
        NotConst(p, e.kind, 0, e1.kind, ts, fl, c);
        KindBare(p, lasttarget, e, e1.kind, ts, fl, c.outer);
      }
      ghost var c1, k1 := code, k;
      e1 := SwapLists(e1, ts, fl, c);
      FramedChain(c0, k0, c1, k1, code, k, c.outer);
      return Pass, e1;
    }
  }

  lemma FirstReady(p: Prog, ts: seq<nat>, fl: seq<nat>, reg: nat, pf: int, pt: int, need: bool)
    requires need ==> LoadsOk(p, pf, pt, reg, ts, fl)
    requires !need ==> (forall j :: j in ts ==> IsSet(p.code, j)) && forall j :: j in fl ==> IsSet(p.code, j)
    ensures DtOk(p, fl, pf, reg, false)
    ensures (exists j :: j in ts && !IsSet(p.code, j)) ==> LoadsOk(p, pf, pt, reg, ts, fl)
  {
    hide Loads;
  }

  lemma PatchLength(c0: seq<Instr>, c1: seq<Instr>, js: seq<nat>)
    requires OnlyPatched(c0, c1, js)
    ensures |c1| == |c0|
  {}

  lemma NilEffect(K: seq<V>, reg: nat)
    ensures forall R1: Regs :: Effect(LoadNil(reg, 0), K, R1) == Set(R1, reg, ValueOf(VNil, K, 0, R1))
  {
    forall R1: Regs ensures Effect(LoadNil(reg, 0), K, R1) == Set(R1, reg, ValueOf(VNil, K, 0, R1)) { NilSet(R1, reg); }
  }

  lemma ShapedOk(p: Prog, label0: nat, e: Exp, ts: seq<nat>, fl: seq<nat>, outer: set<nat>)
    requires Shaped(p, label0, e, ts, fl, outer)
    ensures CodeOk(p, label0) && (e.kind.VK? ==> e.kind.kx < |p.k|) && outer <= p.pend
  {}

  lemma FramedSelf(code: seq<Instr>, k: seq<V>, outer: set<nat>)
    ensures Framed(code, k, code, k, outer)
  {}

  /** Placing a value leaves outer lists alone. */
  lemma PlacedFrame(c0: seq<Instr>, p: Prog, q: Prog, e: Exp, label0: nat, ts: seq<nat>, fl: seq<nat>, outer: set<nat>)
    requires Shaped(p, label0, e, ts, fl, outer) && SetsKept(p, q)
          && (c0 == p.code || (|c0| == |p.code| + 1 && c0[..|p.code|] == p.code))
    ensures Framed(c0, p.k, q.code, q.k, outer)
  {
    forall j | j in outer && j < |c0| ensures j < |q.code| && q.code[j] == c0[j] && IsSet(q.code, j) == IsSet(c0, j) {
      assert j in p.pend && InstrOk(p, label0, j);
      assert p.code[j] == c0[j] && IsSet(p.code, j) == IsSet(c0, j);
    }
  }
}
