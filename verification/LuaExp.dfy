/** Expression descriptors of the code generator and what it means that generated code computes the
    value of an expression, with jumps still to be patched. */
module LuaExp {
  import opened LuaVm

  datatype Kind =
    | VNil | VTrue | VFalse | VK(kx: nat) | VKInt(i: int) | VKFlt(r: real) | VKStr(s: string)
    | VLocal(reg: nat) | VNonReloc(reg: nat) | VReloc(pc: nat) | VJmp(pc: nat)

  const NO_JUMP: int := -1

  /** `expdesc`: with the heads of its lists of jumps taken when it is true and when it is false. */
  datatype Exp = Exp(kind: Kind, t: int, f: int)

  predicate HasJumps(e: Exp) {
    e.t != e.f
  }

  predicate IsConst(k: Kind) {
    k.VNil? || k.VTrue? || k.VFalse? || k.VK? || k.VKInt? || k.VKFlt? || k.VKStr?
  }

  // ---------------------------------------------------------------- jump lists

  /** `getjump`: the next jump of a list, threaded through the jump instructions. */
  function GetJump(code: seq<Instr>, j: nat): int
    requires j < |code| && code[j].Jmp?
  {
    if code[j].sj == NO_JUMP then NO_JUMP else j + 1 + code[j].sj
  }

  ghost predicate IsList(code: seq<Instr>, l: int, js: seq<nat>)
    decreases |js|
  {
    if js == [] then l == NO_JUMP
    else l == js[0] && js[0] < |code| && code[js[0]].Jmp? && IsList(code, GetJump(code, js[0]), js[1..])
  }

  ghost predicate NoDup(js: seq<nat>) {
    forall a, b :: 0 <= a < b < |js| ==> js[a] != js[b]
  }

  ghost function Elems(js: seq<nat>): set<nat> {
    set j | j in js
  }

  lemma {:induction false} ListKept(c0: seq<Instr>, c1: seq<Instr>, l: int, js: seq<nat>)
    requires IsList(c0, l, js) && forall j :: j in js && j < |c0| ==> j < |c1| && c1[j] == c0[j]
    ensures IsList(c1, l, js)
    decreases |js|
  {
    if js != [] {
      assert js[0] in js && forall j :: j in js[1..] ==> j in js;
      ListKept(c0, c1, GetJump(c0, js[0]), js[1..]);
    }
  }

  lemma {:induction false} ListJoined(c0: seq<Instr>, c1: seq<Instr>, l1: int, js1: seq<nat>, l2: int, js2: seq<nat>)
    requires IsList(c0, l1, js1) && IsList(c0, l2, js2) && js1 != [] && js2 != [] && NoDup(js1 + js2)
    requires js1[|js1| - 1] < |c0| && c1 == c0[js1[|js1| - 1] := Jmp(l2 - (js1[|js1| - 1] + 1))]
    ensures IsList(c1, l1, js1 + js2)
    decreases |js1|
  {
    var last := js1[|js1| - 1];
    assert (js1 + js2)[1..] == js1[1..] + js2;
    LastApart(js1, js2);
    if |js1| == 1 {
      ListKept(c0, c1, l2, js2);
      assert js1[1..] + js2 == js2;
      assert GetJump(c1, last) == l2;
    } else {
      assert js1[0] == (js1 + js2)[0] && last == (js1 + js2)[|js1| - 1];
      ListJoined(c0, c1, GetJump(c0, js1[0]), js1[1..], l2, js2);
    }
  }

  lemma LastApart(js1: seq<nat>, js2: seq<nat>)
    requires js1 != [] && NoDup(js1 + js2)
    ensures js1[|js1| - 1] !in js2 && NoDup(js1[1..] + js2)
  {
    var js := js1 + js2;
    forall j | j in js2 ensures j != js1[|js1| - 1] {
      var a :| 0 <= a < |js2| && js2[a] == j;
      assert js[|js1| + a] == j && js[|js1| - 1] == js1[|js1| - 1];
    }
    assert js1[1..] + js2 == js[1..];
    assert forall a :: 0 <= a < |js| - 1 ==> js[1..][a] == js[a + 1];
  }

  // ---------------------------------------------------------------- what code computes

  /** The value of an expression of this kind once its code has fallen through; a pending NOT reads
      register `nb`. */
  function ValueOf(k: Kind, K: seq<V>, nb: nat, R: Regs): V {
    match k
    case VNil => Nil
    case VTrue => Bool(true)
    case VFalse => Bool(false)
    case VK(kx) => if kx < |K| then K[kx] else Nil
    case VKInt(i) => Int(i)
    case VKFlt(r) => Flt(r)
    case VKStr(s) => Str(s)
    case VLocal(r) => Get(R, r)
    case VNonReloc(r) => Get(R, r)
    case VReloc(_) => Bool(!Truthy(Get(R, nb)))
    case VJmp(_) => Bool(false)
  }

  ghost predicate Keep(R0: Regs, R1: Regs, n: nat) {
    forall r :: 0 <= r < n && r < 255 ==> R1[r] == R0[r]
  }

  /** At a pending jump of the list for `c`: a TESTSET holds the value; otherwise it is exactly `c`. */
  ghost predicate HeldOk(code: seq<Instr>, j: nat, c: bool, v: V, held: V) {
    Truthy(v) == c && if IsSet(code, j) then held == v else v == Bool(c)
  }

  ghost predicate Outs(code: seq<Instr>, ts: seq<nat>, fl: seq<nat>, v: V, x: Exit)
    requires x.At?
  {
    (x.j in ts && HeldOk(code, x.j, true, v, x.held)) || (x.j in fl && HeldOk(code, x.j, false, v, x.held))
  }

  /** The surroundings of an expression: jumps pending outside it, the first register it may use, how
      the code before it ended, and its value, both for each initial register file. */
  datatype Ctx = Ctx(outer: set<nat>, base: nat, pre: Regs -> Exit, v: Regs -> V)

  ghost predicate Point(p: Prog, kind: Kind, nb: nat, ts: seq<nat>, fl: seq<nat>, base: nat, R0: Regs, v: V, x: Exit) {
    match x
    case Fell(R1) => Keep(R0, R1, base) && v == ValueOf(kind, p.k, nb, R1)
    case At(j, R1, h) => Keep(R0, R1, base) && (Outs(p.code, ts, fl, v, x) || (kind == VJmp(j) && v == Bool(true)))
    case Stuck => false
  }

  /** Code that left before the expression began has left by an outer jump. */
  ghost predicate Outside(c: Ctx, R: Regs, x: Exit) {
    x == c.pre(R) && x.At? && x.j in c.outer
  }

  ghost predicate DenotesAt(p: Prog, kind: Kind, nb: nat, ts: seq<nat>, fl: seq<nat>, c: Ctx, R: Regs) {
    if c.pre(R).Fell? then Point(p, kind, nb, ts, fl, c.base, c.pre(R).R, c.v(R), Run(p, 0, R))
      else Outside(c, R, Run(p, 0, R))
  }

  /** The code computes the value: falling through leaves it where the kind says, and leaving by a
      pending jump means that it is true or false as the jump's list says. */
  ghost predicate Denotes(p: Prog, kind: Kind, nb: nat, ts: seq<nat>, fl: seq<nat>, c: Ctx) {
    forall R: Regs :: DenotesAt(p, kind, nb, ts, fl, c, R)
  }

  function Own(kind: Kind): set<nat> {
    if kind.VJmp? then {kind.pc} else {}
  }

  ghost predicate Shaped(p: Prog, label0: nat, e: Exp, ts: seq<nat>, fl: seq<nat>, outer: set<nat>) {
    && CodeOk(p, label0) && IsList(p.code, e.t, ts) && IsList(p.code, e.f, fl) && NoDup(ts + fl)
    && p.pend == outer + Elems(ts) + Elems(fl) + Own(e.kind)
    && outer !! Elems(ts) && outer !! Elems(fl) && Own(e.kind) !! (outer + Elems(ts) + Elems(fl))
    && (e.kind.VK? ==> e.kind.kx < |p.k|)
    && (e.kind.VJmp? ==> |p.code| >= 2 && e.kind.pc == |p.code| - 1 && IsCompare(p.code[|p.code| - 2])
                         && label0 <= |p.code| - 2)
    && (e.kind.VJmp? ==> p.code[|p.code| - 1] == Jmp(NO_JUMP))
  }

  /** Registers in use: a value outside the local variables is in the first free one. */
  ghost predicate Level(kind: Kind, nb: nat, nvar: nat, base: nat, freereg: nat) {
    && nvar <= base <= freereg < 255
    && match kind
       case VNonReloc(r) => (r < nvar && freereg == base) || (r == base && freereg == base + 1)
       case VLocal(r) => r < nvar && freereg == base
       case _ => freereg == base
  }

  /** Outer lists are as they were, and no constant was lost. */
  ghost predicate Framed(c0: seq<Instr>, k0: seq<V>, c1: seq<Instr>, k1: seq<V>, outer: set<nat>) {
    && k0 <= k1
    && forall j :: j in outer && j < |c0| ==> j < |c1| && c1[j] == c0[j] && IsSet(c1, j) == IsSet(c0, j)
  }

  // ---------------------------------------------------------------- extending code

  lemma ExtendOk(p: Prog, q: Prog, label0: nat, label1: nat)
    requires CodeOk(p, label0) && Extends(p, q) && label0 <= label1 <= |q.code|
          && forall j :: j in q.pend ==> j < |q.code|
    requires forall i :: |p.code| <= i < |q.code| ==> InstrOk(q, label1, i)
    ensures CodeOk(q, label1)
  {
    forall i | 0 <= i < |p.code| ensures InstrOk(q, label1, i) {
      assert InstrOk(p, label0, i);
      assert q.code[i] == q.code[..|p.code|][i];
      if i + 1 < |p.code| { assert q.code[i + 1] == q.code[..|p.code|][i + 1]; }
      if p.code[i].Jmp? && i !in p.pend {
        assert q.code[i + p.code[i].sj] == q.code[..|p.code|][i + p.code[i].sj];
      }
    }
  }

  function PutIn(x: Exit, K: seq<V>, kind: Kind, nb: nat, reg: nat): Exit {
    if x.Fell? then Fell(Set(x.R, reg, ValueOf(kind, K, nb, x.R))) else x
  }

  /** `q` is `p` and then puts the value of the expression into `reg`. */
  ghost predicate Places(p: Prog, q: Prog, kind: Kind, nb: nat, reg: nat) {
    forall R: Regs :: Run(q, 0, R) == PutIn(Run(p, 0, R), p.k, kind, nb, reg)
  }

  ghost predicate SetsKept(p: Prog, q: Prog) {
    |p.code| <= |q.code| && p.k <= q.k && forall j :: 0 <= j < |p.code| ==>
      (p.code[j].Jmp? ==> q.code[j] == p.code[j]) && IsSet(q.code, j) == IsSet(p.code, j)
  }

  lemma Placed(p: Prog, q: Prog, label0: nat, e: Exp, nb: nat, ts: seq<nat>, fl: seq<nat>, c: Ctx, reg: nat)
    requires Shaped(p, label0, e, ts, fl, c.outer) && Denotes(p, e.kind, nb, ts, fl, c) && !e.kind.VJmp?
    requires Places(p, q, e.kind, nb, reg) && SetsKept(p, q) && CodeOk(q, label0) && q.pend == p.pend
          && c.base <= reg < 255
    ensures Shaped(q, label0, e.(kind := VNonReloc(reg)), ts, fl, c.outer) && Denotes(q, VNonReloc(reg), 0, ts, fl, c)
  {
    hide Run, CodeOk, ValueOf;
    ListsStay(p, q, e.t, ts);
    ListsStay(p, q, e.f, fl);
    forall R: Regs ensures DenotesAt(q, VNonReloc(reg), 0, ts, fl, c, R) {
      PlacedAt(p, q, label0, e, nb, ts, fl, c, reg, R);
    }
  }

  lemma PlacedAt(p: Prog, q: Prog, label0: nat, e: Exp, nb: nat, ts: seq<nat>, fl: seq<nat>, c: Ctx, reg: nat, R: Regs)
    requires DenotesAt(p, e.kind, nb, ts, fl, c, R) && !e.kind.VJmp? && CodeOk(p, label0) && c.base <= reg < 255
    requires Places(p, q, e.kind, nb, reg) && SetsKept(p, q)
    ensures DenotesAt(q, VNonReloc(reg), 0, ts, fl, c, R)
  {
    hide Run;
    RunOk(p, label0, 0, R);
    assert ValueOf(VNonReloc(reg), q.k, 0, R) == Get(R, reg);
  }

  lemma ListsStay(p: Prog, q: Prog, l: int, js: seq<nat>)
    requires IsList(p.code, l, js) && SetsKept(p, q)
    ensures IsList(q.code, l, js)
  {
    ListJumps(p.code, l, js);
    ListKept(p.code, q.code, l, js);
  }

  lemma {:induction false} ListJumps(code: seq<Instr>, l: int, js: seq<nat>)
    requires IsList(code, l, js)
    ensures forall j :: j in js ==> j < |code| && code[j].Jmp?
    decreases |js|
  {
    if js != [] {
      ListJumps(code, GetJump(code, js[0]), js[1..]);
      assert forall j :: j in js ==> j == js[0] || j in js[1..];
    }
  }
}
