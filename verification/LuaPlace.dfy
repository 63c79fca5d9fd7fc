/** The changes to code that expressions make, and why they keep code and values in step. */
module LuaPlace {
  import opened LuaVm
  import opened LuaExp
  import opened LuaPatch

  // ---------------------------------------------------------------- putting a value into a register

  lemma ExtendsRun(p: Prog, q: Prog, label0: nat, R: Regs)
    requires CodeOk(p, label0) && Extends(p, q)
    ensures Run(q, 0, R) == if Run(p, 0, R).Fell? then Run(q, |p.code|, Run(p, 0, R).R) else Run(p, 0, R)
  {
    RunExtends(p, q, label0, 0, R);
  }

  lemma ExtendsSets(p: Prog, q: Prog)
    requires Extends(p, q)
    ensures SetsKept(p, q)
  {
    assert p.k == q.k[..|p.k|];
    forall j | 0 <= j < |p.code| ensures q.code[j] == p.code[j] && IsSet(q.code, j) == IsSet(p.code, j) {
      assert q.code[j] == q.code[..|p.code|][j];
      if j >= 1 { assert q.code[j - 1] == q.code[..|p.code|][j - 1]; }
    }
  }

  lemma ExtendsCode(p: Prog, more: seq<Instr>, k1: seq<V>)
    requires p.k <= k1 && forall j :: j in p.pend ==> j < |p.code|
    ensures Extends(p, p.(code := p.code + more, k := k1))
  {
    var q := p.(code := p.code + more, k := k1);
    assert q.code[..|p.code|] == p.code;
  }

  /** One plain instruction. */
  lemma PlainPlaces(p: Prog, label0: nat, i: Instr, k1: seq<V>, kind: Kind, nb: nat, reg: nat)
    requires CodeOk(p, label0) && p.k <= k1 && IsPlain(i) && (i.LoadK? ==> i.kx < |k1|)
    requires forall R1: Regs :: Effect(i, k1, R1) == Set(R1, reg, ValueOf(kind, p.k, nb, R1))
    ensures var q := p.(code := p.code + [i], k := k1); Places(p, q, kind, nb, reg) && SetsKept(p, q)
                                                        && CodeOk(q, label0)
  {
    hide Effect, ValueOf;
    var q := p.(code := p.code + [i], k := k1);
    ExtendsCode(p, [i], k1);
    ExtendsSets(p, q);
    assert q.code[|p.code|] == i;
    ExtendOk(p, q, label0, label0);
    forall R: Regs ensures Run(q, 0, R) == PutIn(Run(p, 0, R), p.k, kind, nb, reg) {
      ExtendsRun(p, q, label0, R);
      if Run(p, 0, R).Fell? {
        var R1 := Run(p, 0, R).R;
        assert Next(q, |p.code|, R1) == Go(|p.code| + 1, Effect(i, k1, R1));
      }
    }
  }

  /** A constant too far away for one instruction. */
  lemma ExtraPlaces(p: Prog, label0: nat, kx: nat, k1: seq<V>, kind: Kind, reg: nat)
    requires CodeOk(p, label0) && p.k <= k1 && kx < |k1| && IsConst(kind)
          && forall R1: Regs :: ValueOf(kind, p.k, 0, R1) == k1[kx]
    ensures var q := p.(code := p.code + [LoadKX(reg), ExtraArg(kx)], k := k1);
              Places(p, q, kind, 0, reg) && SetsKept(p, q) && CodeOk(q, label0)
  {
    hide ValueOf;
    var q := p.(code := p.code + [LoadKX(reg), ExtraArg(kx)], k := k1);
    ExtendsCode(p, [LoadKX(reg), ExtraArg(kx)], k1);
    ExtendsSets(p, q);
    assert q.code[|p.code|] == LoadKX(reg) && q.code[|p.code| + 1] == ExtraArg(kx);
    ExtendOk(p, q, label0, label0);
    forall R: Regs ensures Run(q, 0, R) == PutIn(Run(p, 0, R), p.k, kind, 0, reg) {
      ExtendsRun(p, q, label0, R);
      if Run(p, 0, R).Fell? {
        var R1 := Run(p, 0, R).R;
        assert Next(q, |p.code|, R1) == Go(|p.code| + 2, Set(R1, reg, k1[kx]));
      }
    }
  }

  lemma NilSet(R: Regs, reg: nat)
    ensures SetNils(R, reg, 0) == Set(R, reg, Nil)
  {}

  lemma NilOk(p: Prog, label0: nat, a1: nat, n1: nat)
    requires CodeOk(p, label0) && |p.code| > 0 && p.code[|p.code| - 1].LoadNil?
    ensures var q := p.(code := p.code[|p.code| - 1 := LoadNil(a1, n1)]); CodeOk(q, label0) && SetsKept(p, q)
  {
    var q := p.(code := p.code[|p.code| - 1 := LoadNil(a1, n1)]);
    forall i | 0 <= i < |q.code| ensures InstrOk(q, label0, i) { assert InstrOk(p, label0, i); }
  }

  /** The last LOADNIL takes in one more register. */
  lemma NilPlaces(p: Prog, label0: nat, a1: nat, n1: nat, nb: nat, reg: nat)
    requires CodeOk(p, label0) && |p.code| > label0 && p.code[|p.code| - 1].LoadNil?
    requires Joins(p.code[|p.code| - 1].a, p.code[|p.code| - 1].n, reg, 0, a1, n1)
    ensures var q := p.(code := p.code[|p.code| - 1 := LoadNil(a1, n1)]);
      Places(p, q, VNil, nb, reg) && CodeOk(q, label0) && SetsKept(p, q)
  {
    var q := p.(code := p.code[|p.code| - 1 := LoadNil(a1, n1)]);
    NilOk(p, label0, a1, n1);
    forall R: Regs ensures Run(q, 0, R) == PutIn(Run(p, 0, R), p.k, VNil, nb, reg) {
      RunNil(p, label0, a1, n1, reg, 0, 0, R);
      if Run(p, 0, R).Fell? { NilSet(Run(p, 0, R).R, reg); }
    }
  }

  /** More constants change nothing. */
  lemma KGrown(p: Prog, label0: nat, k1: seq<V>, e: Exp, nb: nat, ts: seq<nat>, fl: seq<nat>, c: Ctx)
    requires Shaped(p, label0, e, ts, fl, c.outer) && Denotes(p, e.kind, nb, ts, fl, c) && p.k <= k1
    ensures Shaped(p.(k := k1), label0, e, ts, fl, c.outer) && Denotes(p.(k := k1), e.kind, nb, ts, fl, c)
  {
    hide IsList, Outs;
    var q := p.(k := k1);
    ExtendsCode(p, [], k1);
    assert p.code + [] == p.code;
    ExtendOk(p, q, label0, label0);
    forall R: Regs ensures DenotesAt(q, e.kind, nb, ts, fl, c, R) {
      assert DenotesAt(p, e.kind, nb, ts, fl, c, R);
      ExtendsRun(p, q, label0, R);
      RunOk(p, label0, 0, R);
      var x := Run(p, 0, R);
      assert Run(q, 0, R) == x;
    }
  }

  // ---------------------------------------------------------------- patching to the end of the code

  lemma LabelUp(p: Prog, label0: nat, label1: nat)
    requires CodeOk(p, label0) && label0 <= label1 <= |p.code|
    ensures CodeOk(p, label1)
  {
    forall i | 0 <= i < |p.code| ensures InstrOk(p, label1, i) { assert InstrOk(p, label0, i); }
  }

  lemma EndEntry(p: Prog, label0: nat)
    requires CodeOk(p, label0)
    ensures Entry(p.code, |p.code|)
  {
    if |p.code| > 0 { assert InstrOk(p, label0, |p.code| - 1); }
  }

  lemma HereTargets(p: Prog, label0: nat, l: int, js: seq<nat>)
    requires CodeOk(p, label0) && IsList(p.code, l, js)
    ensures Targets(p, |p.code|, js, |p.code|, |p.code|)
  {
    EndEntry(p, label0);
    ListJumps(p.code, l, js);
  }

  /** A list other than the patched one. */
  lemma OtherList(c0: seq<Instr>, c1: seq<Instr>, js: seq<nat>, l: int, other: seq<nat>)
    requires OnlyPatched(c0, c1, js) && IsList(c0, l, other) && forall j :: j in other ==> j !in js
    ensures IsList(c1, l, other)
  {
    ListJumps(c0, l, other);
    forall j | j in other && j < |c0| ensures c1[j] == c0[j] { assert c0[j].Jmp?; }
    ListKept(c0, c1, l, other);
  }
}
