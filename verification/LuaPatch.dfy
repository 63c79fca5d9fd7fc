/** Patching whole jump lists, one jump at a time, and its effect on runs. */
module LuaPatch {
  import opened LuaVm
  import opened LuaExp

  /** Fail is the syntax error the source raises when an operand does not fit. */
  datatype Status = Pass | Fail {
    predicate IsFailure() { Fail? }
    function PropagateFailure(): Status { Fail }
  }

  const MAXARG_SJ: int := 0x1FFFFFF
  const OFFSET_SJ: int := 0xFFFFFF
  const MAXARG_BX: int := 0x1FFFF
  const OFFSET_SBX: int := 0xFFFF
  const MAXARG_C: int := 255
  const OFFSET_SC: int := 127
  const MAXARG_AX: int := 0x1FFFFFF
  const MAXINDEXRK: int := 255
  const MAXREGS: int := 255

  predicate FitsC(i: int) {
    0 <= i + OFFSET_SC <= MAXARG_C
  }

  predicate FitsBx(i: int) {
    -OFFSET_SBX <= i <= MAXARG_BX - OFFSET_SBX
  }

  /** Where the jumps of a list lead once patched: tests that hold a value to `vt`, others to `dt`. */
  ghost function Redirect(code: seq<Instr>, js: seq<nat>, vt: nat, reg: nat, dt: int, q: Prog, x: Exit): Exit {
    if x.At? && x.j in js then
      if IsSet(code, x.j) then Run(q, vt, Settle(code, x, reg)) else if dt >= 0 then Run(q, dt, x.R) else Stuck
    else x
  }

  /** Every jump of the list can be sent where it belongs. */
  ghost predicate Targets(p: Prog, label0: nat, js: seq<nat>, vt: nat, dt: int) {
    && Entry(p.code, vt) && (forall j :: j in js ==> j < vt <= label0)
    && ((exists j :: j in js && !IsSet(p.code, j)) ==> dt >= 0 && Entry(p.code, dt)
                                                       && forall j :: j in js ==> j < dt <= label0)
  }

  ghost predicate OnlyPatched(c0: seq<Instr>, c1: seq<Instr>, js: seq<nat>) {
    |c1| == |c0| && forall i: nat {:trigger c0[i]} {:trigger c1[i]} :: i < |c0| && i !in js ==>
      c1[i] == c0[i] || (c0[i].TestSet? && i + 1 in js && (c1[i].TestSet? || c1[i].Test?))
  }

  ghost predicate SameRuns(p: Prog, q: Prog) {
    forall R: Regs :: Run(q, 0, R) == Run(p, 0, R)
  }

  ghost predicate Redirected(p: Prog, js: seq<nat>, vt: nat, reg: nat, dt: int, q: Prog) {
    forall R: Regs :: Run(q, 0, R) == Redirect(p.code, js, vt, reg, dt, q, Run(p, 0, R))
  }

  // ---------------------------------------------------------------- one patch within a list

  ghost predicate AllJumps(code: seq<Instr>, js: seq<nat>) {
    forall j :: j in js ==> j < |code| && code[j].Jmp?
  }

  lemma SetsSame(c0: seq<Instr>, c1: seq<Instr>, js: seq<nat>, j: nat)
    requires OnlyPatched(c0, c1, js) && AllJumps(c0, js) && AllJumps(c1, js) && j !in js
    ensures IsSet(c1, j) == IsSet(c0, j)
  {}

  lemma EntrySame(c0: seq<Instr>, c1: seq<Instr>, js: seq<nat>, t: nat)
    requires OnlyPatched(c0, c1, js) && AllJumps(c1, js) && Entry(c0, t)
    ensures Entry(c1, t)
  {
    if 0 < t <= |c1| {
      var i: nat := t - 1;
      assert !IsTest(c0[i]);
      if i in js { assert c1[i].Jmp?; } else { assert c1[i] == c0[i]; }
    }
  }

  lemma Parts(js: seq<nat>, i: nat)
    requires i <= |js|
    ensures (forall j :: j in js[..i] ==> j in js) && (forall j :: j in js[i..] ==> j in js)
    ensures NoDup(js) && i < |js| ==> js[i] in js && js[i] !in js[..i]
    ensures i < |js| ==> js[..i + 1] == js[..i] + [js[i]]
  {}

  lemma LabelOk(p: Prog, label0: nat)
    requires CodeOk(p, label0)
    ensures label0 <= |p.code|
  {}

  /** One more jump of the list is patched. */
  lemma PatchRun(p0: Prog, p: Prog, label0: nat, js: seq<nat>, i: nat, vt: nat, reg: nat, dt: int, R: Regs)
    requires CodeOk(p, label0) && CodeOk(p0, label0) && i < |js| && js[i] in p.pend && NoDup(js)
    requires OnlyPatched(p0.code, p.code, js[..i]) && AllJumps(p0.code, js) && AllJumps(p.code, js)
    requires Targets(p0, label0, js, vt, dt) && p.k == p0.k && p.ord == p0.ord
    requires Run(p, 0, R) == Redirect(p0.code, js[..i], vt, reg, dt, p, Run(p0, 0, R))
    ensures var target := if IsSet(p0.code, js[i]) then vt else dt;
      && js[i] < target <= label0 && Entry(p.code, target) && IsSet(p.code, js[i]) == IsSet(p0.code, js[i])
      && var q := Patched(p, js[i], target, reg);
         Run(q, 0, R) == Redirect(p0.code, js[..i + 1], vt, reg, dt, q, Run(p0, 0, R))
  {
    hide Run, CodeOk, Settle, Patched;
    var j := js[i];
    Parts(js, i);
    LabelOk(p, label0);
    SetsSame(p0.code, p.code, js[..i], j);
    var target := if IsSet(p0.code, j) then vt else dt;
    EntrySame(p0.code, p.code, js[..i], target);
    EntrySame(p0.code, p.code, js[..i], vt);
    var q := Patched(p, j, target, reg);
    RunPatched(p, label0, j, target, reg, 0, R);
    var x0, x := Run(p0, 0, R), Run(p, 0, R);
    if x0.At? && x0.j in js[..i] {
      assert x0.j in js;
      var t := if IsSet(p0.code, x0.j) then vt else dt;
      var R1 := if IsSet(p0.code, x0.j) then Settle(p0.code, x0, reg) else x0.R;
      RunOk(p, label0, t, R1);
      AfterPatch(p, label0, j, target, reg, t, R1);
    } else if x0.At? && x0.j == j {
      SettleSame(p0.code, p.code, x0, reg);
    }
  }

  lemma SettleSame(c0: seq<Instr>, c1: seq<Instr>, x: Exit, reg: nat)
    requires x.At? && IsSet(c1, x.j) == IsSet(c0, x.j)
    ensures Settle(c1, x, reg) == Settle(c0, x, reg)
    ensures !IsSet(c0, x.j) ==> Settle(c0, x, reg) == x.R
  {}

  lemma AfterPatch(p: Prog, label0: nat, j: nat, target: nat, reg: nat, t: nat, R: Regs)
    requires CodeOk(p, label0) && j in p.pend && j < target <= label0 && j < t <= label0 && Entry(p.code, target)
    ensures Run(Patched(p, j, target, reg), t, R) == Run(p, t, R)
  {
    var q := Patched(p, j, target, reg);
    RunFrom(p, q, label0, t, R);
  }

  lemma PatchOnly(c0: seq<Instr>, p: Prog, js: seq<nat>, i: nat, target: nat, reg: nat)
    requires i < |js| && OnlyPatched(c0, p.code, js[..i]) && js[i] < |p.code| && p.code[js[i]].Jmp? && NoDup(js)
    requires AllJumps(p.code, js) && AllJumps(c0, js) && target > js[i]
    ensures OnlyPatched(c0, Patched(p, js[i], target, reg).code, js[..i + 1])
    ensures AllJumps(Patched(p, js[i], target, reg).code, js)
  {
    var c1 := Patched(p, js[i], target, reg).code;
    Parts(js, i);
    forall a: nat | a < |c0| && a !in js[..i + 1]
      ensures c1[a] == c0[a] || (c0[a].TestSet? && a + 1 in js[..i + 1] && (c1[a].TestSet? || c1[a].Test?))
    {
      assert a !in js[..i] && a != js[i];
      assert p.code[a] == c0[a] || (c0[a].TestSet? && a + 1 in js[..i] && (p.code[a].TestSet? || p.code[a].Test?));
    }
  }

  /** The links of the rest of the list are still there. */
  lemma RestStays(p: Prog, l: int, js: seq<nat>, i: nat, target: nat, reg: nat)
    requires i < |js| && IsList(p.code, l, js[i..]) && NoDup(js) && AllJumps(p.code, js) && target > js[i]
    ensures IsList(Patched(p, js[i], target, reg).code, GetJump(p.code, js[i]), js[i + 1..])
  {
    assert js[i..][0] == js[i] && js[i..][1..] == js[i + 1..];
    var c1 := Patched(p, js[i], target, reg).code;
    Parts(js, i + 1);
    forall j | j in js[i + 1..] && j < |p.code| ensures c1[j] == p.code[j] {
      var a :| i + 1 <= a < |js| && js[a] == j;
    }
    ListKept(p.code, c1, GetJump(p.code, js[i]), js[i + 1..]);
  }

  lemma RedirectNone(p: Prog, vt: nat, reg: nat, dt: int)
    ensures Redirected(p, [], vt, reg, dt, p)
  {}

  lemma RedirectedStep(p0: Prog, p: Prog, label0: nat, js: seq<nat>, i: nat, vt: nat, reg: nat, dt: int)
    requires CodeOk(p, label0) && CodeOk(p0, label0) && i < |js| && js[i] in p.pend && NoDup(js)
    requires OnlyPatched(p0.code, p.code, js[..i]) && AllJumps(p0.code, js) && AllJumps(p.code, js)
    requires Targets(p0, label0, js, vt, dt) && p.k == p0.k && p.ord == p0.ord
    requires Redirected(p0, js[..i], vt, reg, dt, p)
    ensures var target := if IsSet(p0.code, js[i]) then vt else dt;
      && js[i] < target <= label0 && IsSet(p.code, js[i]) == IsSet(p0.code, js[i])
      && var q := Patched(p, js[i], target, reg);
         Redirected(p0, js[..i + 1], vt, reg, dt, q) && CodeOk(q, label0)
  {
    hide Run, CodeOk, Patched, Redirect;
    var j := js[i];
    Parts(js, i);
    SetsSame(p0.code, p.code, js[..i], j);
    var target := if IsSet(p0.code, j) then vt else dt;
    EntrySame(p0.code, p.code, js[..i], target);
    PatchedOk(p, label0, j, target, reg);
    forall R: Regs
      ensures Run(Patched(p, j, target, reg), 0, R) == Redirect(p0.code, js[..i + 1], vt, reg, dt,
          Patched(p, j, target, reg), Run(p0, 0, R))
    {
      PatchRun(p0, p, label0, js, i, vt, reg, dt, R);
    }
  }

  /** Where the loop over a list stands. */
  ghost predicate Halfway(p0: Prog, p: Prog, label0: nat, l: int, js: seq<nat>, i: nat, vt: nat, reg: nat, dt: int) {
    && i <= |js| && CodeOk(p, label0) && IsList(p.code, l, js[i..]) && p.pend == p0.pend - Elems(js[..i])
    && p.k == p0.k && p.ord == p0.ord
    && OnlyPatched(p0.code, p.code, js[..i]) && AllJumps(p.code, js) && Redirected(p0, js[..i], vt, reg, dt, p)
  }

  lemma HalfwayStart(p: Prog, label0: nat, l: int, js: seq<nat>, vt: nat, reg: nat, dt: int)
    requires CodeOk(p, label0) && IsList(p.code, l, js)
    ensures Halfway(p, p, label0, l, js, 0, vt, reg, dt) && AllJumps(p.code, js)
  {
    hide CodeOk, Redirected;
    ListJumps(p.code, l, js);
    RedirectNone(p, vt, reg, dt);
    assert js[0..] == js && js[..0] == [];
  }

  lemma TargetInside(p0: Prog, p: Prog, label0: nat, js: seq<nat>, i: nat, vt: nat, dt: int)
    requires CodeOk(p, label0) && Targets(p0, label0, js, vt, dt) && i < |js|
    ensures (if IsSet(p0.code, js[i]) then vt else dt) <= |p.code|
  {
    hide InstrOk;
    assert js[i] in js;
  }

  lemma HalfwayStep(p0: Prog, p: Prog, label0: nat, l: nat, js: seq<nat>, i: nat, vt: nat, reg: nat, dt: int)
    requires Halfway(p0, p, label0, l, js, i, vt, reg, dt) && CodeOk(p0, label0) && NoDup(js) && Elems(js) <= p0.pend
    requires AllJumps(p0.code, js) && Targets(p0, label0, js, vt, dt)
    ensures i < |js| && l == js[i] && l < |p.code| && p.code[l].Jmp?
    ensures var target := if IsSet(p.code, l) then vt else dt;
      l < target <= |p.code| && Halfway(p0, Patched(p, l, target, reg), label0, GetJump(p.code, l), js, i + 1, vt,
                                        reg, dt)
  {
    hide CodeOk, Redirected, OnlyPatched, Targets, Patched;
    TargetInside(p0, p, label0, js, i, vt, dt);
    Parts(js, i);
    assert js[i..] != [] && js[i..][0] == js[i];
    RedirectedStep(p0, p, label0, js, i, vt, reg, dt);
    var target := if IsSet(p0.code, js[i]) then vt else dt;
    PatchOnly(p0.code, p, js, i, target, reg);
    RestStays(p, l, js, i, target, reg);
    assert Elems(js[..i + 1]) == Elems(js[..i]) + {l};
    PatchFields(p, l, target, reg);
  }

  lemma NotEnd(p0: Prog, p: Prog, label0: nat, l: int, js: seq<nat>, i: nat, vt: nat, reg: nat, dt: int)
    requires Halfway(p0, p, label0, l, js, i, vt, reg, dt) && l != NO_JUMP
    ensures i < |js| && l >= 0
  {
    hide CodeOk, Redirected;
  }

  lemma HalfwayEnd(p0: Prog, p: Prog, label0: nat, js: seq<nat>, i: nat, vt: nat, reg: nat, dt: int)
    requires Halfway(p0, p, label0, NO_JUMP, js, i, vt, reg, dt)
    ensures CodeOk(p, label0) && p.pend == p0.pend - Elems(js) && OnlyPatched(p0.code, p.code, js)
          && AllJumps(p.code, js)
    ensures Redirected(p0, js, vt, reg, dt, p)
  {
    hide CodeOk, Redirected;
    assert js[i..] == [];
    assert js[..i] == js;
  }

  lemma PatchFields(p: Prog, j: nat, target: nat, reg: nat)
    requires j < |p.code|
    ensures var q := Patched(p, j, target, reg); q.pend == p.pend - {j} && q.k == p.k && q.ord == p.ord
  {}
}
