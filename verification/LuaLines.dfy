/** The compressed line table: what the code generator records and what the debug interface reads back. */
module LuaLines {

  const LIMLINEDIFF: int := 0x80
  const ABSLINEINFO: int := -0x80
  const MAXIWTHABS: nat := 120

  datatype AbsLine = AbsLine(pc: nat, line: int)

  function Abs(x: int): nat {
    if x < 0 then -x else x
  }

  /** The line of instruction `pc` as the table encodes it; before the first one, the function's own line. */
  ghost function LineAt(info: seq<int>, abs: seq<AbsLine>, defined: int, pc: int): int
    requires -1 <= pc < |info|
    decreases pc + 1
  {
    if pc == -1 then defined
    else if exists a :: 0 <= a < |abs| && abs[a].pc == pc then
      var a :| 0 <= a < |abs| && abs[a].pc == pc; abs[a].line
    else LineAt(info, abs, defined, pc - 1) + info[pc]
  }

  ghost predicate HasAbs(abs: seq<AbsLine>, pc: int) {
    exists a :: 0 <= a < |abs| && abs[a].pc == pc
  }

  /** Absolute entries are in order, and exactly where the table says so. */
  ghost predicate WellFormed(info: seq<int>, abs: seq<AbsLine>) {
    && (forall a, b :: 0 <= a < b < |abs| ==> abs[a].pc < abs[b].pc)
    && (forall a :: 0 <= a < |abs| ==> abs[a].pc < |info|)
    && (forall p :: 0 <= p < |info| ==> (info[p] == ABSLINEINFO <==> HasAbs(abs, p)) && -0x80 <= info[p] < 0x80)
  }

  lemma AbsAt(info: seq<int>, abs: seq<AbsLine>, defined: int, a: nat)
    requires WellFormed(info, abs) && a < |abs|
    ensures LineAt(info, abs, defined, abs[a].pc) == abs[a].line
  {
    assert HasAbs(abs, abs[a].pc);
    var b :| 0 <= b < |abs| && abs[b].pc == abs[a].pc && LineAt(info, abs, defined, abs[a].pc) == abs[b].line;
  }

  /** A longer table that agrees below encodes the same lines there. */
  lemma {:induction false} LinesKept(info0: seq<int>, abs0: seq<AbsLine>, info1: seq<int>, abs1: seq<AbsLine>,
          defined: int, pc: int)
    requires WellFormed(info0, abs0) && WellFormed(info1, abs1) && -1 <= pc < |info0| && pc < |info1|
    requires forall p :: 0 <= p <= pc ==> info1[p] == info0[p]
    requires forall a :: 0 <= a < |abs0| && a < |abs1| ==> abs1[a] == abs0[a]
    ensures LineAt(info1, abs1, defined, pc) == LineAt(info0, abs0, defined, pc)
    decreases pc + 1
  {
    if pc >= 0 {
      LinesKept(info0, abs0, info1, abs1, defined, pc - 1);
      if HasAbs(abs0, pc) {
        var a :| 0 <= a < |abs0| && abs0[a].pc == pc;
        var b :| 0 <= b < |abs1| && abs1[b].pc == pc;
        SamePlace(abs0, abs1, a, b);
        AbsAt(info0, abs0, defined, a);
        AbsAt(info1, abs1, defined, b);
      }
    }
  }

  lemma SamePlace(abs0: seq<AbsLine>, abs1: seq<AbsLine>, a: nat, b: nat)
    requires a < |abs0| && b < |abs1| && abs0[a].pc == abs1[b].pc
    requires forall i :: 0 <= i < |abs0| && i < |abs1| ==> abs1[i] == abs0[i]
    requires (forall i, j :: 0 <= i < j < |abs0| ==> abs0[i].pc < abs0[j].pc)
          && forall i, j :: 0 <= i < j < |abs1| ==> abs1[i].pc < abs1[j].pc
    ensures a == b
  {
    if a < b { Ordered(abs1, a, b); }
    if b < a { Ordered(abs0, b, a); }
  }

  lemma Ordered(abs: seq<AbsLine>, a: nat, b: nat)
    requires a < b < |abs| && forall i, j :: 0 <= i < j < |abs| ==> abs[i].pc < abs[j].pc
    ensures abs[a].pc < abs[b].pc
  {}

  lemma Grown(info: seq<int>, abs: seq<AbsLine>, dif: int, abs1: seq<AbsLine>, line: int)
    requires WellFormed(info, abs)
    requires (dif == ABSLINEINFO && abs1 == abs + [AbsLine(|info|, line)])
          || (-LIMLINEDIFF < dif < LIMLINEDIFF && abs1 == abs)
    ensures WellFormed(info + [dif], abs1) && (dif != ABSLINEINFO ==> !HasAbs(abs1, |info|))
  {
    var info1 := info + [dif];
    if dif == ABSLINEINFO { assert abs1[|abs|].pc == |info|; }
    forall p | 0 <= p < |info1| ensures (info1[p] == ABSLINEINFO <==> HasAbs(abs1, p)) && -0x80 <= info1[p] < 0x80 {
      if p < |info| && HasAbs(abs, p) {
        var a :| 0 <= a < |abs| && abs[a].pc == p;
        assert abs1[a].pc == p;
      }
      if p < |info| && HasAbs(abs1, p) {
        var a :| 0 <= a < |abs1| && abs1[a].pc == p;
        assert abs[a].pc == p;
      }
    }
  }

  class LineTable {
    var lineinfo: seq<int>
    var abslineinfo: seq<AbsLine>
    var previousline: int
    var iwthabs: nat
    const linedefined: int
    /** The lines that the table encodes. */
    ghost var lines: seq<int>

    ghost predicate Tables()
      reads this
    {
      && |lines| == |lineinfo| && WellFormed(lineinfo, abslineinfo)
      && forall p :: 0 <= p < |lines| ==> LineAt(lineinfo, abslineinfo, linedefined, p) == lines[p]
    }

    ghost function LastAbs(): int
      reads this
    {
      if abslineinfo == [] then -1 else abslineinfo[|abslineinfo| - 1].pc
    }

    /** `previousline` and `iwthabs` describe the last instruction. */
    ghost predicate Settled()
      reads this
    {
      && Tables() && previousline == (if lines == [] then linedefined else lines[|lines| - 1])
      && iwthabs == |lineinfo| - 1 - LastAbs() && iwthabs <= MAXIWTHABS + 1
    }

    /** An instruction with absolute information was removed: the next one gets absolute information. */
    ghost predicate Forced()
      reads this
    {
      Tables() && iwthabs == MAXIWTHABS + 1
    }

    constructor (line: int)
      ensures Settled() && lines == [] && linedefined == line
      ensures lineinfo == [] && abslineinfo == [] && previousline == line && iwthabs == 0
    {
      lineinfo, abslineinfo, previousline, iwthabs, lines := [], [], line, 0, [];
      linedefined := line;
    }

    lemma Appended(dif: int, line: int, abs1: seq<AbsLine>)
      requires Tables()
      requires (dif == ABSLINEINFO && abs1 == abslineinfo + [AbsLine(|lineinfo|, line)])
            || (-LIMLINEDIFF < dif < LIMLINEDIFF && abs1 == abslineinfo
                && line == dif + (if lines == [] then linedefined else lines[|lines| - 1]))
      ensures var info1 := lineinfo + [dif];
        WellFormed(info1, abs1) && forall p :: 0 <= p < |info1| ==>
          LineAt(info1, abs1, linedefined, p) == (lines + [line])[p]
    {
      hide WellFormed;
      var info1 := lineinfo + [dif];
      Grown(lineinfo, abslineinfo, dif, abs1, line);
      forall p | 0 <= p < |info1| ensures LineAt(info1, abs1, linedefined, p) == (lines + [line])[p] {
        if p < |lineinfo| {
          LinesKept(lineinfo, abslineinfo, info1, abs1, linedefined, p);
        } else if dif == ABSLINEINFO {
          AbsAt(info1, abs1, linedefined, |abslineinfo|);
        } else {
          if p > 0 { LinesKept(lineinfo, abslineinfo, info1, abs1, linedefined, p - 1); }
          assert !HasAbs(abs1, p);
        }
      }
    }

    ghost function LastLine(): int
      reads this
    {
      if lines == [] then linedefined else lines[|lines| - 1]
    }

    /** What an emission for `line` takes to be recorded right: absolute information, or a difference to the line that
        really comes last. */
    ghost predicate Encodes(line: int)
      reads this
    {
      Absolute(line) || previousline == LastLine()
    }

    /** Absolute information is recorded: the difference does not fit, or there was none for too long. */
    ghost predicate Absolute(line: int)
      reads this
    {
      Abs(line - previousline) >= LIMLINEDIFF || iwthabs > MAXIWTHABS
    }

    /** `luaK_code` with `savelineinfo` (lcode.c 337-352, 390-398): one instruction, for the given line. */
    method Emit(line: int)
      requires Tables()
      modifies this
      ensures Tables() && |lines| == |old(lines)| + 1 && lines[..|old(lines)|] == old(lines)
      ensures lines[|old(lines)|] == line <==> old(Encodes(line))
      ensures old(Settled() || Forced()) ==> Settled() && lines == old(lines) + [line]
      ensures !old(Encodes(line)) ==> lines[|old(lines)|] == old(LastLine()) + (line - old(previousline))
      ensures previousline == line
      ensures if old(Absolute(line)) then lineinfo == old(lineinfo) + [ABSLINEINFO] && iwthabs == 0
              else lineinfo == old(lineinfo) + [line - old(previousline)] && iwthabs == old(iwthabs) + 1
    {
      hide WellFormed, LineAt;
      var linedif := line - previousline;
      var pc := |lineinfo|;
      var limit := iwthabs > MAXIWTHABS;
      var far := Abs(linedif) >= LIMLINEDIFF;
      ghost var got := if far || limit then line else LastLine() + linedif;
      if !far { iwthabs := iwthabs + 1; }  // only evaluated when the difference fits
      if far || limit {
        Appended(ABSLINEINFO, line, abslineinfo + [AbsLine(pc, line)]);
        abslineinfo := abslineinfo + [AbsLine(pc, line)];
        linedif := ABSLINEINFO;
        iwthabs := 0;
      } else {
        Appended(linedif, got, abslineinfo);
      }
      lineinfo := lineinfo + [linedif];
      previousline := line;
      lines := lines + [got];
    }

    lemma Cut(abs1: seq<AbsLine>)
      requires Tables() && lineinfo != []
      requires var n := |lineinfo| - 1;
        if lineinfo[n] == ABSLINEINFO then abslineinfo != []
          && abs1 == abslineinfo[..|abslineinfo| - 1] else abs1 == abslineinfo
      ensures var n := |lineinfo| - 1;
        WellFormed(lineinfo[..n], abs1) && forall p :: 0 <= p < n ==>
          LineAt(lineinfo[..n], abs1, linedefined, p) == lines[p]
    {
      var n := |lineinfo| - 1;
      var info1 := lineinfo[..n];
      LastIsLast();
      forall p | 0 <= p < n ensures HasAbs(abs1, p) <==> HasAbs(abslineinfo, p) {
        if HasAbs(abslineinfo, p) {
          var a :| 0 <= a < |abslineinfo| && abslineinfo[a].pc == p;
          assert a < |abs1| && abs1[a].pc == p;
        }
      }
      assert lineinfo[n] != ABSLINEINFO ==> !HasAbs(abslineinfo, n);
      forall a | 0 <= a < |abs1| ensures abs1[a].pc < n {
        assert abs1[a] == abslineinfo[a];
        assert abslineinfo[a].pc != n;
      }
      assert WellFormed(info1, abs1);
      forall p | 0 <= p < n ensures LineAt(info1, abs1, linedefined, p) == lines[p] {
        LinesKept(lineinfo, abslineinfo, info1, abs1, linedefined, p);
      }
    }

    /** The source's assertion: the last absolute entry belongs to the last instruction. */
    lemma LastIsLast()
      requires Tables() && lineinfo != []
      ensures lineinfo[|lineinfo| - 1] == ABSLINEINFO ==> abslineinfo != []
                                                          && abslineinfo[|abslineinfo| - 1].pc == |lineinfo| - 1
      ensures lineinfo[|lineinfo| - 1] != ABSLINEINFO ==> forall a :: 0 <= a < |abslineinfo| ==>
          abslineinfo[a].pc < |lineinfo| - 1
    {
      var n := |lineinfo| - 1;
      if lineinfo[n] == ABSLINEINFO {
        assert HasAbs(abslineinfo, n);
        var a :| 0 <= a < |abslineinfo| && abslineinfo[a].pc == n;
      } else {
        assert !HasAbs(abslineinfo, n);
      }
    }

    /** `removelastinstruction` (lcode.c 361-383). The counter is a byte. */
    method RemoveLast()
      requires Tables() && lines != []
      modifies this
      ensures Tables() && lines == old(lines[..|lines| - 1])
      ensures lineinfo == old(lineinfo[..|lineinfo| - 1]) && abslineinfo <= old(abslineinfo)
      ensures if old(lineinfo[|lineinfo| - 1]) != ABSLINEINFO then
                && previousline == old(previousline - lineinfo[|lineinfo| - 1]) && iwthabs == (old(iwthabs) + 255) % 256
                && (old(Settled()) ==> Settled())
              else previousline == old(previousline) && Forced()
    {
      hide WellFormed, LineAt;
      var pc := |lineinfo| - 1;
      LastIsLast();
      if lineinfo[pc] != ABSLINEINFO {
        Cut(abslineinfo);
        Before(pc);
        previousline := previousline - lineinfo[pc];
        iwthabs := (iwthabs + 255) % 256;
      } else {
        Cut(abslineinfo[..|abslineinfo| - 1]);
        abslineinfo := abslineinfo[..|abslineinfo| - 1];
        iwthabs := MAXIWTHABS + 1;
      }
      lineinfo := lineinfo[..pc];
      lines := lines[..pc];
    }

    lemma Before(pc: nat)
      requires Tables() && pc < |lineinfo| && lineinfo[pc] != ABSLINEINFO
      ensures lines[pc] == lineinfo[pc] + (if pc == 0 then linedefined else lines[pc - 1])
    {
      assert !HasAbs(abslineinfo, pc);
      assert LineAt(lineinfo, abslineinfo, linedefined, pc) == LineAt(lineinfo, abslineinfo, linedefined, pc - 1) +
        lineinfo[pc];
    }

    /** `luaK_fixline` (lcode.c 1727-1730). */
    method FixLine(line: int)
      requires Settled() && lines != []
      modifies this
      ensures Settled() && lines == old(lines[..|lines| - 1]) + [line]
    {
      RemoveLast();
      Emit(line);
    }

    lemma Unstarted()
      requires Tables()
      ensures LineAt(lineinfo, abslineinfo, linedefined, -1) == linedefined
    {}

    lemma NoneBetween(i: nat, p: nat)
      requires Tables() && i < |abslineinfo| && abslineinfo[i].pc < p < |lineinfo|
      requires i + 1 < |abslineinfo| ==> p < abslineinfo[i + 1].pc
      ensures lineinfo[p] != ABSLINEINFO
    {
      forall a | 0 <= a < |abslineinfo| ensures abslineinfo[a].pc != p {
        if a < i { Ordered(abslineinfo, a, i); }
        if i + 1 < a { Ordered(abslineinfo, i + 1, a); }
      }
      assert !HasAbs(abslineinfo, p);
    }

    /** `getbaseline` (ldebug.c 58-81): the last absolute entry at or before `pc`, by binary search. */
    method GetBaseLine(pc: nat) returns (baseline: int, basepc: int)
      requires Tables() && pc < |lineinfo|
      ensures -1 <= basepc <= pc && baseline == LineAt(lineinfo, abslineinfo, linedefined, basepc)
      ensures forall p :: basepc < p <= pc ==> lineinfo[p] != ABSLINEINFO
    {
      hide LineAt;
      if |abslineinfo| == 0 || pc < abslineinfo[0].pc {
        forall p | 0 <= p <= pc ensures lineinfo[p] != ABSLINEINFO { assert !HasAbs(abslineinfo, p); }
        Unstarted();
        return linedefined, -1;
      }
      var i := 0;
      if pc >= abslineinfo[|abslineinfo| - 1].pc {
        i := |abslineinfo| - 1;
      } else {
        var j := |abslineinfo| - 1;
        while i < j - 1
          invariant 0 <= i < j < |abslineinfo| && abslineinfo[i].pc <= pc < abslineinfo[j].pc
        {
          var m := (j + i) / 2;
          if pc >= abslineinfo[m].pc { i := m; } else { j := m; }
        }
      }
      AbsAt(lineinfo, abslineinfo, linedefined, i);
      forall p | abslineinfo[i].pc < p <= pc ensures lineinfo[p] != ABSLINEINFO { NoneBetween(i, p); }
      return abslineinfo[i].line, abslineinfo[i].pc;
    }

    /** `luaG_getfuncline` (ldebug.c 89-101): exactly the line recorded for the instruction. */
    method GetFuncLine(pc: nat) returns (line: int)
      requires Tables() && pc < |lineinfo|
      ensures line == lines[pc]
    {
      var basepc;
      line, basepc := GetBaseLine(pc);
      while basepc < pc
        invariant -1 <= basepc <= pc && line == LineAt(lineinfo, abslineinfo, linedefined, basepc)
        invariant forall p :: basepc < p <= pc ==> lineinfo[p] != ABSLINEINFO
      {
        basepc := basepc + 1;
        assert !HasAbs(abslineinfo, basepc);
        line := line + lineinfo[basepc];
      }
    }

    /** `changedline` (ldebug.c 787-793): are the lines of the two instructions different? */
    method ChangedLine(oldpc0: nat, newpc: nat) returns (changed: bool)
      requires Tables() && oldpc0 <= newpc < |lineinfo|
      ensures changed <==> lines[oldpc0] != lines[newpc]
    {
      var oldpc := oldpc0;
      while oldpc < newpc
        invariant oldpc0 <= oldpc <= newpc && lines[oldpc] == lines[oldpc0]
      {
        oldpc := oldpc + 1;
        if lineinfo[oldpc] != 0 {
          var a := GetFuncLine(oldpc - 1);
          var b := GetFuncLine(newpc);
          return a != b;
        }
        Before(oldpc);
      }
      return false;
    }
  }

  datatype Step = EmitFor(line: int) | Replace(line: int) | FixTo(line: int)

  /** The lines a run of the code generator is meant to record. */
  function Recorded(script: seq<Step>): (r: seq<int>)
    decreases |script|
  {
    if script == [] then []
    else
      var r, s := Recorded(script[..|script| - 1]), script[|script| - 1];
      if s.EmitFor? || r == [] then r + [s.line] else r[..|r| - 1] + [s.line]
  }

  /** Any run in which each removal is followed by an emission: every instruction's line is read back. */
  method Generate(script: seq<Step>, linedefined: int) returns (t: LineTable)
    ensures t.Settled() && t.lines == Recorded(script) && t.linedefined == linedefined && fresh(t)
  {
    hide WellFormed, LineAt, LineTable.LastAbs, LineTable.Encodes, LineTable.Absolute;
    t := new LineTable(linedefined);
    for n := 0 to |script|
      invariant t.Settled() && t.lines == Recorded(script[..n]) && fresh(t) && t.linedefined == linedefined
    {
      assert script[..n + 1][..n] == script[..n] && script[..n + 1][n] == script[n];
      match script[n] {
        case EmitFor(line) => t.Emit(line);
        case Replace(line) =>
          if |t.lineinfo| > 0 { t.RemoveLast(); }
          t.Emit(line);
        case FixTo(line) =>
          if |t.lineinfo| > 0 { t.FixLine(line); } else { t.Emit(line); }
      }
    }
    assert script[..|script|] == script;
  }

  /** Two removals in a row are one too many where the first one removes absolute information: `previousline` is then
      that of an instruction that is gone, and the second removal takes away the force to be absolute. Lines 1 and 300
      are emitted and both removed; what is then emitted for line 290 is recorded as line -9. */
  method TwoRemovals() returns (t: LineTable)
    ensures t.Tables() && t.lines == [-9] && t.linedefined == 0
  {
    hide WellFormed, LineAt, LineTable.Tables, LineTable.LastAbs;
    t := new LineTable(0);
    t.Emit(1);
    assert t.lines == [1] && t.lineinfo == [1] && t.Absolute(300);
    t.Emit(300);
    assert t.lines == [1, 300] && t.lineinfo == [1, ABSLINEINFO];
    t.RemoveLast();
    t.RemoveLast();
    assert t.lines == [] && t.previousline == 299 && t.iwthabs == 120;
    t.Emit(290);
  }
}
