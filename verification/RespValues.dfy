/** Replies as the protocol writes them, and that the parser reads them back: every type, nested to the depth that the
    parser allows. */
module RespValues {
  import opened RespNumbers
  import opened RespReader
  import opened RespClient
  import opened RespPrinter

  /** Aggregates are written as the number of their elements, maps as the number of their pairs, then the elements. */
  function Encode(r: Reply): seq<byte> {
    match r
    case Null => []
    case NilReply => [95] + CRLF
    case Text(ty, s) => if ty.TString? then BulkOf(s) else [if ty.TError? then 45 else 43] + s + CRLF
    case Number(v) => [58] + Show(v) + CRLF
    case Double(s) => [44] + s + CRLF
    case Boolean(b) => [35, if b then 116 else 102] + CRLF
    case Aggregate(ty, elems) =>
      [Mark(ty)] + ShowNat(if ty.TMap? then |elems| / 2 else |elems|) + CRLF + EncodeAll(elems)
  }

  function EncodeAll(elems: seq<Reply>): seq<byte> {
    if elems == [] then [] else Encode(elems[0]) + EncodeAll(elems[1..])
  }

  function Mark(ty: Ty): byte {
    if ty.TMap? then 37 else if ty.TSet? then 126 else 42
  }

  /** No line end inside. */
  predicate OneLine(s: seq<byte>) {
    forall j :: 0 <= j < |s| - 1 ==> !(s[j] == 13 && s[j + 1] == 10)
  }

  /** A reply that the protocol can carry and that fits the parser's limits. */
  predicate Sound(env: Env, r: Reply) {
    match r
    case Null => false
    case NilReply => true
    case Text(ty, s) => if ty.TString? then |s| <= LLONG_MAX else (ty.TStatus? || ty.TError?) && OneLine(s)
    case Number(v) => LLONG_MIN <= v <= LLONG_MAX
    case Double(s) => |s| < 326 && env.isDouble(s) && OneLine(s)
    case Boolean(_) => true
    case Aggregate(ty, elems) =>
      && IsAggregate(ty) && (ty.TMap? ==> |elems| % 2 == 0) && |elems| <= env.limit
      && forall i :: 0 <= i < |elems| ==> Sound(env, elems[i])
  }

  /** How deep aggregates are nested. */
  function Height(r: Reply): nat {
    if r.Aggregate? then 1 + Highest(r.elems) else 0
  }

  function Highest(elems: seq<Reply>): nat {
    if elems == [] then 0
    else if Height(elems[0]) > Highest(elems[1..]) then Height(elems[0]) else Highest(elems[1..])
  }

  lemma {:induction false} HeightAt(elems: seq<Reply>, i: nat)
    requires i < |elems|
    ensures Height(elems[i]) <= Highest(elems)
  {
    if i > 0 { HeightAt(elems[1..], i - 1); }
  }

  // ---------------------------------------------------------------- where a finished value goes

  lemma {:induction false} SameMove(s: seq<Task>, t: seq<Task>)
    requires s != [] && |t| == |s| && t[..|s| - 1] == s[..|s| - 1] && t[|s| - 1].idx == s[|s| - 1].idx
    ensures MoveNext(t) == MoveNext(s) && Path(t) == Path(s)
  {
    if |s| > 1 {
      assert t[|s| - 2] == t[..|s| - 1][|s| - 2] == s[|s| - 2];
      forall i | 0 <= i < |s| ensures t[i].idx == s[i].idx {
        if i < |s| - 1 { assert t[i] == t[..|s| - 1][i] == s[i]; }
      }
    }
  }

  /** The type of the innermost task does not matter any more. */
  lemma TypeGone(st: State, t: Ty, x: Reply, n: nat)
    requires st.stack != []
    ensures Finish(WithType(st, t), x, n) == Finish(st, x, n)
  {
    hide MoveNext, Put, Path;
    SameMove(st.stack, WithType(st, t).stack);
  }

  /** The path leads to a place inside the reply. */
  predicate Leads(root: Reply, path: seq<int>)
    decreases |path|
  {
    path == [] ||
    (root.Aggregate? && 0 <= path[0] < |root.elems| && Leads(root.elems[path[0]], path[1..]))
  }

  lemma {:induction false} FitsLeads(root: Reply, stack: seq<Task>)
    requires stack != [] && Fits(root, stack)
    ensures Leads(root, Path(stack))
    decreases |stack|
  {
    if |stack| > 1 {
      assert Path(stack)[1..] == Path(stack[1..]);
      FitsLeads(root.elems[stack[1].idx], stack[1..]);
    }
  }

  /** Filling in an element of what was put there before. */
  lemma {:induction false} PutInside(root: Reply, path: seq<int>, x: Reply, k: int, e: Reply)
    requires Leads(root, path)
    ensures Put(Put(root, path, x), path + [k], e) == Put(root, path, Put(x, [k], e))
    decreases |path|
  {
    if path == [] {
      assert path + [k] == [k];
    } else {
      assert (path + [k])[1..] == path[1..] + [k];
      var i := path[0];
      PutInside(root.elems[i], path[1..], x, k, e);
      var y := Put(root, path, x);
      assert y.elems[i] == Put(root.elems[i], path[1..], x);
      assert y.elems[i := Put(y.elems[i], path[1..] + [k], e)] ==
        root.elems[i := Put(root.elems[i], path[1..], Put(x, [k], e))];
    }
  }

  // ---------------------------------------------------------------- leaves

  /** What follows a value that is finished: the whole reply, or the next value. */
  ghost function Resume(env: Env, f: Result, rest: seq<byte>): Progress
    requires f.Done?
  {
    if f.st.stack == [] then Ready(f.st.reply, rest) else Process(env, f.st, rest)
  }

  /** A value is awaited, with room for `h` more levels. */
  ghost predicate Awaits(env: Env, st: State, h: nat) {
    && env.wide && env.limit <= INT_MAX && StateOk(st) && Top(st).ty.TNone? && |st.stack| + h <= 9
  }

  lemma Finishes(env: Env, st: State, h: nat, x: Reply)
    requires Awaits(env, st, h)
    ensures st.stack != [] && Finish(st, x, 0).Done?
  {
    FinishSafe(st, x, 0);
  }

  /** An item that finishes a value. */
  lemma ItemDone(env: Env, st: State, h: nat, mark: byte, line: seq<byte>, rest: seq<byte>, x: Reply)
    requires Awaits(env, st, h) && !TypeOf(mark).TNone? && |line| > 0
    requires Typed(env, WithType(st, TypeOf(mark)), line + rest) ==
             Finish(WithType(st, TypeOf(mark)), x, |line|)
    ensures st.stack != [] && Finish(st, x, 0).Done?
          && Process(env, st, [mark] + line + rest) == Resume(env, Finish(st, x, 0), rest)
  {
    hide Typed, MoveNext, Put, Path, StateOk;
    Finishes(env, st, h, x);
    var u := [mark] + line + rest;
    assert u[0] == mark && u[1..] == line + rest;
    TypeGone(st, TypeOf(mark), x, |line|);
    StepProcess(env, st, u);
    assert u[|line| + 1..] == rest;
    FinishCount(st, x, |line|);
  }

  lemma FinishCount(st: State, x: Reply, n: nat)
    requires st.stack != [] && Finish(st, x, 0).Done?
    ensures Finish(st, x, n) == Done(Finish(st, x, 0).st, n)
  {}

  lemma LineFound(s: seq<byte>, rest: seq<byte>)
    requires OneLine(s)
    ensures FindNl(s + CRLF + rest) == |s| && (s + CRLF + rest)[..|s|] == s
  {
    hide FindNl;
    var u := s + CRLF + rest;
    forall j | 0 <= j < |s| ensures !(u[j] == 13 && u[j + 1] == 10) {
      if j == |s| - 1 { assert u[j + 1] == 13; }
    }
    NlIs(u, |s|);
  }

  lemma NumberOneLine(v: int)
    ensures OneLine(Show(v)) && |Show(v)| > 0
  {
    hide ShowNat;
    if v < 0 { DigitsOnly(-v); } else { DigitsOnly(v); }
  }

  /** The line types: status, error, number, double, null and boolean. */
  lemma ParseNull(env: Env, st: State, h: nat, rest: seq<byte>)
    requires Awaits(env, st, h)
    ensures st.stack != [] && Finish(st, NilReply, 0).Done?
          && Process(env, st, Encode(NilReply) + rest) == Resume(env, Finish(st, NilReply, 0), rest)
  {
    hide MoveNext, Put, Path, Fits, FindNl, ParseLL, Show, Resume, Finish, Process;
    LineFound([], rest);
    assert [95] + CRLF + rest == [95] + ([] + CRLF) + rest && [] + CRLF + rest == CRLF + rest;
    ItemDone(env, st, h, 95, CRLF, rest, NilReply);
  }

  lemma ParseText(env: Env, st: State, h: nat, ty: Ty, s: seq<byte>, rest: seq<byte>)
    requires Awaits(env, st, h) && Sound(env, Text(ty, s)) && !ty.TString?
    ensures st.stack != [] && Finish(st, Text(ty, s), 0).Done?
          && Process(env, st, Encode(Text(ty, s)) + rest) == Resume(env, Finish(st, Text(ty, s), 0), rest)
  {
    hide MoveNext, Put, Path, Fits, FindNl, ParseLL, Show, Resume, Finish, Process;
    var mark: byte := if ty.TError? then 45 else 43;
    LineFound(s, rest);
    assert Encode(Text(ty, s)) + rest == [mark] + (s + CRLF) + rest;
    ItemDone(env, st, h, mark, s + CRLF, rest, Text(ty, s));
  }

  lemma ParseNumber(env: Env, st: State, h: nat, v: int, rest: seq<byte>)
    requires Awaits(env, st, h) && Sound(env, Number(v))
    ensures st.stack != [] && Finish(st, Number(v), 0).Done?
          && Process(env, st, Encode(Number(v)) + rest) == Resume(env, Finish(st, Number(v), 0), rest)
  {
    hide MoveNext, Put, Path, Fits, FindNl, ParseLL, Show, Resume, Finish, Process;
    NumberOneLine(v);
    LineFound(Show(v), rest);
    ParseShown(v);
    assert Encode(Number(v)) + rest == [58] + (Show(v) + CRLF) + rest;
    ItemDone(env, st, h, 58, Show(v) + CRLF, rest, Number(v));
  }

  lemma ParseDouble(env: Env, st: State, h: nat, s: seq<byte>, rest: seq<byte>)
    requires Awaits(env, st, h) && Sound(env, Double(s))
    ensures st.stack != [] && Finish(st, Double(s), 0).Done?
          && Process(env, st, Encode(Double(s)) + rest) == Resume(env, Finish(st, Double(s), 0), rest)
  {
    hide MoveNext, Put, Path, Fits, FindNl, ParseLL, Show, Resume, Finish, Process;
    LineFound(s, rest);
    assert Encode(Double(s)) + rest == [44] + (s + CRLF) + rest;
    ItemDone(env, st, h, 44, s + CRLF, rest, Double(s));
  }

  lemma ParseBoolean(env: Env, st: State, h: nat, b: bool, rest: seq<byte>)
    requires Awaits(env, st, h) && Sound(env, Boolean(b))
    ensures st.stack != [] && Finish(st, Boolean(b), 0).Done?
          && Process(env, st, Encode(Boolean(b)) + rest) == Resume(env, Finish(st, Boolean(b), 0), rest)
  {
    hide MoveNext, Put, Path, Fits, FindNl, ParseLL, Show, Resume, Finish, Process;
    var c: byte := if b then 116 else 102;
    LineFound([c], rest);
    assert Encode(Boolean(b)) + rest == [35] + ([c] + CRLF) + rest;
    ItemDone(env, st, h, 35, [c] + CRLF, rest, Boolean(b));
  }

  lemma ParseLeaf(env: Env, st: State, h: nat, r: Reply, rest: seq<byte>)
    requires Awaits(env, st, h) && Sound(env, r) && !r.Aggregate? && !(r.Text? && r.ty.TString?)
    ensures st.stack != [] && Finish(st, r, 0).Done?
          && Process(env, st, Encode(r) + rest) == Resume(env, Finish(st, r, 0), rest)
  {
    hide MoveNext, Put, Path, Fits, Resume, Finish, Process, Encode;
    match r
    case NilReply => ParseNull(env, st, h, rest);
    case Text(ty, s) => ParseText(env, st, h, ty, s, rest);
    case Number(v) => ParseNumber(env, st, h, v, rest);
    case Double(s) => ParseDouble(env, st, h, s, rest);
    case Boolean(b) => ParseBoolean(env, st, h, b, rest);
  }

  lemma ParseBulk(env: Env, st: State, h: nat, s: seq<byte>, rest: seq<byte>)
    requires Awaits(env, st, h) && |s| <= LLONG_MAX
    ensures st.stack != [] && Finish(st, Text(TString, s), 0).Done?
    ensures Process(env, st, BulkOf(s) + rest) == Resume(env, Finish(st, Text(TString, s), 0), rest)
  {
    hide MoveNext, Put, Path, Fits, Bulk, ShowNat, Resume, Finish, Process, StateOk;
    Finishes(env, st, h, Text(TString, s));
    var line := ShowNat(|s|) + CRLF + s + CRLF;
    assert BulkOf(s) + rest == [36] + line + rest;
    BulkLine(env, WithType(st, TString), s, rest);
    assert line + rest == ShowNat(|s|) + CRLF + (s + CRLF + rest);
    BulkLength(s);
    ItemDone(env, st, h, 36, line, rest, Text(TString, s));
  }

  // ---------------------------------------------------------------- aggregates

  function Filled(elems: seq<Reply>, k: nat): (r: seq<Reply>)
    ensures |r| == |elems|
  {
    seq(|elems|, i requires 0 <= i < |elems| => if i < k then elems[i] else Null)
  }

  /** The state in which element `k` of an aggregate is awaited that was announced in state `st`. */
  ghost function Within(st: State, ty: Ty, elems: seq<Reply>, k: nat): State
    requires st.stack != []
  {
    State(SetTop(st.stack, Task(ty, |elems|, Top(st).idx)) + [Task(TNone, -1, k)],
          Put(st.reply, Path(st.stack), Aggregate(ty, Filled(elems, k))))
  }

  lemma WithinAwaits(env: Env, st: State, h: nat, ty: Ty, elems: seq<Reply>, k: nat)
    requires Awaits(env, st, h + 1) && IsAggregate(ty) && k < |elems|
    ensures st.stack != [] && Awaits(env, Within(st, ty, elems, k), h)
  {
    hide Put, Path, Fits;
    var t := Task(ty, |elems|, Top(st).idx);
    FitsPush(st.reply, st.stack, t, Filled(elems, k));
    var base := SetTop(st.stack, t) + [Task(TNone, -1, 0)];
    var next := SetTop(st.stack, t) + [Task(TNone, -1, k)];
    assert base[..|base| - 1] == SetTop(st.stack, t) == next[..|next| - 1];
    FitsTop(Within(st, ty, elems, k).reply, base, next);
  }

  /** The element is filled in, and the next one comes up, or the aggregate is finished. */
  lemma WithinFinish(env: Env, st: State, h: nat, ty: Ty, elems: seq<Reply>, k: nat)
    requires Awaits(env, st, h + 1) && IsAggregate(ty) && k < |elems|
    ensures st.stack != []
    ensures Finish(Within(st, ty, elems, k), elems[k], 0) ==
            if k + 1 < |elems| then Done(Within(st, ty, elems, k + 1), 0)
            else Finish(st, Aggregate(ty, elems), 0)
  {
    hide Put, Fits, MoveNext;
    var m := Within(st, ty, elems, k);
    assert st.stack != [];
    WithinPut(env, st, h, ty, elems, k);
    WithinMove(st, ty, elems, k);
    if k + 1 < |elems| {
      assert Put(m.reply, Path(m.stack), elems[k]) == Within(st, ty, elems, k + 1).reply;
    } else {
      assert Filled(elems, k + 1) == elems;
    }
  }

  lemma WithinPut(env: Env, st: State, h: nat, ty: Ty, elems: seq<Reply>, k: nat)
    requires Awaits(env, st, h + 1) && IsAggregate(ty) && k < |elems|
    ensures st.stack != []
    ensures var m := Within(st, ty, elems, k);
      Put(m.reply, Path(m.stack), elems[k]) == Put(st.reply, Path(st.stack), Aggregate(ty, Filled(elems, k + 1)))
  {
    hide Put, Fits;
    var m := Within(st, ty, elems, k);
    FitsLeads(st.reply, st.stack);
    assert Path(m.stack) == Path(st.stack) + [k];
    PutInside(st.reply, Path(st.stack), Aggregate(ty, Filled(elems, k)), k, elems[k]);
    PutElement(Aggregate(ty, Filled(elems, k)), k, elems[k]);
    assert Filled(elems, k)[k := elems[k]] == Filled(elems, k + 1);
  }

  lemma WithinMove(st: State, ty: Ty, elems: seq<Reply>, k: nat)
    requires st.stack != [] && IsAggregate(ty) && k < |elems|
    ensures MoveNext(Within(st, ty, elems, k).stack) ==
            if k + 1 < |elems| then Moved(Within(st, ty, elems, k + 1).stack) else MoveNext(st.stack)
  {
    hide Put, Path;
    var t := SetTop(st.stack, Task(ty, |elems|, Top(st).idx));
    var m := t + [Task(TNone, -1, k)];
    assert m[..|m| - 1] == t && m[|m| - 2] == Task(ty, |elems|, Top(st).idx);
    if k + 1 == |elems| { SameMove(st.stack, t); }
  }

  /** The announcement of an aggregate. */
  lemma ParseHead(env: Env, st: State, h: nat, ty: Ty, elems: seq<Reply>, tail: seq<byte>)
    requires Awaits(env, st, h + 1) && IsAggregate(ty) && |elems| <= env.limit && (ty.TMap? ==> |elems| % 2 == 0)
    ensures st.stack != [] && Finish(st, Aggregate(ty, elems), 0).Done?
    ensures var head := [Mark(ty)] + ShowNat(if ty.TMap? then |elems| / 2 else |elems|) + CRLF;
      Process(env, st, head + tail) ==
        if elems == [] then Resume(env, Finish(st, Aggregate(ty, elems), 0), tail)
        else Process(env, Within(st, ty, elems, 0), tail)
  {
    hide MoveNext, Put, Path, Fits, ShowNat, LineEnd, ParseLL, Resume, Finish, Process, StateOk;
    Finishes(env, st, h + 1, Aggregate(ty, elems));
    var n := if ty.TMap? then |elems| / 2 else |elems|;
    var line := ShowNat(n) + CRLF;
    var u := [Mark(ty)] + ShowNat(n) + CRLF + tail;
    assert u == [Mark(ty)] + line + tail && line + tail == ShowNat(n) + CRLF + tail;
    NumberLine(env, n, tail);
    NumberLength(n);
    assert TypeOf(Mark(ty)) == ty;
    if elems == [] {
      assert Aggregate(ty, []) == Aggregate(ty, elems);
      ItemDone(env, st, h + 1, Mark(ty), line, tail, Aggregate(ty, elems));
    } else {
      HeadPushes(env, st, h, ty, elems, line, tail);
    }
  }

  lemma HeadPushes(env: Env, st: State, h: nat, ty: Ty, elems: seq<Reply>, line: seq<byte>, tail: seq<byte>)
    requires Awaits(env, st, h + 1) && IsAggregate(ty) && 0 < |elems| <= env.limit && (ty.TMap? ==> |elems| % 2 == 0)
    requires st.stack != [] && |line| > 2 && TypeOf(Mark(ty)) == ty
    requires LineEnd(env, line + tail) == |line| - 2
    requires ParseLL((line + tail)[..|line| - 2]) == Some(if ty.TMap? then |elems| / 2 else |elems|)
    ensures Process(env, st, [Mark(ty)] + line + tail) == Process(env, Within(st, ty, elems, 0), tail)
  {
    hide MoveNext, Put, Fits, LineEnd, ParseLL, Finish, StateOk;
    var u := [Mark(ty)] + line + tail;
    var st1 := WithType(st, ty);
    assert u[0] == Mark(ty) && u[1..] == line + tail;
    SameMove(st.stack, st1.stack);
    assert seq(|elems|, _ => Null) == Filled(elems, 0);
    assert ToInt(|elems|) == |elems|;
    assert SetTop(st1.stack, Top(st1).(elements := |elems|)) == SetTop(st.stack, Task(ty, |elems|, Top(st).idx));
    assert Typed(env, st1, u[1..]) == Done(Within(st, ty, elems, 0), |line|);
    StepProcess(env, st, u);
    assert u[|line| + 1..] == tail;
  }

  // ---------------------------------------------------------------- the round trip

  /** Reading a value back, where one is awaited: it ends up where it belongs, and reading goes on behind it. */
  lemma {:induction false} ParseValue(env: Env, st: State, r: Reply, rest: seq<byte>)
    requires Awaits(env, st, Height(r)) && Sound(env, r)
    ensures st.stack != [] && Finish(st, r, 0).Done?
          && Process(env, st, Encode(r) + rest) == Resume(env, Finish(st, r, 0), rest)
    decreases r, if r.Aggregate? then |r.elems| + 1 else 0
  {
    hide Process, Finish, Resume, StateOk;
    if r.Aggregate? {
      var ty, elems := r.ty, r.elems;
      var head := [Mark(ty)] + ShowNat(if ty.TMap? then |elems| / 2 else |elems|) + CRLF;
      assert Encode(r) + rest == head + (EncodeAll(elems) + rest);
      ParseHead(env, st, Highest(elems), ty, elems, EncodeAll(elems) + rest);
      if elems == [] {
        assert EncodeAll(elems) + rest == rest;
      } else {
        assert elems[0..] == elems;
        ParseElems(env, st, r, 0, rest);
      }
    } else if r.Text? && r.ty.TString? {
      ParseBulk(env, st, 0, r.s, rest);
    } else {
      ParseLeaf(env, st, 0, r, rest);
    }
  }

  lemma {:induction false} ParseElems(env: Env, st: State, r: Reply, k: nat, rest: seq<byte>)
    requires Awaits(env, st, Height(r)) && Sound(env, r) && r.Aggregate? && k < |r.elems|
    ensures st.stack != [] && Finish(st, r, 0).Done?
    ensures Process(env, Within(st, r.ty, r.elems, k), EncodeAll(r.elems[k..]) + rest) ==
            Resume(env, Finish(st, r, 0), rest)
    decreases r, |r.elems| - k
  {
    hide Process, Finish, StateOk;
    var elems := r.elems;
    Finishes(env, st, Height(r), r);
    assert elems[k..][1..] == elems[k + 1..];
    var tail := EncodeAll(elems[k + 1..]) + rest;
    assert EncodeAll(elems[k..]) + rest == Encode(elems[k]) + tail;
    HeightAt(elems, k);
    WithinAwaits(env, st, Highest(elems), r.ty, elems, k);
    WithinFinish(env, st, Highest(elems), r.ty, elems, k);
    ParseValue(env, Within(st, r.ty, elems, k), elems[k], tail);
    if k + 1 < |elems| {
      ParseElems(env, st, r, k + 1, rest);
    } else {
      assert EncodeAll(elems[k + 1..]) + rest == rest;
    }
  }

  /** The round trip for replies: whatever follows on the wire, what the protocol writes for a reply is read back as
      that reply, as the protocol means it, and in the source while an int counts the bytes at hand. */
  lemma ReplyBack(env: Env, r: Reply, rest: seq<byte>)
    requires Sound(env, r) && Height(r) <= 8 && env.limit <= INT_MAX
    requires env.wide || |Encode(r) + rest| <= INT_MAX
    ensures Process(env, FRESH, Encode(r) + rest) == Ready(r, rest)
  {
    hide Process, Sound;
    SoundWide(env, r);
    FreshState();
    ParseValue(Wide(env), FRESH, r, rest);
    assert MoveNext(FRESH.stack) == Moved([]) && Path(FRESH.stack) == [];
    RootPut(r);
    if !env.wide { ProcessWide(env, FRESH, Encode(r) + rest); }
  }

  lemma SoundWide(env: Env, r: Reply)
    requires Sound(env, r)
    ensures Sound(Wide(env), r)
  {}

  /** A stream of replies gives these replies. */
  lemma {:induction false} StreamBack(env: Env, rs: seq<Reply>)
    requires (forall i :: 0 <= i < |rs| ==> Sound(env, rs[i]) && Height(rs[i]) <= 8) && env.limit <= INT_MAX && env.wide
    ensures Drain(env, FRESH, EncodeAll(rs)) == Drained(rs, Waiting(FRESH, []))
  {
    hide Process;
    if rs == [] {
      DrainNothing(env);
    } else {
      ReplyBack(env, rs[0], EncodeAll(rs[1..]));
      StreamBack(env, rs[1..]);
      DrainFirst(env, FRESH, EncodeAll(rs));
      assert [rs[0]] + rs[1..] == rs;
    }
  }

  /** What a client sees: fed with a stream of replies in whatever pieces, it gets exactly these replies. */
  method FeedReplies(env: Env, rs: seq<Reply>, chunks: seq<seq<byte>>, large: bool)
      returns (r: Reader, got: seq<Reply>)
    requires (forall i :: 0 <= i < |rs| ==> Sound(env, rs[i]) && Height(rs[i]) <= 8) && env.limit <= INT_MAX
    requires !env.wide && Flatten(chunks) == EncodeAll(rs) && Modest(env, chunks)
    ensures got == rs && r.Valid() && r.View() == Waiting(FRESH, [])
  {
    hide Process, Drain, Reader.Valid, Reader.View, Sound;
    forall i | 0 <= i < |rs| ensures Sound(Wide(env), rs[i]) { SoundWide(env, rs[i]); }
    StreamBack(Wide(env), rs);
    r, got := FeedAll(env, chunks, large);
  }

  // ---------------------------------------------------------------- what is refused

  /** A line behind its type byte, as the protocol means it. */
  lemma FirstLine(env: Env, mark: byte, s: seq<byte>, rest: seq<byte>)
    requires env.wide && OneLine(s) && !TypeOf(mark).TNone?
    ensures var u := [mark] + s + CRLF + rest;
      && u[0] == mark && FindNl(u[1..]) == |s| && u[1..][..|s|] == s && u[1..][|s| + 2..] == rest
      && Item(env, FRESH, u) == Later(Typed(env, WithType(FRESH, TypeOf(mark)), u[1..]), 1)
  {
    hide Typed, FindNl;
    var u := [mark] + s + CRLF + rest;
    assert u[1..] == s + CRLF + rest;
    LineFound(s, rest);
  }

  ghost predicate IsNumber(s: seq<byte>) {
    exists v :: Parses(s, v)
  }

  lemma ParseExactly(s: seq<byte>)
    ensures ParseLL(s).Some? <==> IsNumber(s)
    ensures ParseLL(s).Some? ==> s == Show(ParseLL(s).value) && LLONG_MIN <= ParseLL(s).value <= LLONG_MAX
  {}

  /** An integer reply is refused if and only if its line is not exactly a printed 64-bit number. */
  lemma IntegerRefused(env: Env, s: seq<byte>, rest: seq<byte>)
    requires env.wide && OneLine(s)
    ensures Process(env, FRESH, [58] + s + CRLF + rest) == Broken(BadInteger) <==> !IsNumber(s)
  {
    hide ParseLL, IsNumber, Process, MoveNext, Put, Path, FindNl;
    ParseExactly(s);
    if ParseLL(s).Some? { FreshDone(TInteger, Number(ParseLL(s).value), |s| + 2); }
    FirstLine(env, 58, s, rest);
    StepProcess(env, FRESH, [58] + s + CRLF + rest);
  }

  /** The length of a bulk string: no printed 64-bit number and anything below minus one are refused; minus one is a
      null. */
  lemma BulkRefused(env: Env, s: seq<byte>, rest: seq<byte>)
    requires env.wide && OneLine(s)
    ensures var p := Process(env, FRESH, [36] + s + CRLF + rest);
      && (p == Broken(BadBulkLength) <==> !IsNumber(s))
      && (p == Broken(BulkRange) <==> exists v :: Parses(s, v) && v < -1)
      && (s == Show(-1) ==> p == Ready(NilReply, rest))
  {
    hide ParseLL, IsNumber, Process, MoveNext, Put, FindNl, Show;
    ParseExactly(s);
    ParsedValue(s);
    FirstLine(env, 36, s, rest);
    FreshDone(TString, NilReply, |s| + 2);
    MinusOne(s);
    var u := [36] + s + CRLF + rest;
    StepProcess(env, FRESH, u);
    assert u[1 + |s| + 2..] == u[1..][|s| + 2..];
  }

  lemma ParsedValue(s: seq<byte>)
    ensures forall v :: Parses(s, v) <==> ParseLL(s) == Some(v)
  {
    forall v ensures Parses(s, v) <==> ParseLL(s) == Some(v) {
      if Parses(s, v) { ParseShown(v); }
    }
  }

  lemma MinusOne(s: seq<byte>)
    ensures s == Show(-1) ==> ParseLL(s) == Some(-1)
  {
    ParseShown(-1);
  }

  lemma FreshDone(ty: Ty, x: Reply, n: nat)
    ensures Finish(WithType(FRESH, ty), x, n) == Done(State([], x), n)
  {
    var st := WithType(FRESH, ty);
    assert st.stack == [Task(ty, -1, -1)] && Path(st.stack) == [];
    RootPut(x);
  }

  /** The count of an aggregate: refused like the length of a bulk string, or if memory does not allow so many elements,
      twice as many in a map; minus one is a null. */
  lemma AggregateRefused(env: Env, ty: Ty, s: seq<byte>, rest: seq<byte>)
    requires env.wide && OneLine(s) && IsAggregate(ty)
    ensures var p := Process(env, FRESH, [Mark(ty)] + s + CRLF + rest);
      && (!IsNumber(s) ==> p == Broken(BadMultiBulk))
      && (s == Show(-1) ==> p == Ready(NilReply, rest))
      && forall v :: Parses(s, v) ==>
           && (v < -1 ==> p == Broken(MultiBulkRange))
           && ((if ty.TMap? then 2 * v else v) > env.limit ==> p == Broken(OutOfMemory))
  {
    hide ParseLL, IsNumber, Process, MoveNext, Put, FindNl, Show;
    ParseExactly(s);
    ParsedValue(s);
    assert TypeOf(Mark(ty)) == ty;
    FirstLine(env, Mark(ty), s, rest);
    FreshDone(ty, NilReply, |s| + 2);
    MinusOne(s);
    var u := [Mark(ty)] + s + CRLF + rest;
    StepProcess(env, FRESH, u);
    assert u[1 + |s| + 2..] == u[1..][|s| + 2..];
  }

  /** A double is refused if it is too long, or no number to `strtod`. */
  lemma DoubleRefused(env: Env, s: seq<byte>, rest: seq<byte>)
    requires env.wide && OneLine(s)
    ensures Process(env, FRESH, [44] + s + CRLF + rest) == Broken(BadDouble) <==> |s| >= 326 || !env.isDouble(s)
  {
    hide Process, MoveNext, Put, Path, FindNl;
    FreshDone(TDouble, Double(s), |s| + 2);
    FirstLine(env, 44, s, rest);
    StepProcess(env, FRESH, [44] + s + CRLF + rest);
  }

  /** A null and a boolean take any line; a boolean is true if the line begins with `t` or `T`. */
  lemma LooseLines(env: Env, s: seq<byte>, rest: seq<byte>)
    requires env.wide && OneLine(s)
    ensures Process(env, FRESH, [95] + s + CRLF + rest) == Ready(NilReply, rest)
    ensures Process(env, FRESH, [35] + s + CRLF + rest) ==
            Ready(Boolean(s != [] && (s[0] == 116 || s[0] == 84)), rest)
  {
    NullLine(env, s, rest);
    BooleanLine(env, s, rest);
  }

  lemma NullLine(env: Env, s: seq<byte>, rest: seq<byte>)
    requires env.wide && OneLine(s)
    ensures Process(env, FRESH, [95] + s + CRLF + rest) == Ready(NilReply, rest)
  {
    hide Process, MoveNext, Put, Path, FindNl;
    var u := [95] + s + CRLF + rest;
    FreshDone(TNil, NilReply, |s| + 2);
    FirstLine(env, 95, s, rest);
    StepProcess(env, FRESH, u);
    assert u[1 + |s| + 2..] == u[1..][|s| + 2..];
  }

  lemma BooleanLine(env: Env, s: seq<byte>, rest: seq<byte>)
    requires env.wide && OneLine(s)
    ensures Process(env, FRESH, [35] + s + CRLF + rest) ==
            Ready(Boolean(s != [] && (s[0] == 116 || s[0] == 84)), rest)
  {
    hide Process, MoveNext, Put, Path, FindNl;
    var u := [35] + s + CRLF + rest;
    var b := s != [] && (s[0] == 116 || s[0] == 84);
    FreshDone(TBool, Boolean(b), |s| + 2);
    FirstLine(env, 35, s, rest);
    assert u[1] == if s == [] then 13 else s[0];
    StepProcess(env, FRESH, u);
    assert u[1 + |s| + 2..] == u[1..][|s| + 2..];
  }

  /** A reply starts with one of ten bytes, or is refused. */
  lemma TypeRefused(env: Env, b: byte, rest: seq<byte>)
    ensures Item(env, FRESH, [b] + rest) == Failed(BadTypeByte(b)) <==>
            b !in {45, 43, 58, 44, 95, 36, 42, 37, 126, 35}
    ensures b !in {45, 43, 58, 44, 95, 36, 42, 37, 126, 35} ==>
              Process(env, FRESH, [b] + rest) == Broken(BadTypeByte(b))
  {
    hide ParseLL, MoveNext, Put, Path, LineEnd, Process;
    StepProcess(env, FRESH, [b] + rest);
  }

  /** Nine aggregates inside one another are refused, however long they are. */
  lemma TooDeepRefused(env: Env, st: State, u: seq<byte>)
    requires StateOk(st) && |st.stack| == 9 && Top(st).ty.TNone? && u != [] && IsAggregate(TypeOf(u[0]))
    ensures Process(env, st, u) == Broken(TooDeep)
  {
    hide Process;
    StepProcess(env, st, u);
  }
}
