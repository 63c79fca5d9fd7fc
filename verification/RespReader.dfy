/** The resumable parser of the Redis serialization protocol: one item at a time, as a function of the parser's
    state and the bytes at hand, and why the way the bytes are cut does not matter. */
module RespReader {
  import opened RespNumbers

  datatype Ty = TNone | TError | TStatus | TInteger | TDouble | TNil | TString | TArray | TMap | TSet | TBool

  /** A reply under construction: `Null` where nothing has arrived yet. */
  datatype Reply =
    | Null | NilReply | Text(ty: Ty, s: seq<byte>) | Number(v: int) | Double(s: seq<byte>) | Boolean(b: bool)
    | Aggregate(ty: Ty, elems: seq<Reply>)

  datatype Task = Task(ty: Ty, elements: int, idx: int)

  datatype State = State(stack: seq<Task>, reply: Reply)

  datatype Error =
    | BadTypeByte(b: byte) | BadInteger | BadDouble | BadBulkLength | BulkRange | TooDeep | BadMultiBulk
    | MultiBulkRange | OutOfMemory

  /** What the surroundings decide: the largest number of elements that can be allocated at once, and which texts
      `strtod` takes for a number; and whether line ends are found at any distance, as the protocol means it, or
      only at those that the ints of the source can hold. */
  datatype Env = Env(limit: nat, isDouble: seq<byte> -> bool, wide: bool)

  function Wide(env: Env): Env {
    env.(wide := true)
  }

  /** `Abort` is a failed assertion; after `Overrun` the position has left the buffer. */
  datatype Result = Blocked(st: State, n: nat) | Done(st: State, n: nat) | Failed(e: Error) | Abort | Overrun

  /** The conversion of a long long to int. */
  function ToInt(x: int): int {
    (x + 0x8000_0000) % 0x1_0000_0000 - 0x8000_0000
  }

  predicate IsAggregate(t: Ty) {
    t.TArray? || t.TMap? || t.TSet?
  }

  function TypeOf(b: byte): Ty {
    if b == 45 then TError else if b == 43 then TStatus else if b == 58 then TInteger else if b == 44 then TDouble
    else if b == 95 then TNil else if b == 36 then TString else if b == 42 then TArray else if b == 37 then TMap
    else if b == 126 then TSet else if b == 35 then TBool else TNone
  }

  /** The first CR LF, or -1. */
  function FindNl(s: seq<byte>): (i: int)
    ensures -1 <= i && (i >= 0 ==> i + 2 <= |s| && s[i] == 13 && s[i + 1] == 10)
    ensures forall j :: 0 <= j < |s| - 1 && (j < i || i == -1) ==> !(s[j] == 13 && s[j + 1] == 10)
    decreases |s|
  {
    if |s| < 2 then -1
    else if s[0] == 13 && s[1] == 10 then 0
    else
      var r := FindNl(s[1..]);
      assert forall j :: 0 < j < |s| - 1 ==> s[j] == s[1..][j - 1] && s[j + 1] == s[1..][j];
      if r < 0 then -1 else r + 1
  }

  /** What `seekNewline` (read.c 121-145) finds: the length less one is kept in an int. */
  function Seek(s: seq<byte>): (i: int)
    ensures -1 <= i && (i >= 0 ==> i + 2 <= |s| && s[i] == 13 && s[i + 1] == 10)
  {
    var last := ToInt(|s| - 1);
    if last <= 0 then -1 else FindNl(s[..last + 1])
  }

  function LineEnd(env: Env, s: seq<byte>): (i: int)
    ensures -1 <= i && (i >= 0 ==> i + 2 <= |s| && s[i] == 13 && s[i + 1] == 10)
  {
    if env.wide then FindNl(s) else Seek(s)
  }

  /** `readLine` (read.c 221-235) adds the length of the line and its end in an int. */
  predicate Overruns(env: Env, i: int) {
    !env.wide && i + 2 > INT_MAX
  }

  // ---------------------------------------------------------------- replies and the task stack

  /** Put an object where the innermost task belongs: element `idx` of each enclosing aggregate. */
  function Put(root: Reply, path: seq<int>, x: Reply): Reply
    decreases |path|
  {
    if path == [] then x
    else if root.Aggregate? && 0 <= path[0] < |root.elems| then
      root.(elems := root.elems[path[0] := Put(root.elems[path[0]], path[1..], x)])
    else root
  }

  /** The positions of the tasks inside the root task. */
  function Path(stack: seq<Task>): (p: seq<int>)
    requires stack != []
    ensures |p| == |stack| - 1
  {
    seq(|stack| - 1, i requires 0 <= i < |stack| - 1 => stack[i + 1].idx)
  }

  function Top(st: State): Task
    requires st.stack != []
  {
    st.stack[|st.stack| - 1]
  }

  function SetTop(stack: seq<Task>, t: Task): seq<Task>
    requires stack != []
  {
    stack[..|stack| - 1] + [t]
  }

  datatype Moved = Moved(stack: seq<Task>) | Asserted

  /** `moveToNextTask` (read.c 237-262); its assertions are the outcome `Asserted`. */
  function MoveNext(stack: seq<Task>): Moved
    requires stack != []
    decreases |stack|
  {
    if |stack| == 1 then Moved([])
    else
      var cur, prv := stack[|stack| - 1], stack[|stack| - 2];
      if !IsAggregate(prv.ty) then Asserted
      else if cur.idx == prv.elements - 1 then MoveNext(stack[..|stack| - 1])
      else if !(cur.idx < prv.elements) then Asserted
      else Moved(SetTop(stack, Task(TNone, -1, cur.idx + 1)))
  }

  /** The object is put into place and the next task comes up. */
  function Finish(st: State, x: Reply, n: nat): Result
    requires st.stack != []
  {
    match MoveNext(st.stack)
    case Asserted => Abort
    case Moved(stack) => Done(State(stack, Put(st.reply, Path(st.stack), x)), n)
  }

  // ---------------------------------------------------------------- items

  /** `processLineItem` (read.c 264-344). */
  ghost function Line(env: Env, st: State, u: seq<byte>): Result
    requires st.stack != []
  {
    var i := LineEnd(env, u);
    if i < 0 then Blocked(st, 0)
    else if Overruns(env, i) then Overrun
    else
      match Top(st).ty
      case TInteger => (match ParseLL(u[..i]) case None => Failed(BadInteger) case Some(v) =>
                        Finish(st, Number(v), i + 2))
      case TDouble => if i >= 326 || !env.isDouble(u[..i]) then Failed(BadDouble) else Finish(st, Double(u[..i]), i + 2)
      case TNil => Finish(st, NilReply, i + 2)
      case TBool => Finish(st, Boolean(u[0] == 116 || u[0] == 84), i + 2)
      case t => Finish(st, Text(t, u[..i]), i + 2)
  }

  /** `processBulkItem` (read.c 346-408). */
  ghost function Bulk(env: Env, st: State, u: seq<byte>): Result
    requires st.stack != []
  {
    var i := LineEnd(env, u);
    if i < 0 then Blocked(st, 0)
    else
      match ParseLL(u[..i])
      case None => Failed(BadBulkLength)
      case Some(len) =>
        if len < -1 then Failed(BulkRange)
        else if len == -1 then Finish(st, NilReply, i + 2)
        else if i + 2 + len + 2 <= |u| then Finish(st, Text(TString, u[i + 2..i + 2 + len]), i + 2 + len + 2)
        else Blocked(st, 0)
  }

  /** `processAggregateItem` (read.c 411-487). */
  ghost function Multi(env: Env, st: State, u: seq<byte>): Result
    requires st.stack != []
  {
    if |st.stack| == 9 then Failed(TooDeep)
    else
      var i := LineEnd(env, u);
      if i < 0 then Blocked(st, 0)
      else if Overruns(env, i) then Overrun
      else
        match ParseLL(u[..i])
        case None => Failed(BadMultiBulk)
        case Some(elements) =>
          if elements < -1 then Failed(MultiBulkRange)
          else if elements == -1 then Finish(st, NilReply, i + 2)
          else
            var cur := Top(st);
            var n: nat := if cur.ty.TMap? then elements * 2 else elements;
            if n > env.limit then Failed(OutOfMemory)
            else if n == 0 then Finish(st, Aggregate(cur.ty, []), i + 2)
            else
              var x := Aggregate(cur.ty, seq(n, _ => Null));
              Done(State(SetTop(st.stack, cur.(elements := ToInt(n))) + [Task(TNone, -1, 0)],
                         Put(st.reply, Path(st.stack), x)), i + 2)
  }

  ghost function Typed(env: Env, st: State, u: seq<byte>): Result
    requires st.stack != []
  {
    match Top(st).ty
    case TNone => Abort
    case TString => Bulk(env, st, u)
    case TArray => Multi(env, st, u)
    case TMap => Multi(env, st, u)
    case TSet => Multi(env, st, u)
    case _ => Line(env, st, u)
  }

  function Later(r: Result, n: nat): Result {
    match r
    case Blocked(st, k) => Blocked(st, k + n)
    case Done(st, k) => Done(st, k + n)
    case _ => r
  }

  function WithType(st: State, t: Ty): State
    requires st.stack != []
  {
    st.(stack := SetTop(st.stack, Top(st).(ty := t)))
  }

  /** `processItem` (read.c 489-556): the type byte may arrive long before the rest. */
  ghost function Item(env: Env, st: State, u: seq<byte>): Result
    requires st.stack != []
  {
    if !Top(st).ty.TNone? then Typed(env, st, u)
    else if u == [] then Blocked(st, 0)
    else if TypeOf(u[0]).TNone? then Failed(BadTypeByte(u[0]))
    else Later(Typed(env, WithType(st, TypeOf(u[0])), u[1..]), 1)
  }

  lemma {:induction false} ItemSizes(env: Env, st: State, u: seq<byte>)
    requires st.stack != []
    ensures match Item(env, st, u)
      case Done(_, n) => 1 < n <= |u|
      case Blocked(st1, n) => n <= |u| && st1.stack != [] && (n > 0 ==> st1 == WithType(st, TypeOf(u[0])) && n == 1)
        && (n == 0 ==> st1 == st)
      case _ => true
  {
    hide Typed;
    if !Top(st).ty.TNone? {
      TypedSizes(env, st, u);
    } else if u != [] && !TypeOf(u[0]).TNone? {
      TypedSizes(env, WithType(st, TypeOf(u[0])), u[1..]);
    }
  }

  lemma TypedSizes(env: Env, st: State, u: seq<byte>)
    requires st.stack != []
    ensures Typed(env, st, u).Done? ==> 1 < Typed(env, st, u).n <= |u|
    ensures Typed(env, st, u).Blocked? ==> Typed(env, st, u) == Blocked(st, 0)
  {
    hide ParseLL, Put, MoveNext, FindNl, Seek;
  }

  // ---------------------------------------------------------------- more bytes

  lemma {:induction false} NlMore(a: seq<byte>, b: seq<byte>)
    requires FindNl(a) >= 0
    ensures FindNl(a + b) == FindNl(a)
    decreases |a|
  {
    if !(a[0] == 13 && a[1] == 10) {
      assert (a + b)[1..] == a[1..] + b;
      NlMore(a[1..], b);
    }
  }

  /** A typed item that was done or failed stays so when more bytes follow; one that was blocked is as new. */
  lemma TypedMore(env: Env, st: State, a: seq<byte>, b: seq<byte>)
    requires st.stack != [] && env.wide
    ensures Typed(env, st, a).Blocked? ==> Typed(env, st, a) == Blocked(st, 0)
    ensures !Typed(env, st, a).Blocked? ==> Typed(env, st, a + b) == Typed(env, st, a)
  {
    hide ParseLL, Put, MoveNext, Finish, FindNl, Seek;
    TypedSizes(env, st, a);
    var i := FindNl(a);
    if i >= 0 {
      NlMore(a, b);
      assert (a + b)[..i] == a[..i];
      match ParseLL(a[..i])
      case None =>
      case Some(len) =>
        if 0 <= len && i + 2 + len + 2 <= |a| { assert (a + b)[i + 2..i + 2 + len] == a[i + 2..i + 2 + len]; }
    }
  }

  /** Parsing an item with more bytes at hand: the same outcome, or going on where it was blocked. */
  lemma {:induction false} ItemMore(env: Env, st: State, a: seq<byte>, b: seq<byte>)
    requires st.stack != [] && env.wide
    ensures match Item(env, st, a)
      case Blocked(st1, n) => n <= |a| && st1.stack != []
        && Item(env, st, a + b) == Later(Item(env, st1, a[n..] + b), n)
      case r => Item(env, st, a + b) == r
  {
    hide Typed;
    ItemSizes(env, st, a);
    if !Top(st).ty.TNone? {
      TypedMore(env, st, a, b);
      assert a[0..] == a;
    } else if a == [] {
      assert a + b == b && a[0..] + b == b;
    } else if !TypeOf(a[0]).TNone? {
      var st1 := WithType(st, TypeOf(a[0]));
      assert (a + b)[1..] == a[1..] + b;
      TypedMore(env, st1, a[1..], b);
    }
  }

  // ---------------------------------------------------------------- whole replies

  datatype Progress =
    | Ready(reply: Reply, rest: seq<byte>) | Waiting(st: State, rest: seq<byte>) | Broken(e: Error) | Crashed | Lost

  const FRESH: State := State([Task(TNone, -1, -1)], Null)

  /** Items until a reply is complete, the bytes run out, or the input is wrong. */
  ghost function Process(env: Env, st: State, u: seq<byte>): Progress
    requires st.stack != []
    decreases |u|
  {
    ItemSizes(env, st, u);
    match Item(env, st, u)
    case Blocked(st1, n) => Waiting(st1, u[n..])
    case Failed(e) => Broken(e)
    case Abort => Crashed
    case Overrun => Lost
    case Done(st1, n) => if st1.stack == [] then Ready(st1.reply, u[n..]) else Process(env, st1, u[n..])
  }

  lemma {:induction false} ProcessShrinks(env: Env, st: State, u: seq<byte>)
    requires st.stack != []
    ensures Process(env, st, u).Ready? ==> |Process(env, st, u).rest| < |u|
    ensures Process(env, st, u).Waiting? ==> Process(env, st, u).st.stack != []
    decreases |u|
  {
    hide Item;
    ItemSizes(env, st, u);
    match Item(env, st, u)
    case Done(st1, n) => if st1.stack != [] { ProcessShrinks(env, st1, u[n..]); }
    case _ =>
  }

  lemma {:induction false} ProcessMore(env: Env, st: State, a: seq<byte>, b: seq<byte>)
    requires st.stack != [] && env.wide
    ensures match Process(env, st, a)
      case Waiting(st1, rest) => st1.stack != [] && Process(env, st, a + b) == Process(env, st1, rest + b)
      case Ready(r, rest) => Process(env, st, a + b) == Ready(r, rest + b)
      case p => Process(env, st, a + b) == p
    decreases |a|
  {
    hide Item;
    ItemSizes(env, st, a);
    ItemSizes(env, st, a + b);
    ItemMore(env, st, a, b);
    match Item(env, st, a)
    case Blocked(st1, n) =>
      ItemSizes(env, st1, a[n..] + b);
      assert (a + b)[n..] == a[n..] + b;
      if n > 0 { RestSame(env, st, st1, a + b, n); } else { assert a[0..] + b == a + b; }
    case Done(st1, n) =>
      assert (a + b)[n..] == a[n..] + b;
      if st1.stack != [] { ProcessMore(env, st1, a[n..], b); }
    case _ =>
  }

  /** Having consumed the type byte first makes no difference. */
  lemma RestSame(env: Env, st: State, st1: State, u: seq<byte>, n: nat)
    requires st.stack != [] && st1.stack != [] && n <= |u| && Item(env, st, u) == Later(Item(env, st1, u[n..]), n)
    ensures Process(env, st, u) == Process(env, st1, u[n..])
  {
    hide Item;
    ItemSizes(env, st, u);
    ItemSizes(env, st1, u[n..]);
    match Item(env, st1, u[n..])
    case Blocked(s2, k) => assert u[n..][k..] == u[k + n..];
    case Done(s2, k) => assert u[n..][k..] == u[k + n..];
    case _ =>
  }

  /** Everything that can be had from the bytes so far: the complete replies, and where the parser stands. */
  datatype Drained = Drained(replies: seq<Reply>, end: Progress)

  ghost function Drain(env: Env, st: State, u: seq<byte>): Drained
    requires st.stack != []
    decreases |u|
  {
    ProcessShrinks(env, st, u);
    match Process(env, st, u)
    case Ready(r, rest) => var d := Drain(env, FRESH, rest); Drained([r] + d.replies, d.end)
    case p => Drained([], p)
  }

  /** Draining after one more chunk: more replies, unless the input was wrong already. */
  ghost function DrainOn(env: Env, d: Drained, b: seq<byte>): Drained
    requires d.end.Waiting? ==> d.end.st.stack != []
  {
    if d.end.Waiting? then var d1 := Drain(env, d.end.st, d.end.rest + b); Drained(d.replies + d1.replies, d1.end)
      else d
  }

  lemma {:induction false} DrainEnds(env: Env, st: State, u: seq<byte>)
    requires st.stack != []
    ensures !Drain(env, st, u).end.Ready? && (Drain(env, st, u).end.Waiting? ==> Drain(env, st, u).end.st.stack != [])
    decreases |u|
  {
    hide Process;
    ProcessShrinks(env, st, u);
    if Process(env, st, u).Ready? { DrainEnds(env, FRESH, Process(env, st, u).rest); }
  }

  /** The central fact: cutting the input in two and draining in between changes nothing. */
  lemma {:induction false} DrainSplit(env: Env, st: State, a: seq<byte>, b: seq<byte>)
    requires st.stack != [] && env.wide
    ensures !Drain(env, st, a).end.Ready? && (Drain(env, st, a).end.Waiting? ==> Drain(env, st, a).end.st.stack != [])
    ensures DrainOn(env, Drain(env, st, a), b) == Drain(env, st, a + b)
    decreases |a|
  {
    hide Process;
    DrainEnds(env, st, a);
    ProcessShrinks(env, st, a);
    ProcessShrinks(env, st, a + b);
    ProcessMore(env, st, a, b);
    match Process(env, st, a)
    case Ready(r, rest) =>
      DrainSplit(env, FRESH, rest, b);
      var d := Drain(env, FRESH, rest);
      if d.end.Waiting? {
        var d1 := Drain(env, d.end.st, d.end.rest + b);
        assert [r] + (d.replies + d1.replies) == ([r] + d.replies) + d1.replies;
      }
    case Waiting(st1, rest) =>
      ProcessShrinks(env, st1, rest + b);
      var d1 := Drain(env, st1, rest + b);
      assert [] + d1.replies == d1.replies;
    case _ =>
  }

  // ---------------------------------------------------------------- positions in an int

  /** Exactly the line ends below the truncated length are seen, and no other is taken for one. */
  lemma SeekExact(s: seq<byte>)
    ensures Seek(s) == FindNl(s) || Seek(s) == -1
    ensures Seek(s) == FindNl(s) <==> FindNl(s) == -1 || FindNl(s) < ToInt(|s| - 1)
  {
    hide FindNl;
    var last := ToInt(|s| - 1);
    if last > 0 { NlBelow(s, last); }
  }

  lemma NlBelow(s: seq<byte>, last: nat)
    requires last < |s|
    ensures FindNl(s[..last + 1]) == if FindNl(s) < last then FindNl(s) else -1
  {
    hide FindNl;
    var seen := s[..last + 1];
    assert s == seen + s[last + 1..];
    if FindNl(seen) >= 0 {
      NlMore(seen, s[last + 1..]);
    } else {
      assert forall j :: 0 <= j <= last ==> seen[j] == s[j];
    }
  }

  lemma TypedWide(env: Env, st: State, u: seq<byte>)
    requires st.stack != [] && |u| <= INT_MAX
    ensures Typed(env, st, u) == Typed(Wide(env), st, u)
  {
    hide ParseLL, Put, MoveNext, Seek;
    SeekExact(u);
    assert ToInt(|u| - 1) == |u| - 1;
    assert LineEnd(env, u) == LineEnd(Wide(env), u);
  }

  lemma ItemWide(env: Env, st: State, u: seq<byte>)
    requires st.stack != [] && |u| <= INT_MAX
    ensures Item(env, st, u) == Item(Wide(env), st, u)
  {
    hide Typed;
    if !Top(st).ty.TNone? {
      TypedWide(env, st, u);
    } else if u != [] && !TypeOf(u[0]).TNone? {
      TypedWide(env, WithType(st, TypeOf(u[0])), u[1..]);
    }
  }

  /** While no more bytes are at hand than an int can count, the parser reads what the protocol means. */
  lemma {:induction false} ProcessWide(env: Env, st: State, u: seq<byte>)
    requires st.stack != [] && |u| <= INT_MAX
    ensures Process(env, st, u) == Process(Wide(env), st, u)
    decreases |u|
  {
    hide Item;
    ItemWide(env, st, u);
    ItemSizes(env, st, u);
    match Item(env, st, u)
    case Done(st1, n) => if st1.stack != [] { ProcessWide(env, st1, u[n..]); }
    case _ =>
  }

  lemma {:induction false} NeverLost(env: Env, st: State, u: seq<byte>)
    requires st.stack != [] && env.wide
    ensures !Process(env, st, u).Lost?
    decreases |u|
  {
    hide ParseLL, Put, MoveNext, FindNl;
    ItemSizes(env, st, u);
    match Item(env, st, u)
    case Done(st1, n) => if st1.stack != [] { NeverLost(env, st1, u[n..]); }
    case _ =>
  }

  /** The bound cannot be raised: a line that ends with the first byte beyond it is lost. */
  lemma WidthExact(env: Env, size: nat)
    requires !env.wide
    ensures (forall st: State, u: seq<byte> ::
              st.stack != [] && |u| <= size ==> Item(env, st, u) == Item(Wide(env), st, u)) <==> size <= INT_MAX
  {
    hide Item;
    if size <= INT_MAX {
      forall st: State, u: seq<byte> | st.stack != [] && |u| <= size
        ensures Item(env, st, u) == Item(Wide(env), st, u)
      {
        ItemWide(env, st, u);
      }
    } else {
      LongestLine(env);
    }
  }

  lemma LongestLine(env: Env)
    requires !env.wide
    ensures exists st: State, u: seq<byte> ::
              st.stack != [] && |u| == INT_MAX + 1 && Item(env, st, u) != Item(Wide(env), st, u)
  {
    hide FindNl, Seek, MoveNext, Put;
    var st := State([Task(TStatus, -1, -1)], Null);
    var u: seq<byte> := seq(INT_MAX - 1, _ => 0 as byte) + [13, 10];
    assert FindNl(u) == INT_MAX - 1 by { NlIs(u, INT_MAX - 1); }
    SeekExact(u);
    assert ToInt(|u| - 1) == INT_MAX;
    assert Item(env, st, u) == Overrun;
    assert !Item(Wide(env), st, u).Overrun?;
  }

  lemma NlIs(s: seq<byte>, i: int)
    requires -1 <= i && (i >= 0 ==> i + 2 <= |s| && s[i] == 13 && s[i + 1] == 10)
    requires forall j :: 0 <= j < |s| - 1 && (j < i || i == -1) ==> !(s[j] == 13 && s[j + 1] == 10)
    ensures FindNl(s) == i
  {
    var r := FindNl(s);
    assert !(r >= 0 && (i == -1 || r < i));
    assert !(i >= 0 && (r == -1 || i < r));
  }

  function Flatten(chunks: seq<seq<byte>>): seq<byte> {
    if chunks == [] then [] else Flatten(chunks[..|chunks| - 1]) + chunks[|chunks| - 1]
  }

  // ---------------------------------------------------------------- bounds and assertions

  /** The reply has an aggregate with an element to fill for each task but the innermost. */
  ghost predicate Fits(root: Reply, stack: seq<Task>)
    requires stack != []
    decreases |stack|
  {
    |stack| > 1 ==>
      && IsAggregate(stack[0].ty) && root.Aggregate? && |root.elems| == stack[0].elements
      && 0 <= stack[1].idx < stack[0].elements
      && Fits(root.elems[stack[1].idx], stack[1..])
  }

  /** At most nine tasks, and every element lies inside the array allocated for it. */
  ghost predicate StateOk(st: State) {
    1 <= |st.stack| <= 9 && Fits(st.reply, st.stack)
  }

  lemma {:induction false} FitsChain(root: Reply, stack: seq<Task>, i: nat)
    requires stack != [] && Fits(root, stack) && i + 1 < |stack|
    ensures IsAggregate(stack[i].ty) && 0 <= stack[i + 1].idx < stack[i].elements
    decreases i
  {
    if i > 0 { FitsChain(root.elems[stack[1].idx], stack[1..], i - 1); }
  }

  /** No assertion of `moveToNextTask` fails where the elements fit. */
  lemma {:induction false} MoveOk(root: Reply, stack: seq<Task>)
    requires stack != [] && Fits(root, stack)
    ensures MoveNext(stack).Moved?
    ensures var next := MoveNext(stack).stack;
      |next| <= |stack| && (next != [] ==>
        && Fits(root, next) && next[..|next| - 1] == stack[..|next| - 1] && 0 < |next| - 1
        && Top(State(next, root)).ty.TNone?)
    decreases |stack|
  {
    if |stack| > 1 {
      FitsChain(root, stack, |stack| - 2);
      FitsPrefix(root, stack, |stack| - 1);
      if stack[|stack| - 1].idx == stack[|stack| - 2].elements - 1 {
        MoveOk(root, stack[..|stack| - 1]);
        var next := MoveNext(stack).stack;
        if next != [] { assert stack[..|stack| - 1][..|next| - 1] == stack[..|next| - 1]; }
      } else {
        var next := SetTop(stack, Task(TNone, -1, stack[|stack| - 1].idx + 1));
        FitsTop(root, stack, next);
      }
    }
  }

  lemma {:induction false} FitsPrefix(root: Reply, stack: seq<Task>, n: nat)
    requires stack != [] && Fits(root, stack) && 0 < n <= |stack|
    ensures Fits(root, stack[..n])
    decreases n
  {
    if n > 1 {
      FitsPrefix(root.elems[stack[1].idx], stack[1..], n - 1);
      assert stack[..n][1..] == stack[1..][..n - 1];
    }
  }

  /** The innermost task may change, as long as its position stays inside. */
  lemma {:induction false} FitsTop(root: Reply, stack: seq<Task>, next: seq<Task>)
    requires stack != [] && Fits(root, stack) && |next| == |stack| && next[..|next| - 1] == stack[..|stack| - 1]
    requires |stack| > 1 ==> 0 <= next[|next| - 1].idx < stack[|stack| - 2].elements
    ensures Fits(root, next)
    decreases |stack|
  {
    if |stack| > 1 {
      assert next[0] == next[..|next| - 1][0] == stack[0];
      if |stack| == 2 {
        assert next[1..] == [next[1]];
      } else {
        assert next[1] == next[..|next| - 1][1] == stack[1];
        assert next[1..][..|next| - 2] == next[..|next| - 1][1..]
          && stack[1..][..|stack| - 2] == stack[..|stack| - 1][1..];
        FitsTop(root.elems[stack[1].idx], stack[1..], next[1..]);
      }
    }
  }

  /** Filling in the innermost element keeps all others in place. */
  lemma {:induction false} FitsPut(root: Reply, stack: seq<Task>, x: Reply)
    requires stack != [] && Fits(root, stack)
    ensures Fits(Put(root, Path(stack), x), stack)
    decreases |stack|
  {
    if |stack| > 1 {
      assert Path(stack)[1..] == Path(stack[1..]);
      FitsPut(root.elems[stack[1].idx], stack[1..], x);
    }
  }

  /** A new aggregate with at least one element, and a task for its first one. */
  lemma {:induction false} FitsPush(root: Reply, stack: seq<Task>, t: Task, elems: seq<Reply>)
    requires stack != [] && Fits(root, stack) && IsAggregate(t.ty) && t.idx == stack[|stack| - 1].idx
          && t.elements == |elems| > 0
    ensures Fits(Put(root, Path(stack), Aggregate(t.ty, elems)), SetTop(stack, t) + [Task(TNone, -1, 0)])
    decreases |stack|
  {
    var next := SetTop(stack, t) + [Task(TNone, -1, 0)];
    if |stack| > 1 {
      assert Path(stack)[1..] == Path(stack[1..]);
      FitsPush(root.elems[stack[1].idx], stack[1..], t, elems);
      assert next[0] == stack[0] && next[1].idx == stack[1].idx;
      assert next[1..] == SetTop(stack[1..], t) + [Task(TNone, -1, 0)];
    } else {
      assert Path(stack) == [];
      assert next[1..] == [next[1]];
    }
  }

  /** With no more elements in one aggregate than an int holds, no assertion fails, the task index stays
      within its bounds, and every object goes into the array allocated for it. */
  lemma ItemSafe(env: Env, st: State, u: seq<byte>)
    requires StateOk(st) && env.limit <= INT_MAX
    ensures !Item(env, st, u).Abort?
    ensures Item(env, st, u).Blocked? ==> StateOk(Item(env, st, u).st)
    ensures Item(env, st, u).Done? && Item(env, st, u).st.stack != [] ==> StateOk(Item(env, st, u).st)
  {
    hide Typed;
    if !Top(st).ty.TNone? {
      TypedSafe(env, st, u);
    } else if u != [] && !TypeOf(u[0]).TNone? {
      var st1 := WithType(st, TypeOf(u[0]));
      if |st.stack| > 1 { FitsChain(st.reply, st.stack, |st.stack| - 2); }
      FitsTop(st.reply, st.stack, st1.stack);
      TypedSafe(env, st1, u[1..]);
    }
  }

  lemma TypedSafe(env: Env, st: State, u: seq<byte>)
    requires StateOk(st) && env.limit <= INT_MAX && !Top(st).ty.TNone?
    ensures !Typed(env, st, u).Abort?
    ensures Typed(env, st, u).Blocked? ==> Typed(env, st, u).st == st
    ensures Typed(env, st, u).Done? && Typed(env, st, u).st.stack != [] ==> StateOk(Typed(env, st, u).st)
  {
    hide ParseLL, Put, Finish, MoveNext, Fits;
    forall x: Reply, n: nat
      ensures Finish(st, x, n).Done? && (Finish(st, x, n).st.stack != [] ==> StateOk(Finish(st, x, n).st))
    {
      FinishSafe(st, x, n);
    }
    var i := LineEnd(env, u);
    if IsAggregate(Top(st).ty) && |st.stack| < 9 && i >= 0 {
      match ParseLL(u[..i])
      case None =>
      case Some(elements) =>
        var cur := Top(st);
        var n := if cur.ty.TMap? then elements * 2 else elements;
        if 0 < n <= env.limit {
          var nulls := seq(n, _ => Null);
          assert ToInt(n) == n == |nulls|;
          FitsPush(st.reply, st.stack, cur.(elements := ToInt(n)), nulls);
        }
    }
  }

  lemma FinishSafe(st: State, x: Reply, n: nat)
    requires StateOk(st)
    ensures Finish(st, x, n).Done? && (Finish(st, x, n).st.stack != [] ==> StateOk(Finish(st, x, n).st))
  {
    FitsPut(st.reply, st.stack, x);
    MoveOk(Put(st.reply, Path(st.stack), x), st.stack);
  }

  /** Over the whole input: with no more elements in one aggregate than an int holds, the parser never fails an
      assertion, and where it waits for more bytes its task index is within bounds. */
  lemma {:induction false} DrainSafe(env: Env, st: State, u: seq<byte>)
    requires StateOk(st) && env.limit <= INT_MAX
    ensures !Drain(env, st, u).end.Crashed?
    ensures Drain(env, st, u).end.Waiting? ==> StateOk(Drain(env, st, u).end.st)
    decreases |u|
  {
    hide Process, StateOk;
    StateThere(st);
    ProcessSafe(env, st, u);
    ProcessShrinks(env, st, u);
    if Process(env, st, u).Ready? {
      FreshState();
      DrainSafe(env, FRESH, Process(env, st, u).rest);
    }
  }

  lemma StateThere(st: State)
    requires StateOk(st)
    ensures st.stack != []
  {
  }

  lemma FreshState()
    ensures StateOk(FRESH)
  {
  }

  lemma {:induction false} ProcessSafe(env: Env, st: State, u: seq<byte>)
    requires StateOk(st) && env.limit <= INT_MAX
    ensures !Process(env, st, u).Crashed?
    ensures Process(env, st, u).Waiting? ==> StateOk(Process(env, st, u).st)
    decreases |u|
  {
    hide Item, Fits;
    ItemSafe(env, st, u);
    ItemSizes(env, st, u);
    match Item(env, st, u)
    case Done(st1, n) => if st1.stack != [] { ProcessSafe(env, st1, u[n..]); }
    case _ =>
  }
}
