/** The reader object (`redisReader`): a buffer with a cursor and a stack of nine tasks, changed in place. Some
    positions in the buffer are kept in an int. */
module RespClient {
  import opened RespNumbers
  import opened RespReader

  /** `seekNewline` (read.c 121-145). */
  method SeekNewline(s: seq<byte>) returns (r: int)
    ensures r == Seek(s)
  {
    hide FindNl;
    var pos := 0;
    var last := ToInt(|s| - 1);
    while pos < last
      invariant 0 <= pos && (last > 0 ==> pos <= last)
      invariant forall j :: 0 <= j < pos && j < |s| - 1 ==> !(s[j] == 13 && s[j + 1] == 10)
    {
      while pos < last && s[pos] != 13
        invariant pos <= last && forall j :: 0 <= j < pos ==> !(s[j] == 13 && s[j + 1] == 10)
      {
        pos := pos + 1;
      }
      if pos == last {
        NlIs(s[..last + 1], -1);
        return -1;
      }
      if s[pos + 1] == 10 {
        NlIs(s[..last + 1], pos);
        return pos;
      }
      pos := pos + 1;
    }
    if last > 0 { NlIs(s[..last + 1], -1); }
    return -1;
  }

  /** `sdsrange` (sds.c 723-748), with ints for both ends and for the length: what is left of the string. */
  function SdsRange(s: seq<byte>, start: int, end: int): (r: seq<byte>)
    ensures |r| <= |s| && (|s| > INT_MAX ==> |r| < |s|)
  {
    if s == [] then []
    else
      var b, e, len := FromEnd(start, |s|), FromEnd(end, |s|), ToInt(|s|);
      if b > e || b >= len then []
      else s[b..if e >= len then len else e + 1]
  }

  function FromEnd(x: int, len: nat): (r: nat) {
    if x >= 0 then x else if ToInt(len + x) < 0 then 0 else ToInt(len + x)
  }

  /** The call in `redisReaderGetReply` keeps exactly what was not consumed, for every buffer of the length, if and
      only if the length fits an int or everything was consumed. */
  lemma RangeExact(size: nat, pos: nat)
    requires pos <= size
    ensures (forall s: seq<byte> :: |s| == size ==> SdsRange(s, ToInt(pos), -1) == s[pos..]) <==>
      size <= INT_MAX || pos == size
  {
    hide SdsRange;
    if size <= INT_MAX || pos == size {
      forall s: seq<byte> | |s| == size ensures SdsRange(s, ToInt(pos), -1) == s[pos..] { RangeKept(s, pos); }
    } else {
      var s: seq<byte> := seq(size - 1, _ => 0 as byte) + [1];
      var kept := SdsRange(s, ToInt(pos), -1);
      RangeMisses(s, ToInt(pos));
      assert s[pos..][size - 1 - pos] == 1;
      assert |s| == size;
    }
  }

  lemma RangeKept(s: seq<byte>, pos: nat)
    requires pos <= |s| && (|s| <= INT_MAX || pos == |s|)
    ensures SdsRange(s, ToInt(pos), -1) == s[pos..]
  {}

  /** The last byte of a long buffer is never kept. */
  lemma RangeMisses(s: seq<byte>, start: int)
    requires |s| > INT_MAX && forall j :: 0 <= j < |s| - 1 ==> s[j] == 0
    ensures forall j :: 0 <= j < |SdsRange(s, start, -1)| ==> SdsRange(s, start, -1)[j] == 0
  {}

  /** What is left of the buffer when `n` bytes of it were consumed (read.c 651-657). */
  function Discard(b: seq<byte>, n: nat): (r: seq<byte>)
    requires n <= |b|
    ensures |r| <= |b| && (n > 0 ==> |r| < |b|)
  {
    if n < 1024 then b[n..]
    else
      RangeShrinks(b, n);
      SdsRange(b, ToInt(n), -1)
  }

  lemma RangeShrinks(b: seq<byte>, n: nat)
    requires 0 < n <= |b|
    ensures |SdsRange(b, ToInt(n), -1)| < |b|
  {
    hide SdsRange;
    if |b| <= INT_MAX { RangeKept(b, n); }
  }

  /** A task that waits for more bytes is not an aggregate beyond the depth limit. */
  ghost predicate CanWait(st: State)
    requires st.stack != []
  {
    |st.stack| == 9 ==> !IsAggregate(Top(st).ty)
  }

  class Reader {
    var err: Option<Error>
    var buf: seq<byte>
    var pos: nat
    var rstack: array<Task>
    var ridx: int
    var reply: Reply
    const env: Env
    /** The cursor no longer points into the buffer; what happens then is not described. */
    var lost: bool

    ghost predicate Valid()
      reads this, rstack
    {
      && rstack.Length == 9 && -1 <= ridx <= 8 && pos <= |buf| && env.limit <= INT_MAX && !env.wide
      && (err.None? && ridx >= 0 ==> StateOk(At()) && CanWait(At())) && (ridx == -1 ==> reply == Null)
    }

    ghost function At(): State
      reads this, rstack
      requires rstack.Length == 9 && 0 <= ridx <= 8
    {
      State(rstack[..ridx + 1], reply)
    }

    function Unread(): seq<byte>
      reads this
      requires pos <= |buf|
    {
      buf[pos..]
    }

    /** The parser's state and the bytes not consumed yet; between replies a fresh task is awaited. */
    ghost function View(): Progress
      reads this, rstack
      requires Valid()
    {
      match err
      case Some(e) => Broken(e)
      case None => if lost then Lost else Waiting(if ridx == -1 then FRESH else At(), Unread())
    }

    constructor (e: Env)
      requires e.limit <= INT_MAX && !e.wide
      ensures Valid() && fresh(rstack) && View() == Waiting(FRESH, []) && env == e && buf == [] && pos == 0
    {
      err, buf, pos, ridx, reply, env, lost := None, [], 0, -1, Null, e, false;
      rstack := new Task[9](_ => Task(TNone, -1, -1));
    }

    /** `__redisReaderSetError` (read.c 49-71). */
    method SetError(e: Error)
      modifies this`err, this`buf, this`pos, this`ridx, this`reply
      ensures err == Some(e) && buf == [] && pos == 0 && ridx == -1 && reply == Null
    {
      reply := Null;
      buf, pos := [], 0;
      ridx := -1;
      err := Some(e);
    }

    /** `moveToNextTask` (read.c 237-262). */
    method MoveToNextTask()
      requires rstack.Length == 9 && 0 <= ridx <= 8 && MoveNext(rstack[..ridx + 1]).Moved?
      modifies this`ridx, rstack
      ensures -1 <= ridx <= 8 && rstack[..ridx + 1] == MoveNext(old(rstack[..ridx + 1])).stack
    {
      while ridx >= 0
        invariant 0 <= ridx <= 8 && rstack[..] == old(rstack[..])
              && MoveNext(rstack[..ridx + 1]) == MoveNext(old(rstack[..ridx + 1]))
        decreases ridx
      {
        if ridx == 0 {
          ridx := ridx - 1;
          return;
        }
        var cur, prv := rstack[ridx], rstack[ridx - 1];
        assert IsAggregate(prv.ty);
        if cur.idx == prv.elements - 1 {
          assert rstack[..ridx + 1][..ridx] == rstack[..ridx];
          ridx := ridx - 1;
        } else {
          assert cur.idx < prv.elements;
          ghost var was := rstack[..ridx + 1];
          rstack[ridx] := Task(TNone, -1, cur.idx + 1);
          assert rstack[..ridx + 1] == SetTop(was, Task(TNone, -1, cur.idx + 1));
          return;
        }
      }
    }

    /** What has to follow from one item. */
    ghost predicate Follows(r: Result, ok: bool, u: seq<byte>)
      reads this, rstack
      requires Valid()
    {
      match r
      case Blocked(st, n) => !ok && err.None? && !lost && n <= |u| && ridx >= 0 && At() == st && Unread() == u[n..]
      case Done(st, n) => ok && err.None? && !lost && n <= |u|
        && (if st.stack == [] then ridx == -1 else ridx >= 0 && At() == st) && Unread() == u[n..]
      case Failed(e) => !ok && err == Some(e)
      case Abort => false
      case Overrun => !ok && err.None? && lost
    }

    /** The object is linked where it belongs, and the cursor moves on. A finished root is kept in `done`. */
    method Complete(x: Reply, n: nat) returns (done: Reply)
      requires Valid() && err.None? && ridx >= 0 && pos + n <= |buf|
      modifies this`pos, this`ridx, this`reply, rstack
      ensures Valid() && err.None? && pos == old(pos) + n
      ensures var r := Finish(old(At()), x, n);
        r.Done? && r.n == n && done == r.st.reply && if r.st.stack == [] then ridx == -1 else ridx >= 0 && At() == r.st
    {
      hide MoveNext, Fits, Put;
      FinishSafe(At(), x, n);
      MoveOk(Put(reply, Path(rstack[..ridx + 1]), x), rstack[..ridx + 1]) by { FitsPut(reply, rstack[..ridx + 1], x); }
      pos := pos + n;
      reply := Put(reply, Path(rstack[..ridx + 1]), x);
      done := reply;
      MoveToNextTask();
      if ridx == -1 { reply := Null; }
    }

    /** `processLineItem` (read.c 264-344). */
    method ProcessLineItem() returns (ok: bool, done: Reply)
      requires Valid() && err.None? && !lost && ridx >= 0 && !IsAggregate(Top(At()).ty) && !Top(At()).ty.TString?
            && !Top(At()).ty.TNone?
      modifies this, rstack
      ensures Valid() && Follows(Line(env, old(At()), old(Unread())), ok, old(Unread()))
      ensures ok ==> done == Line(env, old(At()), old(Unread())).st.reply
      ensures rstack == old(rstack) && (err.None? ==> buf == old(buf))
    {
      hide ParseLL, Finish, Fits;
      done := Null;
      var u := buf[pos..];
      var i := SeekNewline(u);
      if i < 0 { return false, done; }
      if i + 2 > INT_MAX { lost := true; return false, done; }
      var t := rstack[ridx].ty;
      var x := Text(t, u[..i]);
      if t.TInteger? {
        var v := String2ll(u[..i]);
        if v.None? { SetError(BadInteger); return false, done; }
        x := Number(v.value);
      } else if t.TDouble? {
        if i >= 326 || !env.isDouble(u[..i]) { SetError(BadDouble); return false, done; }
        x := Double(u[..i]);
      } else if t.TNil? {
        x := NilReply;
      } else if t.TBool? {
        x := Boolean(u[0] == 116 || u[0] == 84);
      }
      done := Complete(x, i + 2);
      assert buf[pos..] == u[i + 2..];
      return true, done;
    }

    /** `processBulkItem` (read.c 346-408). */
    method ProcessBulkItem() returns (ok: bool, done: Reply)
      requires Valid() && err.None? && !lost && ridx >= 0 && Top(At()).ty.TString?
      modifies this, rstack
      ensures Valid() && Follows(Bulk(env, old(At()), old(Unread())), ok, old(Unread()))
      ensures ok ==> done == Bulk(env, old(At()), old(Unread())).st.reply
      ensures rstack == old(rstack) && (err.None? ==> buf == old(buf))
    {
      hide ParseLL, Finish, Fits;
      done := Null;
      var u := buf[pos..];
      var i := SeekNewline(u);
      if i < 0 { return false, done; }
      var len := String2ll(u[..i]);
      if len.None? { SetError(BadBulkLength); return false, done; }
      if len.value < -1 { SetError(BulkRange); return false, done; }
      var bytelen := i + 2;
      var x := NilReply;
      if len.value != -1 {
        bytelen := bytelen + len.value + 2;
        if !(pos + bytelen <= |buf|) { return false, done; }
        x := Text(TString, u[i + 2..i + 2 + len.value]);
      }
      done := Complete(x, bytelen);
      assert buf[pos..] == u[bytelen..];
      return true, done;
    }

    /** An aggregate with elements: it is linked into its parent, and a task for its first element follows. */
    method PushTask(n: nat, skip: nat) returns (done: Reply)
      requires rstack.Length == 9 && 0 <= ridx < 8 && pos + skip <= |buf| && env.limit <= INT_MAX && !env.wide
                && err.None?
      requires StateOk(At()) && IsAggregate(Top(At()).ty) && 0 < n <= INT_MAX
      modifies this`reply, this`ridx, this`pos, rstack
      ensures Valid() && err.None? && ridx >= 0 && pos == old(pos) + skip
      ensures var st, cur := old(At()), Top(old(At()));
        && At() == State(SetTop(st.stack, cur.(elements := ToInt(n))) + [Task(TNone, -1, 0)],
                         Put(st.reply, Path(st.stack), Aggregate(cur.ty, seq(n, _ => Null))))
        && done == At().reply
    {
      hide Put, Fits;
      ghost var st0 := At();
      var cur := rstack[ridx];
      var nulls := seq(n, _ => Null);
      assert |nulls| == n == ToInt(n);
      FitsPush(reply, rstack[..ridx + 1], cur.(elements := ToInt(n)), nulls);
      reply := Put(reply, Path(rstack[..ridx + 1]), Aggregate(cur.ty, nulls));
      done := reply;
      rstack[ridx] := cur.(elements := ToInt(n));
      ridx := ridx + 1;
      rstack[ridx] := Task(TNone, -1, 0);
      pos := pos + skip;
      assert rstack[..ridx + 1] == SetTop(st0.stack, cur.(elements := ToInt(n))) + [Task(TNone, -1, 0)];
    }

    /** `processAggregateItem` (read.c 411-487). */
    method ProcessAggregateItem() returns (ok: bool, done: Reply)
      requires rstack.Length == 9 && 0 <= ridx <= 8 && pos <= |buf| && env.limit <= INT_MAX && !env.wide && err.None?
                && !lost
      requires StateOk(At()) && IsAggregate(Top(At()).ty)
      modifies this, rstack
      ensures Valid() && Follows(Multi(env, old(At()), old(Unread())), ok, old(Unread()))
      ensures ok ==> done == Multi(env, old(At()), old(Unread())).st.reply
      ensures rstack == old(rstack) && (err.None? ==> buf == old(buf))
    {
      hide ParseLL, Finish, Fits, Put;
      done := Null;
      var u := buf[pos..];
      if ridx == 8 { SetError(TooDeep); return false, done; }
      var i := SeekNewline(u);
      if i < 0 { return false, done; }
      if i + 2 > INT_MAX { lost := true; return false, done; }
      var elements := String2ll(u[..i]);
      if elements.None? { SetError(BadMultiBulk); return false, done; }
      if elements.value < -1 { SetError(MultiBulkRange); return false, done; }
      var cur := rstack[ridx];
      if elements.value == -1 {
        done := Complete(NilReply, i + 2);
        assert buf[pos..] == u[i + 2..];
        return true, done;
      }
      var n := if cur.ty.TMap? then elements.value * 2 else elements.value;
      if n > env.limit { SetError(OutOfMemory); return false, done; }
      if n > 0 {
        done := PushTask(n, i + 2);
        assert buf[pos..] == u[i + 2..];
      } else {
        done := Complete(Aggregate(cur.ty, []), i + 2);
        assert buf[pos..] == u[i + 2..];
      }
      return true, done;
    }

    /** `processItem` (read.c 489-556). */
    method ProcessItem() returns (ok: bool, done: Reply)
      requires Valid() && err.None? && !lost && ridx >= 0
      modifies this, rstack
      ensures Valid() && Follows(Item(env, old(At()), old(Unread())), ok, old(Unread()))
      ensures ok ==> done == Item(env, old(At()), old(Unread())).st.reply
      ensures rstack == old(rstack) && (err.None? ==> buf == old(buf))
    {
      hide Line, Bulk, Multi, Fits;
      done := Null;
      ghost var st0, u := At(), Unread();
      ghost var type0 := rstack[ridx].ty;
      if rstack[ridx].ty.TNone? {
        if pos == |buf| { return false, done; }
        var t := TypeOf(buf[pos]);
        if t.TNone? { SetError(BadTypeByte(buf[pos])); return false, done; }
        TypeSet(st0, t);
        rstack[ridx] := rstack[ridx].(ty := t);
        pos := pos + 1;
        assert rstack[..ridx + 1] == SetTop(st0.stack, Top(st0).(ty := t));
        assert At() == WithType(st0, t) && Unread() == u[1..];
      }
      ghost var n0 := if type0.TNone? then 1 else 0;
      ghost var st1, u1 := At(), Unread();
      assert u1 == u[n0..];
      var t := rstack[ridx].ty;
      if t.TString? {
        ok, done := ProcessBulkItem();
      } else if IsAggregate(t) {
        ok, done := ProcessAggregateItem();
      } else {
        ok, done := ProcessLineItem();
      }
      FollowsLater(env, st0, u, n0, st1, ok);
    }

    lemma FollowsLater(e: Env, st0: State, u: seq<byte>, n0: nat, st1: State, ok: bool)
      requires Valid() && n0 <= |u| && st0.stack != [] && st1.stack != []
            && Follows(Typed(e, st1, u[n0..]), ok, u[n0..])
      requires Item(e, st0, u) == Later(Typed(e, st1, u[n0..]), n0)
      ensures Follows(Item(e, st0, u), ok, u)
    {
      hide Typed;
      match Typed(e, st1, u[n0..])
      case Blocked(_, n) => assert u[n0..][n..] == u[n + n0..];
      case Done(_, n) => assert u[n0..][n..] == u[n + n0..];
      case _ =>
    }

    /** `redisReaderFeed` (read.c 586-616); `large` tells whether the idle buffer has grown beyond its limit. */
    method Feed(bytes: seq<byte>, large: bool) returns (ok: bool)
      requires Valid()
      modifies this`buf, this`pos
      ensures Valid() && ok == err.None? && pos <= old(pos) && |buf| <= |old(buf)| + |bytes|
      ensures err.None? && old(buf) == [] ==> buf == bytes
      ensures View() == match old(View()) case Waiting(st, rest) => Waiting(st, rest + bytes) case p => p
    {
      if err.Some? { return false; }
      if |bytes| >= 1 {
        if |buf| == 0 && large {
          buf, pos := [], 0;
        }
        assert (buf + bytes)[pos..] == buf[pos..] + bytes;
        buf := buf + bytes;
      } else {
        assert bytes == [] && buf[pos..] + [] == buf[pos..];
      }
      return true;
    }

    /** `redisReaderGetReply` (read.c 618-669): the next complete reply, if there is one. Bytes consumed are
        dropped from the buffer when they are many; that shows nowhere while the buffer's length fits an int, and then
        the reply is what the protocol means. */
    method GetReply() returns (ok: bool, r: Option<Reply>)
      requires Valid()
      modifies this, rstack
      ensures Valid() && rstack == old(rstack)
      ensures match old(View())
        case Waiting(st, rest) => GotReply(Process(env, st, rest), ok, r, old(buf))
        case p => View() == p && !ok && r.None?
      ensures old(View()).Waiting? && |old(buf)| <= INT_MAX ==>
                GotMeant(Process(Wide(env), old(View()).st, old(View()).rest), ok, r)
      ensures err.None? ==> |buf| <= |old(buf)|
      ensures r.Some? ==> |buf| < |old(buf)| || |Unread()| < |old(Unread())|
      ensures err.None? && !lost ==> pos < 1024
    {
      hide Process, Fits, Discard, SdsRange;
      r := None;
      if err.Some? || lost { return false, r; }
      if |buf| == 0 {
        EmptyWaits();
        return true, r;
      }
      ghost var v := View();
      if ridx == -1 {
        rstack[0] := Task(TNone, -1, -1);
        ridx := 0;
        FreshOk();
        assert rstack[..1] == [Task(TNone, -1, -1)];
      }
      assert At() == v.st && Unread() == v.rest;
      ProcessShrinks(env, v.st, v.rest);
      MeantSame(v);
      var done := ProcessItems();
      if err.Some? || lost { return false, None; }
      r := Emit(Process(env, v.st, v.rest), done);
      return true, r;
    }

    /** The end of it: consumed bytes are dropped, and a reply that is complete is handed out. */
    method Emit(ghost p: Progress, done: Reply) returns (r: Option<Reply>)
      requires Valid() && err.None? && !lost && Processed(p, done)
      modifies this`buf, this`pos
      ensures Valid() && GotReply(p, true, r, old(buf)) && (|old(buf)| <= INT_MAX ==> GotMeant(p, true, r))
      ensures |buf| <= |old(buf)| && pos < 1024 && (r.Some? ==> p.Ready?)
      ensures |buf| < |old(buf)| || Unread() == old(Unread())
    {
      hide Discard, Fits;
      r := None;
      Trim();
      if ridx == -1 {
        r := Some(done);
      }
    }

    /** Consumed bytes are dropped when they are many (read.c 651-657). */
    method Trim()
      requires Valid() && err.None? && !lost
      modifies this`buf, this`pos
      ensures Valid() && pos < 1024 && |buf| <= |old(buf)| && (buf == old(buf) ==> pos == old(pos))
      ensures Unread() == Discard(old(buf), old(pos)) && (|old(buf)| <= INT_MAX ==> Unread() == old(Unread()))
      ensures |buf| < |old(buf)| || buf == old(buf)
    {
      hide Discard, SdsRange;
      Dropped(pos);
      if pos >= 1024 {
        RangeShrinks(buf, pos);
        buf, pos := SdsRange(buf, ToInt(pos), -1), 0;
      }
    }

    /** The loop over the items (read.c 643-645). */
    method ProcessItems() returns (done: Reply)
      requires Valid() && err.None? && !lost && ridx >= 0
      modifies this, rstack
      ensures Valid() && rstack == old(rstack) && (err.None? ==> buf == old(buf))
      ensures Processed(Process(env, old(At()), old(Unread())), done)
    {
      hide Process, Item, Fits;
      done := reply;
      ghost var goal := Process(env, At(), Unread());
      var going := true;
      while ridx >= 0 && going
        invariant Valid() && rstack == old(rstack) && err.None? && !lost && (ridx == -1 ==> going) && buf == old(buf)
        invariant if ridx == -1 then goal == Ready(done, Unread())
            else if going then Process(env, At(), Unread()) == goal else goal == Waiting(At(), Unread())
        decreases ridx >= 0 && going, |buf| - pos
      {
        ghost var st1, u := At(), Unread();
        ItemSizes(env, st1, u);
        StepProcess(env, st1, u);
        ItemSafe(env, st1, u);
        going, done := ProcessItem();
        if err.Some? || lost { return; }
      }
    }

    ghost predicate Processed(p: Progress, done: Reply)
      reads this, rstack
      requires Valid()
    {
      match p
      case Ready(x, rest) => err.None? && !lost && ridx == -1 && done == x && Unread() == rest
      case Waiting(st, rest) => err.None? && !lost && ridx >= 0 && At() == st && Unread() == rest
      case Broken(e) => err == Some(e)
      case Crashed => false
      case Lost => err.None? && lost
    }

    lemma MeantSame(v: Progress)
      requires v.Waiting? && v.st.stack != []
      ensures |v.rest| <= INT_MAX ==>
                Process(env, v.st, v.rest) == Process(Wide(env), v.st, v.rest) && !Process(env, v.st, v.rest).Lost?
    {
      hide Process;
      NeverLost(Wide(env), v.st, v.rest);
      if |v.rest| <= INT_MAX { ProcessWide(env, v.st, v.rest); }
    }

    lemma Dropped(n: nat)
      requires n <= |buf|
      ensures Discard(buf, n) == if n >= 1024 then SdsRange(buf, ToInt(n), -1) else buf[n..]
      ensures |buf| <= INT_MAX ==> Discard(buf, n) == buf[n..]
    {
      hide SdsRange;
      if |buf| <= INT_MAX { RangeKept(buf, n); }
    }

    /** What was got, and what is left of the buffer `b` that it was taken from. */
    ghost predicate GotReply(p: Progress, ok: bool, r: Option<Reply>, b: seq<byte>)
      reads this, rstack
      requires Valid()
    {
      match p
      case Ready(x, rest) => ok && r == Some(x) && |rest| <= |b| && View() == Waiting(FRESH, Discard(b, |b| - |rest|))
      case Waiting(st, rest) => ok && r.None? && |rest| <= |b| && View() == Waiting(st, Discard(b, |b| - |rest|))
      case Broken(_) => !ok && r.None? && View() == p
      case Lost => !ok && r.None? && View() == p
      case Crashed => false
    }

    /** The same where nothing but the protocol is looked at. */
    ghost predicate GotMeant(p: Progress, ok: bool, r: Option<Reply>)
      reads this, rstack
      requires Valid()
    {
      match p
      case Ready(x, rest) => ok && r == Some(x) && View() == Waiting(FRESH, rest)
      case Waiting(st, rest) => ok && r.None? && View() == p
      case Broken(_) => !ok && r.None? && View() == p
      case Lost => false
      case Crashed => false
    }

    lemma EmptyWaits()
      requires Valid() && err.None? && !lost && |buf| == 0
      ensures View().Waiting? && Process(env, View().st, View().rest) == View()
      ensures Process(Wide(env), View().st, View().rest) == View()
    {
      hide Fits, ParseLL;
      ItemSizes(env, View().st, []);
      ItemSizes(Wide(env), View().st, []);
    }
  }

  lemma {:induction false} StepProcess(env: Env, st: State, u: seq<byte>)
    requires st.stack != []
    ensures match Item(env, st, u)
      case Blocked(st1, n) => n <= |u| && Process(env, st, u) == Waiting(st1, u[n..])
      case Failed(e) => Process(env, st, u) == Broken(e)
      case Abort => Process(env, st, u) == Crashed
      case Overrun => Process(env, st, u) == Lost
      case Done(st1, n) => 0 < n <= |u| && Process(env, st, u) == if st1.stack == [] then Ready(st1.reply, u[n..])
        else Process(env, st1, u[n..])
  {
    hide Item;
    ItemSizes(env, st, u);
  }

  lemma TypeSet(st: State, t: Ty)
    requires StateOk(st)
    ensures StateOk(WithType(st, t))
  {
    if |st.stack| > 1 { FitsChain(st.reply, st.stack, |st.stack| - 2); }
    FitsTop(st.reply, st.stack, WithType(st, t).stack);
  }

  /** All replies that the bytes so far give; what the protocol means while the buffer's length fits an int. */
  method TakeAll(r: Reader) returns (replies: seq<Reply>)
    requires r.Valid()
    modifies r, r.rstack
    ensures r.Valid() && r.rstack == old(r.rstack)
    ensures !old(r.View()).Waiting? ==> replies == [] && r.View() == old(r.View())
    ensures old(r.View()).Waiting? && |old(r.buf)| <= INT_MAX ==>
              Drain(Wide(r.env), old(r.View()).st, old(r.View()).rest) == Drained(replies, r.View())
    ensures old(r.View()).Waiting? && r.View().Waiting? ==> r.pos < 1024
  {
    hide Process, Reader.Valid, Reader.View;
    replies := [];
    ghost var v := r.View();
    ViewKind(r);
    if r.err.Some? || r.lost { return; }
    ghost var env, short := Wide(r.env), |r.buf| <= INT_MAX;
    ghost var goal := Drain(env, v.st, v.rest);
    var more := true;
    while more
      invariant r.Valid() && r.rstack == old(r.rstack)
      invariant more ==> r.View().Waiting? && r.View().st.stack != []
                         && (short ==>
                             |r.buf| <= INT_MAX && goal == JoinDrained(replies, Drain(env, r.View().st, r.View().rest)))
      invariant !more ==> (short ==> goal == Drained(replies, r.View())) && (r.View().Waiting? ==> r.pos < 1024)
      decreases more, |r.buf|, if r.pos <= |r.buf| then |r.buf| - r.pos else 0
    {
      ghost var w := r.View();
      ViewKind(r);
      ProcessShrinks(env, w.st, w.rest);
      var ok, x := r.GetReply();
      ViewKind(r);
      if x.Some? {
        if short { DrainFirst(env, w.st, w.rest); }
        assert r.View() == Waiting(FRESH, r.View().rest);
        assert replies + ([x.value] + Drain(env, FRESH, r.View().rest).replies) == (replies + [x.value]) +
          Drain(env, FRESH, r.View().rest).replies;
        replies := replies + [x.value];
      } else {
        assert replies + [] == replies;
        more := false;
      }
    }
  }

  ghost function JoinDrained(replies: seq<Reply>, d: Drained): Drained {
    Drained(replies + d.replies, d.end)
  }

  lemma DrainFirst(env: Env, st: State, u: seq<byte>)
    requires st.stack != [] && Process(env, st, u).Ready?
    ensures var p := Process(env, st, u); Drain(env, st, u) == JoinDrained([p.reply], Drain(env, FRESH, p.rest))
  {
    ProcessShrinks(env, st, u);
  }

  lemma ViewKind(r: Reader)
    requires r.Valid()
    ensures r.View().Broken? == r.err.Some? && r.View().Waiting? == (r.err.None? && !r.lost)
    ensures r.View().Waiting? ==> r.View().st.stack != [] && r.View().rest == r.buf[r.pos..]
    ensures r.pos <= |r.buf| && r.env.limit <= INT_MAX
  {}

  /** The bytes that the protocol leaves to be consumed after the input so far. */
  ghost function Backlog(env: Env, u: seq<byte>): nat {
    var end := Drain(Wide(env), FRESH, u).end;
    if end.Waiting? then |end.rest| else 0
  }

  /** Before each feed, what is left and the new bytes come to less than an int holds, by as much as may lie in the
      buffer although consumed. */
  ghost predicate Modest(env: Env, chunks: seq<seq<byte>>) {
    forall k :: 0 <= k < |chunks| ==> Backlog(env, Flatten(chunks[..k])) + |chunks[k]| + 1023 <= INT_MAX
  }

  /** Feeding the input in any chunks, taking all replies after each, gives exactly the replies, the state and
      the error that the protocol means for the whole input, however long, while what is unread stays modest. */
  method FeedAll(env: Env, chunks: seq<seq<byte>>, large: bool) returns (r: Reader, replies: seq<Reply>)
    requires env.limit <= INT_MAX && !env.wide
    ensures r.Valid() && (Modest(env, chunks) ==>
              Drain(Wide(env), FRESH, Flatten(chunks)) == Drained(replies, r.View()))
  {
    hide Drain, Process, Reader.Valid, Reader.View;
    r := new Reader(env);
    replies := [];
    ghost var all := Wide(env);
    DrainNothing(all);
    for k := 0 to |chunks|
      invariant r.Valid() && fresh(r) && fresh(r.rstack) && r.env == env && (r.View().Waiting? ==> r.pos < 1024)
      invariant Modest(env, chunks) ==> Drain(all, FRESH, Flatten(chunks[..k])) == Drained(replies, r.View())
    {
      ghost var v := r.View();
      ViewKind(r);
      assert chunks[..k + 1][..k] == chunks[..k];
      if v.Waiting? && Modest(env, chunks) { NextFeed(env, chunks, k, replies, v); }
      if !v.Waiting? && Modest(env, chunks) { DrainSplit(all, FRESH, Flatten(chunks[..k]), chunks[k]); }
      var ok := r.Feed(chunks[k], large);
      ViewKind(r);
      var more := TakeAll(r);
      if !v.Waiting? { assert replies + more == replies; }
      replies := replies + more;
    }
    assert chunks[..|chunks|] == chunks;
  }

  lemma NextFeed(env: Env, chunks: seq<seq<byte>>, k: nat, replies: seq<Reply>, v: Progress)
    requires Modest(env, chunks) && k < |chunks| && v.Waiting? && v.st.stack != []
    requires Drain(Wide(env), FRESH, Flatten(chunks[..k])) == Drained(replies, v)
    ensures |v.rest| + |chunks[k]| + 1023 <= INT_MAX
    ensures var d := Drain(Wide(env), v.st, v.rest + chunks[k]);
      Drain(Wide(env), FRESH, Flatten(chunks[..k + 1])) == Drained(replies + d.replies, d.end)
  {
    hide Drain;
    assert Backlog(env, Flatten(chunks[..k])) == |v.rest|;
    assert chunks[..k + 1][..k] == chunks[..k];
    DrainSplit(Wide(env), FRESH, Flatten(chunks[..k]), chunks[k]);
  }

  lemma FreshOk()
    ensures StateOk(FRESH) && CanWait(FRESH)
  {}

  lemma DrainNothing(env: Env)
    ensures Drain(env, FRESH, []) == Drained([], Waiting(FRESH, []))
  {
    ItemSizes(env, FRESH, []);
  }

  // ---------------------------------------------------------------- inputs beyond the bound

  lemma {:induction false} ProcessRest(env: Env, st: State, u: seq<byte>)
    requires st.stack != []
    ensures Process(env, st, u).Waiting? ==> |Process(env, st, u).rest| <= |u|
    decreases |u|
  {
    hide Item;
    ItemSizes(env, st, u);
    match Item(env, st, u)
    case Done(st1, n) => if st1.stack != [] { ProcessRest(env, st1, u[n..]); }
    case _ =>
  }

  lemma {:induction false} DrainRest(env: Env, st: State, u: seq<byte>)
    requires st.stack != []
    ensures Drain(env, st, u).end.Waiting? ==> |Drain(env, st, u).end.rest| <= |u|
    decreases |u|
  {
    hide Process;
    ProcessShrinks(env, st, u);
    ProcessRest(env, st, u);
    if Process(env, st, u).Ready? { DrainRest(env, FRESH, Process(env, st, u).rest); }
  }

  lemma {:induction false} FlattenGrows(chunks: seq<seq<byte>>, k: nat)
    requires k < |chunks|
    ensures |Flatten(chunks[..k])| + |chunks[k]| <= |Flatten(chunks)|
  {
    if k == |chunks| - 1 {
    } else {
      var front := chunks[..|chunks| - 1];
      FlattenGrows(front, k);
      assert front[..k] == chunks[..k];
    }
  }

  /** An input that is short as a whole may be cut anywhere. */
  lemma ShortModest(env: Env, chunks: seq<seq<byte>>)
    requires |Flatten(chunks)| + 1023 <= INT_MAX
    ensures Modest(env, chunks)
  {
    hide Drain;
    forall k | 0 <= k < |chunks| ensures Backlog(env, Flatten(chunks[..k])) + |chunks[k]| + 1023 <= INT_MAX {
      DrainRest(Wide(env), FRESH, Flatten(chunks[..k]));
      FlattenGrows(chunks, k);
    }
  }

  const OK_LINE: seq<byte> := [43, 79, 75, 13, 10]

  /** A status and 2 to the 31st bytes more: fed at once they give nothing; fed one after the other they give the
      status and then an error. */
  method CutMatters(env: Env, more: seq<byte>)
      returns (whole: Option<Reply>, first: Option<Reply>, second: Option<Reply>, r: Reader, s: Reader)
    requires env.limit <= INT_MAX && !env.wide && |more| == INT_MAX + 1 && more[0] == 120
    ensures whole == None && r.err == None && first == Some(Text(TStatus, [79, 75]))
    ensures second == None && s.err == Some(BadTypeByte(120))
  {
    hide Reader.Valid, Reader.View, Process, Discard;
    var ok;
    NothingSeen(env, more);
    ok, whole, r := FeedOne(env, OK_LINE + more);
    ViewKind(r);
    StatusSeen(env);
    ok, first, s := FeedOne(env, OK_LINE);
    AllTaken(OK_LINE);
    FeedAfter(s, more);
    WrongByte(env, more);
    ok, second := s.GetReply();
    BrokenErr(s, BadTypeByte(120));
  }

  lemma AllTaken(u: seq<byte>)
    ensures Discard(u, |u|) == []
  {}

  lemma WrongByte(env: Env, u: seq<byte>)
    requires u != [] && u[0] == 120
    ensures Process(env, FRESH, u) == Broken(BadTypeByte(120))
  {
    hide Line, Bulk, Multi;
    StepProcess(env, FRESH, u);
  }

  lemma BrokenErr(r: Reader, e: Error)
    requires r.Valid() && r.View() == Broken(e)
    ensures r.err == Some(e)
  {}

  /** A reader with one feed, asked for a reply. */
  method FeedOne(env: Env, u: seq<byte>) returns (ok: bool, x: Option<Reply>, r: Reader)
    requires env.limit <= INT_MAX && !env.wide
    ensures fresh(r) && fresh(r.rstack) && r.env == env
    ensures r.Valid() && r.GotReply(Process(env, FRESH, u), ok, x, u)
  {
    hide Reader.Valid, Reader.View, Reader.GotReply, Reader.GotMeant, Process, Discard;
    r := new Reader(env);
    ViewKind(r);
    ok := r.Feed(u, false);
    assert [] + u == u;
    assert r.buf == u && r.View() == Waiting(FRESH, u);
    ok, x := r.GetReply();
  }

  method FeedAfter(r: Reader, u: seq<byte>)
    requires r.Valid() && r.View() == Waiting(FRESH, [])
    modifies r
    ensures r.Valid() && r.View() == Waiting(FRESH, u) && r.rstack == old(r.rstack)
  {
    hide Reader.Valid, Reader.View;
    var ok := r.Feed(u, false);
    assert [] + u == u;
  }

  lemma NothingSeen(env: Env, more: seq<byte>)
    requires !env.wide && |more| == INT_MAX + 1
    ensures Process(env, FRESH, OK_LINE + more).Waiting?
  {
    hide Finish, FindNl;
    var u := OK_LINE + more;
    assert ToInt(|u[1..]| - 1) < 0;
    StepProcess(env, FRESH, u);
  }

  lemma StatusSeen(env: Env)
    ensures Process(env, FRESH, OK_LINE) == Ready(Text(TStatus, [79, 75]), [])
  {
    LineSeen(env, [79, 75], []);
    assert [43] + [79, 75] + [13, 10] + [] == OK_LINE;
  }

  /** A status line is read where the bytes can be counted. */
  lemma LineSeen(env: Env, text: seq<byte>, rest: seq<byte>)
    requires |text| + 2 + |rest| <= INT_MAX && forall j :: 0 <= j < |text| ==> text[j] != 13
    ensures Process(env, FRESH, [43] + text + [13, 10] + rest) == Ready(Text(TStatus, text), rest)
  {
    hide FindNl, Seek, Put;
    var u := [43] + text + [13, 10] + rest;
    var line := u[1..];
    assert line == text + [13, 10] + rest;
    NlIs(line, |text|);
    SeekExact(line);
    assert line[..|text|] == text;
    var st := WithType(FRESH, TStatus);
    assert st.stack == [Task(TStatus, -1, -1)] && Path(st.stack) == [];
    RootPut(Text(TStatus, text));
    assert Typed(env, st, line) == Done(State([], Text(TStatus, text)), |text| + 2);
    StepProcess(env, FRESH, u);
    assert u[|text| + 3..] == rest;
  }

  lemma RootPut(x: Reply)
    ensures Put(Null, [], x) == x
  {}

  /** A status of 1024 bytes at the head of 2 to the 31st: the reply is right, and everything behind it is thrown
      away with it. */
  method RestLost(env: Env, text: seq<byte>, rest: seq<byte>) returns (first: Option<Reply>, r: Reader)
    requires env.limit <= INT_MAX && !env.wide && |text| == 1021 && (forall j :: 0 <= j < |text| ==> text[j] != 13)
    requires |rest| == INT_MAX + 1 - 1024
    ensures first == Some(Text(TStatus, text)) && r.Valid() && r.View() == Waiting(FRESH, [])
    ensures Process(Wide(env), FRESH, [43] + text + [13, 10] + rest) == Ready(Text(TStatus, text), rest)
  {
    hide Reader.Valid, Process;
    var u: seq<byte> := [43] + text + [13, 10] + rest;
    LineSeen(env, text, rest);
    LineSeen(Wide(env), text, rest);
    var ok;
    ok, first, r := FeedOne(env, u);
    assert |u| == INT_MAX + 1 && ToInt(|u|) < 0;
  }
}
