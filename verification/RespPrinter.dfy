/** The command printer (`hiredis.c`), and that parsing its output gives the arguments back. */
module RespPrinter {
  import opened RespNumbers
  import opened RespReader
  import opened RespClient

  const CRLF: seq<byte> := [13, 10]

  function BulkOf(arg: seq<byte>): seq<byte> {
    [36] + ShowNat(|arg|) + CRLF + arg + CRLF
  }

  function Bulks(args: seq<seq<byte>>): seq<byte> {
    if args == [] then [] else Bulks(args[..|args| - 1]) + BulkOf(args[|args| - 1])
  }

  /** A command on the wire: an array of bulk strings. */
  function Wire(args: seq<seq<byte>>): seq<byte> {
    [42] + ShowNat(|args|) + CRLF + Bulks(args)
  }

  /** `bulklen` (hiredis.c 279-281). */
  method BulkLen(len: nat) returns (r: nat)
    ensures r == 1 + |ShowNat(len)| + 2 + len + 2
  {
    var d := CountDigits(len);
    return 1 + d + 2 + len + 2;
  }

  lemma {:induction false} BulksMore(args: seq<seq<byte>>, k: nat)
    requires k < |args|
    ensures Bulks(args[..k + 1]) == Bulks(args[..k]) + BulkOf(args[k])
  {
    assert args[..k + 1][..k] == args[..k];
  }

  lemma {:induction false} BulksGrow(args: seq<seq<byte>>, k: nat)
    requires k <= |args|
    ensures |Bulks(args[..k])| <= |Bulks(args)|
    decreases |args| - k
  {
    if k < |args| {
      BulksMore(args, k);
      BulksGrow(args, k + 1);
    } else {
      assert args[..k] == args;
    }
  }

  /** Copy bytes into the buffer at `pos`, and move on. */
  method CopyIn(cmd: array<byte>, pos: nat, s: seq<byte>) returns (next: nat)
    requires pos + |s| <= cmd.Length
    modifies cmd
    ensures next == pos + |s| && cmd[..next] == old(cmd[..pos]) + s
  {
    for i := 0 to |s|
      invariant cmd[..pos + i] == old(cmd[..pos]) + s[..i]
    {
      cmd[pos + i] := s[i];
      assert cmd[..pos + i + 1] == cmd[..pos + i] + [s[i]];
      assert s[..i + 1] == s[..i] + [s[i]];
    }
    assert s[..|s|] == s;
    return pos + |s|;
  }

  /** The length computed in advance (hiredis.c 560-564, 610-615). */
  method TotalLength(args: seq<seq<byte>>) returns (totlen: nat)
    ensures totlen == |Wire(args)|
  {
    var d := CountDigits(|args|);
    totlen := 1 + d + 2;
    for j := 0 to |args|
      invariant totlen == 1 + |ShowNat(|args|)| + 2 + |Bulks(args[..j])|
    {
      BulksMore(args, j);
      var l := BulkLen(|args[j]|);
      totlen := totlen + l;
    }
    assert args[..|args|] == args;
  }

  /** One argument: its length, its bytes, and the line end written byte by byte. */
  method PutBulk(cmd: array<byte>, pos: nat, arg: seq<byte>) returns (next: nat)
    requires pos + |BulkOf(arg)| <= cmd.Length
    modifies cmd
    ensures next == pos + |BulkOf(arg)| && cmd[..next] == old(cmd[..pos]) + BulkOf(arg)
  {
    ghost var c0 := cmd[..pos];
    next := CopyIn(cmd, pos, [36] + ShowNat(|arg|) + CRLF);
    next := CopyIn(cmd, next, arg);
    assert cmd[..next] == c0 + ([36] + ShowNat(|arg|) + CRLF + arg);
    next := CopyIn(cmd, next, [13]);
    next := CopyIn(cmd, next, [10]);
  }

  /** `redisFormatCommandArgv` (hiredis.c 599-635): the bytes written fill exactly the space computed for them, and
      a NUL follows. */
  method FormatCommandArgv(args: seq<seq<byte>>) returns (cmd: array<byte>, totlen: nat)
    requires |Wire(args)| < INT_MAX
    ensures totlen == |Wire(args)| && cmd.Length == totlen + 1 && cmd[..totlen] == Wire(args) && cmd[totlen] == 0
  {
    hide BulkOf;
    totlen := TotalLength(args);
    cmd := new byte[totlen + 1](_ => 0);
    ghost var head := [42] + ShowNat(|args|) + CRLF;
    var pos: nat := CopyIn(cmd, 0, [42] + ShowNat(|args|) + CRLF);
    assert cmd[..pos] == head + Bulks(args[..0]);
    for j := 0 to |args|
      invariant fresh(cmd) && cmd.Length == totlen + 1 && pos <= totlen && cmd[..pos] == head + Bulks(args[..j])
    {
      BulksMore(args, j);
      BulksGrow(args, j + 1);
      ghost var was := cmd[..pos];
      pos := PutBulk(cmd, pos, args[j]);
      assert cmd[..pos] == was + BulkOf(args[j]) == head + (Bulks(args[..j]) + BulkOf(args[j]));
    }
    assert args[..|args|] == args;
    assert pos == totlen;
    cmd[pos] := 0;
  }

  // ---------------------------------------------------------------- the printer over growing strings

  const UINT_RANGE: int := 0x1_0000_0000

  /** A length passed as `size_t` to the `%u` of `sdscatfmt`, which reads an `unsigned int` (sds.c 638-639). */
  function AsUint(n: nat): nat {
    n % UINT_RANGE
  }

  function ShortBulk(arg: seq<byte>): seq<byte> {
    [36] + ShowNat(AsUint(|arg|)) + CRLF + arg + CRLF
  }

  function ShortBulks(args: seq<seq<byte>>): seq<byte> {
    if args == [] then [] else ShortBulks(args[..|args| - 1]) + ShortBulk(args[|args| - 1])
  }

  /** As many digits are printed for the length as were counted. */
  predicate SameDigits(n: nat) {
    n < UINT_RANGE || (n < 10_000_000_000 && AsUint(n) >= 1_000_000_000)
  }

  function Ten(d: nat): (r: nat)
    ensures r > 0
  {
    if d == 0 then 1 else 10 * Ten(d - 1)
  }

  lemma {:induction false} DigitsBelow(n: nat, d: nat)
    requires d > 0
    ensures |ShowNat(n)| <= d <==> n < Ten(d)
  {
    assert Ten(d) == 10 * Ten(d - 1);
    if n >= 10 && d > 1 {
      DigitsBelow(n / 10, d - 1);
    }
  }

  lemma DigitsExact(n: nat)
    ensures |ShowNat(AsUint(n))| <= |ShowNat(n)|
    ensures |ShowNat(AsUint(n))| == |ShowNat(n)| <==> SameDigits(n)
  {
    hide ShowNat;
    var m := AsUint(n);
    assert Ten(9) == 1_000_000_000 && Ten(10) == 10_000_000_000 by { TenTo(); }
    if n >= UINT_RANGE {
      DigitsBelow(m, 9);
      DigitsBelow(m, 10);
      DigitsBelow(n, 9);
      DigitsBelow(n, 10);
    }
  }

  lemma TenTo()
    ensures Ten(9) == 1_000_000_000 && Ten(10) == 10_000_000_000
  {
    assert Ten(5) == 100_000;
    assert Ten(8) == 1000 * Ten(5);
  }

  lemma ShortBulkExact(arg: seq<byte>)
    ensures |ShortBulk(arg)| <= |BulkOf(arg)|
    ensures |ShortBulk(arg)| == |BulkOf(arg)| <==> SameDigits(|arg|)
    ensures ShortBulk(arg) == BulkOf(arg) <==> |arg| < UINT_RANGE
  {
    hide ShowNat, SameDigits;
    DigitsExact(|arg|);
    var n, m := ShowNat(|arg|), ShowNat(AsUint(|arg|));
    if ShortBulk(arg) == BulkOf(arg) {
      assert |n| == |m|;
      assert n == BulkOf(arg)[1..][..|n|] && m == ShortBulk(arg)[1..][..|m|];
      NatOfShow(|arg|);
      NatOfShow(AsUint(|arg|));
    }
  }

  lemma {:induction false} ShortBulksExact(args: seq<seq<byte>>)
    ensures |ShortBulks(args)| <= |Bulks(args)|
    ensures |ShortBulks(args)| == |Bulks(args)| <==> forall k :: 0 <= k < |args| ==> SameDigits(|args[k]|)
    ensures ShortBulks(args) == Bulks(args) <==> forall k :: 0 <= k < |args| ==> |args[k]| < UINT_RANGE
  {
    hide ShortBulk, BulkOf, SameDigits;
    if args != [] {
      var front, last := args[..|args| - 1], args[|args| - 1];
      ShortBulksExact(front);
      ShortBulkExact(last);
      assert forall k :: 0 <= k < |front| ==> front[k] == args[k];
      if ShortBulks(args) == Bulks(args) {
        var n := |Bulks(front)|;
        assert |ShortBulks(front)| == n;
        assert Bulks(args)[..n] == Bulks(front) && ShortBulks(args)[..n] == ShortBulks(front);
        assert Bulks(args)[n..] == BulkOf(last) && ShortBulks(args)[n..] == ShortBulk(last);
      }
    }
  }

  function Head(args: seq<seq<byte>>): seq<byte> {
    [42] + ShowNat(|args|) + CRLF
  }

  /** How far the announcement of argument `k` reaches. */
  function Reach(args: seq<seq<byte>>, k: nat): nat
    requires k < |args|
  {
    |Head(args)| + |ShortBulks(args[..k])| + |ShowNat(AsUint(|args[k]|))| + 3
  }

  predicate InReach(args: seq<seq<byte>>) {
    forall k :: 0 <= k < |args| ==> Reach(args, k) <= INT_MAX
  }

  /** The command with its size; the command with a size other than the one computed, which fails the assertion; or a
      write outside the place where it belongs. */
  datatype Printed = Printed(cmd: seq<byte>, size: int) | Unequal(cmd: seq<byte>) | Stray

  /** `sdscatfmt` (sds.c 582-665) appends byte by byte, at a position that it keeps in an int, and closes with a NUL. */
  method CatFmt(s: seq<byte>, text: seq<byte>) returns (r: Option<seq<byte>>)
    ensures r == if |s| + |text| <= INT_MAX then Some(s + text) else None
  {
    var i, out := ToInt(|s|), s;
    for k := 0 to |text|
      invariant out == s + text[..k] && i == ToInt(|out|) && (k > 0 ==> |out| <= INT_MAX + 1)
    {
      if i != |out| { return None; }
      out := out + [text[k]];
      i := ToInt(i + 1);
    }
    assert text[..|text|] == text;
    if i != |out| { return None; }
    return Some(out);
  }

  lemma HeadFits(args: seq<seq<byte>>)
    requires |args| <= INT_MAX
    ensures |Head(args)| <= 13
  {
    assert Ten(10) == 10_000_000_000 by { TenTo(); }
    DigitsBelow(|args|, 10);
  }

  /** `redisFormatSdsCommandArgv` (hiredis.c 546-588) appends to a string that grows, with lengths printed by `%u` at a
      position kept in an int. What it writes is the command on the wire if and only if every announcement ends within
      an int and every argument is shorter than 2 to the 32nd; its assertion sees less, since it compares sizes only;
      the size is returned as an int. */
  method FormatSdsCommandArgv(args: seq<seq<byte>>) returns (r: Printed)
    requires |args| <= INT_MAX && |Wire(args)| <= ULLONG_MAX
    ensures r.Stray? <==> !InReach(args)
    ensures r.Printed? <==> InReach(args) && forall k :: 0 <= k < |args| ==> SameDigits(|args[k]|)
    ensures r.Printed? && r.cmd == Wire(args) <==>
      InReach(args) && forall k :: 0 <= k < |args| ==> |args[k]| < UINT_RANGE
    ensures !r.Stray? ==> r.cmd == Head(args) + ShortBulks(args)
    ensures r.Printed? ==> r.size == ToInt(|r.cmd|)
  {
    var totlen := TotalLength(args);
    hide ShowNat, ToInt;
    HeadFits(args);
    var made := CatFmt([], [42] + ShowNat(|args|) + CRLF);
    assert [] + Head(args) == Head(args);
    var cmd := made.value;
    for j := 0 to |args|
      invariant cmd == Head(args) + ShortBulks(args[..j]) && forall k :: 0 <= k < j ==> Reach(args, k) <= INT_MAX
    {
      assert args[..j + 1][..j] == args[..j];
      ghost var before := cmd;
      made := CatFmt(cmd, [36] + ShowNat(AsUint(|args[j]|)) + CRLF);
      assert |cmd| + 3 + |ShowNat(AsUint(|args[j]|))| == Reach(args, j);
      if made.None? { return Stray; }
      cmd := made.value;
      cmd := cmd + args[j];
      cmd := cmd + CRLF;
      assert cmd == before + ShortBulk(args[j]) == Head(args) + (ShortBulks(args[..j]) + ShortBulk(args[j]));
    }
    assert args[..|args|] == args;
    ShortBulksExact(args);
    assert cmd[|Head(args)|..] == ShortBulks(args) && Wire(args)[|Head(args)|..] == Bulks(args);
    if |cmd| != totlen { return Unequal(cmd); }
    return Printed(cmd, ToInt(totlen));
  }

  /** An argument of 2 to the 32nd bytes is announced as empty, and the assertion fails. */
  method LongestFails(arg: seq<byte>) returns (r: Printed)
    requires |arg| == UINT_RANGE
    ensures r == Unequal([42, 49] + CRLF + [36, 48] + CRLF + arg + CRLF)
  {
    OneFits(arg);
    OneShort(arg);
    r := FormatSdsCommandArgv([arg]);
    assert !SameDigits(|[arg][0]|);
    assert ShowNat(0) == [48];
  }

  lemma OneShort(arg: seq<byte>)
    ensures ShortBulks([arg]) == ShortBulk(arg) && Bulks([arg]) == BulkOf(arg) && ShowNat(|[arg]|) == [49]
    ensures InReach([arg])
  {
    hide ShortBulk, BulkOf;
    assert [arg][..0] == [];
    assert Ten(10) == 10_000_000_000 by { TenTo(); }
    DigitsBelow(AsUint(|arg|), 10);
    assert Reach([arg], 0) <= 20;
  }

  lemma TwoFit(arg: seq<byte>, other: seq<byte>)
    requires |arg| <= INT_MAX + 1 && |other| <= INT_MAX + 1
    ensures |Wire([arg, other])| <= ULLONG_MAX && |ShortBulks([arg, other][..1])| > |arg|
  {
    hide ShowNat;
    assert [arg, other][..1] == [arg] && [arg][..0] == [];
    assert Ten(10) == 10_000_000_000 by { TenTo(); }
    DigitsBelow(|arg|, 10);
    DigitsBelow(|other|, 10);
    DigitsBelow(2, 10);
    OneShort(arg);
    assert Bulks([arg, other]) == Bulks([arg]) + BulkOf(other);
  }

  lemma OneFits(arg: seq<byte>)
    requires |arg| < 10_000_000_000
    ensures |Wire([arg])| <= ULLONG_MAX
  {
    hide ShowNat, Bulks;
    OneShort(arg);
    assert Ten(10) == 10_000_000_000 by { TenTo(); }
    DigitsBelow(|arg|, 10);
  }

  /** With a billion bytes more the assertion holds, and the length announced is still wrong. */
  method WrongUnnoticed(arg: seq<byte>) returns (r: Printed)
    requires |arg| == UINT_RANGE + 1_000_000_000
    ensures r.Printed? && r.cmd != Wire([arg])
  {
    OneFits(arg);
    OneShort(arg);
    r := FormatSdsCommandArgv([arg]);
    assert |[arg][0]| >= UINT_RANGE;
  }

  /** Behind an argument of 2 to the 31st bytes, far shorter than the first limit, the next one is announced in the
      wrong place. */
  method SecondStrays(arg: seq<byte>, other: seq<byte>) returns (r: Printed)
    requires |arg| == INT_MAX + 1 && |other| <= 1000
    ensures r == Stray
  {
    TwoFit(arg, other);
    r := FormatSdsCommandArgv([arg, other]);
    assert Reach([arg, other], 1) > INT_MAX;
  }

  // ---------------------------------------------------------------- round trip

  /** A line of digits ends where it was meant to. */
  lemma {:induction false} LineEnds(s: seq<byte>, rest: seq<byte>)
    requires forall i :: 0 <= i < |s| ==> s[i] != 13
    ensures FindNl(s + CRLF + rest) == |s|
  {
    var t := s + CRLF + rest;
    NlIs(t, |s|);
  }

  /** The end of the line that says `n` is seen, with `size` bytes at hand from its first digit on. */
  predicate Seen(env: Env, n: nat, size: nat) {
    env.wide || |ShowNat(n)| < ToInt(size - 1)
  }

  lemma NumberLine(env: Env, n: nat, rest: seq<byte>)
    requires n <= LLONG_MAX
    ensures var t := ShowNat(n) + CRLF + rest;
      && LineEnd(env, t) == (if Seen(env, n, |t|) then |ShowNat(n)| else -1)
      && ParseLL(t[..|ShowNat(n)|]) == Some(n) && t[|ShowNat(n)| + 2..] == rest
  {
    hide ShowNat, FindNl, Seek, ParseLL;
    LineEnds(ShowNat(n), rest) by { DigitsOnly(n); }
    var t := ShowNat(n) + CRLF + rest;
    SeekExact(t);
    assert t[..|ShowNat(n)|] == ShowNat(n) == Show(n);
    ParseShown(n);
  }

  lemma {:induction false} DigitsOnly(n: nat)
    ensures forall i :: 0 <= i < |ShowNat(n)| ==> ShowNat(n)[i] != 13
  {
    if n >= 10 { DigitsOnly(n / 10); }
  }

  lemma NumberLength(n: nat)
    requires n <= LLONG_MAX
    ensures |ShowNat(n)| <= 19
  {
    assert Ten(19) == 1_000_000_000 * Ten(10) by { Ten19(); }
    assert Ten(10) == 10_000_000_000 by { TenTo(); }
    DigitsBelow(n, 19);
  }

  lemma Ten19()
    ensures Ten(19) == 1_000_000_000 * Ten(10)
  {
    assert Ten(13) == 1000 * Ten(10);
    assert Ten(16) == 1000 * Ten(13);
    assert Ten(19) == 1000 * Ten(16);
  }

  /** The state in which element `k` of the command's array is awaited. */
  ghost function Midway(args: seq<seq<byte>>, k: nat): State
    requires k < |args|
  {
    State([Task(TArray, |args|, -1), Task(TNone, -1, k)],
          Aggregate(TArray, seq(|args|, i requires 0 <= i < |args| => if i < k then Text(TString, args[i]) else Null)))
  }

  ghost function Answer(args: seq<seq<byte>>): Reply {
    Aggregate(TArray, seq(|args|, i requires 0 <= i < |args| => Text(TString, args[i])))
  }

  lemma BulkFinish(args: seq<seq<byte>>, k: nat, n: nat)
    requires k < |args|
    ensures Finish(WithType(Midway(args, k), TString), Text(TString, args[k]), n) ==
      Done(if k + 1 < |args| then Midway(args, k + 1) else State([], Answer(args)), n)
  {
    var st := WithType(Midway(args, k), TString);
    var x := Text(TString, args[k]);
    assert Path(st.stack) == [k];
    PutElement(st.reply, k, x);
    if k + 1 < |args| {
      assert MoveNext(st.stack) == Moved(SetTop(st.stack, Task(TNone, -1, k + 1)));
      assert Midway(args, k + 1).reply.elems == st.reply.elems[k := x];
      assert Midway(args, k + 1).stack == SetTop(st.stack, Task(TNone, -1, k + 1));
    } else {
      assert st.stack == [Task(TArray, |args|, -1), Task(TString, -1, k)];
      assert st.stack[..1] == [Task(TArray, |args|, -1)];
      assert MoveNext(st.stack[..1]) == Moved([]);
      assert Answer(args).elems == st.reply.elems[k := x];
    }
  }

  lemma BulkLine(env: Env, st: State, arg: seq<byte>, rest: seq<byte>)
    requires st.stack != [] && |arg| <= LLONG_MAX
    ensures var u := ShowNat(|arg|) + CRLF + (arg + CRLF + rest);
      Bulk(env, st, u) ==
        if Seen(env, |arg|, |u|) then Finish(st, Text(TString, arg), |BulkOf(arg)| - 1) else Blocked(st, 0)
  {
    hide ParseLL, LineEnd, Finish, ShowNat, BulkOf, Seen;
    var line, tail := ShowNat(|arg|), arg + CRLF + rest;
    var u := line + CRLF + tail;
    NumberLine(env, |arg|, tail);
    var n := |line| + 2;
    assert ParseLL(u[..|line|]) == Some(|arg|);
    Inside(line + CRLF, arg, CRLF + rest);
    assert u == (line + CRLF) + arg + (CRLF + rest);
    BulkLength(arg);
    assert n + |arg| + 2 <= |u|;
  }

  lemma Inside(a: seq<byte>, b: seq<byte>, c: seq<byte>)
    ensures (a + b + c)[|a|..|a| + |b|] == b
  {}

  lemma BulkLength(arg: seq<byte>)
    ensures |BulkOf(arg)| == |ShowNat(|arg|)| + |arg| + 5
  {}

  lemma BulkItem(env: Env, args: seq<seq<byte>>, k: nat, rest: seq<byte>)
    requires k < |args| && |args[k]| <= LLONG_MAX
    ensures var u := BulkOf(args[k]) + rest;
      Item(env, Midway(args, k), u) ==
        if Seen(env, |args[k]|, |u| - 1) then
          Done(if k + 1 < |args| then Midway(args, k + 1) else State([], Answer(args)), |BulkOf(args[k])|)
        else Blocked(WithType(Midway(args, k), TString), 1)
  {
    hide Bulk, Line, Multi, Finish, Seen;
    var u := BulkOf(args[k]) + rest;
    assert u[0] == 36 && u[1..] == ShowNat(|args[k]|) + CRLF + (args[k] + CRLF + rest);
    BulkLine(env, WithType(Midway(args, k), TString), args[k], rest);
    BulkFinish(args, k, |BulkOf(args[k])| - 1);
  }

  lemma PutElement(root: Reply, k: nat, x: Reply)
    requires root.Aggregate? && k < |root.elems|
    ensures Put(root, [k], x) == root.(elems := root.elems[k := x])
  {
    assert [k][1..] == [];
  }

  function BulksFrom(args: seq<seq<byte>>, k: nat): seq<byte>
    requires k <= |args|
    decreases |args| - k
  {
    if k == |args| then [] else BulkOf(args[k]) + BulksFrom(args, k + 1)
  }

  lemma {:induction false} BulksSplit(args: seq<seq<byte>>, k: nat)
    requires k <= |args|
    ensures Bulks(args) == Bulks(args[..k]) + BulksFrom(args, k)
    decreases |args| - k
  {
    if k == |args| {
      assert args[..k] == args;
    } else {
      BulksSplit(args, k + 1);
      BulksMore(args, k);
      assert Bulks(args[..k]) + (BulkOf(args[k]) + BulksFrom(args, k + 1)) == (Bulks(args[..k]) + BulkOf(args[k])) +
        BulksFrom(args, k + 1);
    }
  }

  /** The announcement of argument `j` is seen when its turn comes. */
  ghost predicate SeenAt(env: Env, args: seq<seq<byte>>, j: nat, rest: seq<byte>)
    requires j < |args|
  {
    Seen(env, |args[j]|, |BulksFrom(args, j) + rest| - 1)
  }

  lemma {:induction false} BulksParse(env: Env, args: seq<seq<byte>>, k: nat, rest: seq<byte>)
    requires k < |args| && forall a :: a in args ==> |a| <= LLONG_MAX
    ensures var p := Process(env, Midway(args, k), BulksFrom(args, k) + rest);
      if forall j :: k <= j < |args| ==> SeenAt(env, args, j, rest) then p == Ready(Answer(args), rest) else p.Waiting?
    decreases |args| - k
  {
    hide Item, BulkOf, Seen;
    var tail := BulksFrom(args, k + 1) + rest;
    assert BulksFrom(args, k) + rest == BulkOf(args[k]) + tail;
    BulkItem(env, args, k, tail);
    StepProcess(env, Midway(args, k), BulkOf(args[k]) + tail);
    assert (BulkOf(args[k]) + tail)[|BulkOf(args[k])|..] == tail;
    assert Seen(env, |args[k]|, |BulkOf(args[k]) + tail| - 1) == SeenAt(env, args, k, rest);
    if k + 1 < |args| {
      BulksParse(env, args, k + 1, rest);
    } else {
      assert tail == rest;
    }
  }

  /** The announcement of `n` elements. */
  lemma HeadItem(env: Env, n: nat, tail: seq<byte>)
    requires n <= env.limit && n <= LLONG_MAX
    ensures var u := [42] + ShowNat(n) + CRLF + tail;
      Item(env, FRESH, u) ==
        if !Seen(env, n, |u| - 1) then Blocked(WithType(FRESH, TArray), 1)
        else Done(if n == 0 then State([], Aggregate(TArray, []))
                  else State([Task(TArray, ToInt(n), -1), Task(TNone, -1, 0)], Aggregate(TArray, seq(n, _ => Null))),
                  |ShowNat(n)| + 3)
  {
    hide Multi, ShowNat, ToInt, Seen;
    var u := [42] + ShowNat(n) + CRLF + tail;
    assert u == [42] + (ShowNat(n) + CRLF + tail);
    assert u[0] == 42 && u[1..] == ShowNat(n) + CRLF + tail;
    HeadLine(env, n, tail);
  }

  lemma HeadLine(env: Env, n: nat, tail: seq<byte>)
    requires n <= env.limit && n <= LLONG_MAX
    ensures var u := ShowNat(n) + CRLF + tail;
      Multi(env, WithType(FRESH, TArray), u) ==
        if !Seen(env, n, |u|) then Blocked(WithType(FRESH, TArray), 0)
        else Done(if n == 0 then State([], Aggregate(TArray, []))
                  else State([Task(TArray, ToInt(n), -1), Task(TNone, -1, 0)], Aggregate(TArray, seq(n, _ => Null))),
                  |ShowNat(n)| + 2)
  {
    hide ParseLL, LineEnd, ShowNat, ToInt, Seen;
    var st := WithType(FRESH, TArray);
    NumberLine(env, n, tail);
    NumberLength(n);
    assert st.stack == [Task(TArray, -1, -1)] && Path(st.stack) == [];
    assert SetTop(st.stack, Task(TArray, ToInt(n), -1)) + [Task(TNone, -1, 0)] == [Task(TArray, ToInt(n), -1),
      Task(TNone, -1, 0)];
  }

  /** The round trip: whatever follows on the wire, parsing a printed command gives the array of exactly its
      arguments, byte for byte, if and only if the end of each announcement is seen when its turn comes. */
  lemma ParsePrinted(env: Env, args: seq<seq<byte>>, rest: seq<byte>)
    requires |args| <= env.limit <= INT_MAX && forall a :: a in args ==> |a| <= LLONG_MAX
    ensures Process(env, FRESH, Wire(args) + rest) == Ready(Answer(args), rest) <==>
      Seen(env, |args|, |Wire(args) + rest| - 1) && forall j :: 0 <= j < |args| ==> SeenAt(env, args, j, rest)
  {
    hide Item, Process, Bulks, BulkOf, Seen, SeenAt;
    var tail := Bulks(args) + rest;
    var head := [42] + ShowNat(|args|) + CRLF;
    assert Wire(args) + rest == head + tail;
    HeadItem(env, |args|, tail);
    StepProcess(env, FRESH, head + tail);
    assert (head + tail)[|ShowNat(|args|)| + 3..] == tail;
    NoBulks();
    if args == [] {
      assert Answer(args).elems == [];
      assert tail == rest;
    } else {
      assert Midway(args, 0).reply.elems == seq(|args|, _ => Null);
      BulksSplit(args, 0);
      assert args[..0] == [];
      assert tail == BulksFrom(args, 0) + rest;
      BulksParse(env, args, 0, rest);
    }
  }

  /** As the protocol means it, and in the source while an int can count what is at hand, every printed command is
      parsed back. */
  lemma ParseBack(env: Env, args: seq<seq<byte>>, rest: seq<byte>)
    requires |args| <= env.limit <= INT_MAX && forall a :: a in args ==> |a| <= LLONG_MAX
    requires env.wide || |Wire(args) + rest| <= INT_MAX
    ensures Process(env, FRESH, Wire(args) + rest) == Ready(Answer(args), rest)
  {
    hide Process, Bulks, ShowNat;
    ParsePrinted(env, args, rest);
    forall j | 0 <= j < |args| ensures SeenAt(env, args, j, rest) {
      BulksSplit(args, j);
      BulkLength(args[j]);
    }
  }

  /** A command with an argument of more than 2 to the 31st bytes is not parsed back. */
  lemma LongNotParsed(env: Env, arg: seq<byte>)
    requires 1 <= env.limit <= INT_MAX && !env.wide && |arg| == 3_000_000_000
    ensures Process(env, FRESH, Wire([arg])) != Ready(Answer([arg]), [])
  {
    hide Process, ShowNat, Bulks;
    ParsePrinted(env, [arg], []);
    assert Wire([arg]) + [] == Wire([arg]);
    OneShort(arg);
    NumberLength(|arg|);
    BulkLength(arg);
    assert ToInt(|Wire([arg])| - 2) < 0;
  }

  lemma NoBulks()
    ensures Bulks([]) == []
  {}

  /** An array announced with more elements than an int holds, up to 2 to the 32nd: kept in an int, the count is not
      positive, and the assertion of `moveToNextTask` fails at the first element. */
  lemma HugeCount(env: Env, n: nat)
    requires INT_MAX < n <= env.limit && n <= 0x1_0000_0000
    ensures Process(env, FRESH, [42] + ShowNat(n) + CRLF + [95] + CRLF) == Crashed
  {
    hide Process, Item, ShowNat;
    NumberLength(n);
    var tail: seq<byte> := [95] + CRLF;
    var u := [42] + ShowNat(n) + CRLF + tail;
    assert u == [42] + ShowNat(n) + CRLF + [95] + CRLF;
    HeadItem(env, n, tail);
    StepProcess(env, FRESH, u);
    assert u[|ShowNat(n)| + 3..] == tail;
    var st1 := State([Task(TArray, ToInt(n), -1), Task(TNone, -1, 0)], Aggregate(TArray, seq(n, _ => Null)));
    HugeFails(env, n, st1);
    StepProcess(env, st1, tail);
  }

  lemma HugeFails(env: Env, n: nat, st: State)
    requires INT_MAX < n <= 0x1_0000_0000 && st.stack == [Task(TArray, ToInt(n), -1), Task(TNone, -1, 0)]
    ensures Item(env, st, [95] + CRLF) == Abort
  {
    hide Bulk, Multi, ParseLL;
    var tail: seq<byte> := [95] + CRLF;
    LineEnds([], []);
    SeekExact(tail[1..]);
    assert tail[1..] == [] + CRLF + [];
    var st1 := WithType(st, TNil);
    assert ToInt(n) == n - 0x1_0000_0000 <= 0;
    assert st1.stack == [Task(TArray, n - 0x1_0000_0000, -1), Task(TNil, -1, 0)];
    assert MoveNext(st1.stack).Asserted?;
  }

  /** The parser's assertions hold on every input if and only if memory never allows more elements in one aggregate
      than an int holds. */
  lemma AssertionsExact(env: Env)
    ensures (forall u: seq<byte> :: !Process(env, FRESH, u).Crashed?) <==> env.limit <= INT_MAX
  {
    hide Process;
    if env.limit <= INT_MAX {
      FreshState();
      forall u: seq<byte> ensures !Process(env, FRESH, u).Crashed? { ProcessSafe(env, FRESH, u); }
    } else {
      HugeCount(env, INT_MAX + 1);
    }
  }
}
