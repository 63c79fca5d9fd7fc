/** The callback queue of an asynchronous connection, outside subscribed and monitor mode: which callback gets which
    reply, and what becomes of pending callbacks, although callbacks may issue commands, disconnect and free. */
module AsyncQueue {

  datatype Option<T> = None | Some(value: T)

  /** A command's callback: its number in the order of acceptance, and whether there is a function to run. */
  datatype Callback = Callback(id: nat, fn: bool)

  datatype Reply = Reply(data: nat, error: bool)

  /** What a callback does through the interface while it runs. */
  datatype Act = Command(fn: bool) | Disconnect | Free

  /** A callback with the reply it gets, if any. */
  datatype Outcome = Outcome(cb: Callback, reply: Option<Reply>)

  datatype Flags = Flags(disconnecting: bool, freeing: bool, inCallback: bool, noAutoFree: bool)

  /** What the program and the event loop do, outside callbacks. */
  datatype Event =
    | Issue(fn: bool)
    | Quit
    | Release
    | Read(input: seq<Reply>, broken: bool, flushed: bool)
    | Timeout(connected: bool)

  // ---------- The history ----------

  function Callbacks(done: seq<Outcome>): (cbs: seq<Callback>)
    ensures |cbs| == |done|
  {
    seq(|done|, i requires 0 <= i < |done| => done[i].cb)
  }

  /** Those that have a function to run. */
  function Runs(done: seq<Outcome>): seq<Outcome> {
    if done == [] then []
    else
      var last := done[|done| - 1];
      Runs(done[..|done| - 1]) + if last.cb.fn then [last] else []
  }

  /** Numbered in order. */
  ghost predicate Numbered(cbs: seq<Callback>) {
    forall i :: 0 <= i < |cbs| ==> cbs[i].id == i
  }

  /** The k-th outcome has the k-th reply; later ones, if the connection is being given up, none. */
  ghost predicate InOrder(done: seq<Outcome>, received: seq<Reply>) {
    && |received| <= |done|
    && forall i :: 0 <= i < |done| ==> done[i].reply == if i < |received| then Some(received[i]) else None
  }

  /** A run of one of the first `n` accepted callbacks, of number k: with the k-th reply or, beyond the replies
      received, without one. */
  ghost predicate RunOf(run: Outcome, accepted: seq<Callback>, n: nat, received: seq<Reply>) {
    var k := run.cb.id;
    && k < n <= |accepted| && run.cb == accepted[k] && run.cb.fn
    && run.reply == if k < |received| then Some(received[k]) else None
  }

  ghost predicate HasRun(cb: Callback, ran: seq<Outcome>) {
    exists j :: 0 <= j < |ran| && ran[j].cb == cb
  }

  /** Of the first `n` accepted callbacks, each with a function has run once, in the order of acceptance, and with its
      reply; and no other has run. */
  ghost predicate OnceEach(accepted: seq<Callback>, n: nat, ran: seq<Outcome>, received: seq<Reply>) {
    && n <= |accepted|
    && (forall j :: 0 <= j < |ran| ==> RunOf(ran[j], accepted, n, received))
    && (forall i, j :: 0 <= i < j < |ran| ==> ran[i].cb.id < ran[j].cb.id)
    && (forall k :: 0 <= k < n && accepted[k].fn ==> HasRun(accepted[k], ran))
  }

  lemma {:induction false} RunsAre(accepted: seq<Callback>, done: seq<Outcome>, received: seq<Reply>, n: nat)
    requires Numbered(accepted) && n <= |done| <= |accepted| && Callbacks(done) <= accepted && InOrder(done, received)
    ensures OnceEach(accepted, n, Runs(done[..n]), received)
  {
    if n == 0 {
      assert done[..0] == [];
    } else {
      RunsAre(accepted, done, received, n - 1);
      var front, ran, last := done[..n - 1], Runs(done[..n - 1]), done[n - 1];
      assert done[..n][..n - 1] == front && Callbacks(done)[n - 1] == accepted[n - 1];
      var all := Runs(done[..n]);
      assert all == ran + if last.cb.fn then [last] else [];
      RunsMore(accepted, done, received, n, ran, all);
    }
  }

  lemma RunsMore(accepted: seq<Callback>, done: seq<Outcome>, received: seq<Reply>, n: nat, ran: seq<Outcome>,
          all: seq<Outcome>)
    requires Numbered(accepted) && 0 < n <= |done| <= |accepted| && InOrder(done, received)
          && done[n - 1].cb == accepted[n - 1]
    requires OnceEach(accepted, n - 1, ran, received)
    requires all == ran + if done[n - 1].cb.fn then [done[n - 1]] else []
    ensures OnceEach(accepted, n, all, received)
  {
    hide Callbacks, Runs;
    forall j | 0 <= j < |all| ensures RunOf(all[j], accepted, n, received) {
      if j < |ran| { assert RunOf(ran[j], accepted, n - 1, received); }
    }
    forall k | 0 <= k < n && accepted[k].fn ensures HasRun(accepted[k], all) {
      if k < n - 1 {
        assert HasRun(accepted[k], ran);
        var j :| 0 <= j < |ran| && ran[j].cb == accepted[k];
        assert all[j].cb == accepted[k];
      } else {
        assert all[|ran|].cb == accepted[k];
      }
    }
    forall i, j | 0 <= i < j < |all| ensures all[i].cb.id < all[j].cb.id {
      if j < |ran| {
        assert ran[i].cb.id < ran[j].cb.id;
      } else {
        assert RunOf(ran[i], accepted, n - 1, received);
      }
    }
  }

  lemma RanOnce(done: seq<Outcome>, pending: seq<Callback>, received: seq<Reply>)
    requires Numbered(Callbacks(done) + pending) && InOrder(done, received)
    ensures OnceEach(Callbacks(done) + pending, |done|, Runs(done), received)
  {
    hide *;
    assert done[..|done|] == done && Callbacks(done) <= Callbacks(done) + pending;
    RunsAre(Callbacks(done) + pending, done, received, |done|);
  }

  // ---------- What will happen, told beforehand ----------

  /** The pending callbacks, by whether they have a function, what the callbacks to come will do, and the flags. */
  datatype Line = Line(fns: seq<bool>, acts: seq<seq<Act>>, disconnecting: bool, freeing: bool, keep: bool,
    err: bool)

  datatype End = Live(line: Line) | Freed | Failed

  /** An act: commands are accepted until one has asked to disconnect or to free. */
  function Acted(l: Line, act: Act): Line {
    match act
    case Command(fn) => if l.disconnecting || l.freeing then l else l.(fns := l.fns + [fn])
    case Disconnect => l.(disconnecting := true, keep := false)
    case Free => l.(freeing := true)
  }

  function ActedAll(l: Line, todo: seq<Act>): (r: Line)
    ensures r.acts == l.acts
  {
    if todo == [] then l else Acted(ActedAll(l, todo[..|todo| - 1]), todo[|todo| - 1])
  }

  /** The callback at the head of the line is taken off and runs. */
  function Called(l: Line): (r: Line)
    requires l.fns != []
    ensures |r.acts| < |l.acts| || (r.acts == l.acts && r.fns == l.fns[1..])
  {
    var rest := l.(fns := l.fns[1..]);
    if l.fns[0] && l.acts != [] then ActedAll(rest.(acts := l.acts[1..]), l.acts[0]) else rest
  }

  /** All run, also those that come meanwhile. */
  function Drained(l: Line): Line
    decreases |l.acts|, |l.fns|
  {
    if l.fns == [] then l else Drained(Called(l))
  }

  /** The connection is given up: freed, unless freeing is left to the program. */
  function Ended(l: Line): End {
    if l.keep then Live(l.(disconnecting := true)) else Freed
  }

  /** How many replies go to callbacks. */
  function Taken(l: Line, input: seq<Reply>): (n: nat)
    ensures n <= |input|
    decreases |input|
  {
    if input == [] || l.fns == [] then 0
    else if l.fns[0] && Called(l).freeing then 1
    else 1 + Taken(Called(l), input[1..])
  }

  /** What the replies lead to: a failed assertion, if one comes that nobody waits for and that is no error. */
  function Processed(l: Line, input: seq<Reply>, broken: bool, flushed: bool): End
    decreases |input|
  {
    if input == [] then
      if broken then Ended(l.(err := true))
      else if l.disconnecting && flushed && l.fns == [] then Ended(l)
      else Live(l)
    else if l.fns == [] then
      if input[0].error then Ended(l.(err := true)) else Failed
    else if l.fns[0] && Called(l).freeing then Freed
    else Processed(Called(l), input[1..], broken, flushed)
  }

  /** The next reply, from within the input. */
  lemma Unfolded(l: Line, input: seq<Reply>, n: nat, broken: bool, flushed: bool)
    requires n < |input|
    ensures l.fns == [] ==>
              && Taken(l, input[n..]) == 0
              && Processed(l, input[n..], broken, flushed) ==
                if input[n].error then Ended(l.(err := true)) else Failed
    ensures l.fns != [] && l.fns[0] && Called(l).freeing ==>
              Taken(l, input[n..]) == 1 && Processed(l, input[n..], broken, flushed) == Freed
    ensures l.fns != [] && !(l.fns[0] && Called(l).freeing) ==>
              && Taken(l, input[n..]) == 1 + Taken(Called(l), input[n + 1..])
              && Processed(l, input[n..], broken, flushed) == Processed(Called(l), input[n + 1..], broken, flushed)
  {
    assert input[n..][1..] == input[n + 1..];
  }

  /** The first `n` replies have been received since. */
  ghost predicate Got(before: seq<Reply>, now: seq<Reply>, input: seq<Reply>, n: nat) {
    n <= |input| && now == before + input[..n]
  }

  lemma GotNext(before: seq<Reply>, now: seq<Reply>, input: seq<Reply>, n: nat)
    requires Got(before, now, input, n) && n < |input|
    ensures Got(before, now + [input[n]], input, n + 1) && Got(before, now + [], input, n)
  {
    assert before + input[..n + 1] == before + input[..n] + [input[n]];
  }

  function After(l: Line, event: Event): End {
    match event
    case Issue(fn) => Live(Acted(l, Command(fn)))
    case Quit => if l.fns == [] then Freed else Live(l.(disconnecting := true, keep := false))
    case Release => Freed
    case Read(input, broken, flushed) => if l.err then Ended(l) else Processed(l, input, broken, flushed)
    case Timeout(connected) => if connected && l.fns == [] then Live(l) else Ended(Drained(l.(err := true)))
  }

  /** A whole run, up to the end of the connection. */
  function Served(l: Line, events: seq<Event>): End
    decreases |events|
  {
    if events == [] then Live(l)
    else
      var next := After(l, events[0]);
      if next.Live? then Served(next.line, events[1..]) else next
  }

  function TakenIn(l: Line, event: Event): seq<Reply> {
    if event.Read? && !l.err then event.input[..Taken(l, event.input)] else []
  }

  /** The replies that go to callbacks in a whole run. */
  function TakenAll(l: Line, events: seq<Event>): seq<Reply>
    decreases |events|
  {
    if events == [] then []
    else
      var next := After(l, events[0]);
      TakenIn(l, events[0]) + if next.Live? then TakenAll(next.line, events[1..]) else []
  }

  /** Callbacks that issue nothing and free nothing: the assertion fails exactly if more replies come than callbacks
      are pending and the first too many is no error. */
  lemma {:induction false} UnaskedExactly(l: Line, input: seq<Reply>, broken: bool, flushed: bool)
    requires !l.freeing && forall todo, act :: todo in l.acts && act in todo ==> act == Disconnect
    ensures Processed(l, input, broken, flushed) == Failed <==> |l.fns| < |input| && !input[|l.fns|].error
    decreases |input|
  {
    if input != [] && l.fns != [] {
      if l.fns[0] && l.acts != [] {
        OnlyDisconnects(l.(fns := l.fns[1..], acts := l.acts[1..]), l.acts[0]);
      }
      UnaskedExactly(Called(l), input[1..], broken, flushed);
    }
  }

  lemma {:induction false} OnlyDisconnects(l: Line, todo: seq<Act>)
    requires forall act :: act in todo ==> act == Disconnect
    ensures ActedAll(l, todo).fns == l.fns && ActedAll(l, todo).freeing == l.freeing && ActedAll(l, todo).err == l.err
    ensures ActedAll(l, todo).disconnecting == (l.disconnecting || todo != [])
          && ActedAll(l, todo).keep == (l.keep && todo == [])
  {
    if todo != [] {
      var front := todo[..|todo| - 1];
      assert forall act :: act in front ==> act in todo;
      OnlyDisconnects(l, front);
      assert todo[|todo| - 1] in todo;
    }
  }

  /** How many of the first `k` callbacks have a function. */
  function Running(fns: seq<bool>, k: nat): nat
    requires k <= |fns|
  {
    if k == 0 then 0 else (if fns[0] then 1 else 0) + Running(fns[1..], k - 1)
  }

  /** One of the first `k` callbacks does something. */
  ghost predicate Asks(l: Line, k: nat)
    requires k <= |l.fns|
  {
    exists j :: 0 <= j < Running(l.fns, k) && j < |l.acts| && l.acts[j] != []
  }

  /** Callbacks that do nothing but ask to disconnect: what becomes of the connection with a read. It is freed exactly
      if the program did not keep that to itself and either the read failed, or a reply that is an error came when none
      was pending, or all replies are in, the output is flushed and a disconnect was asked for. */
  lemma {:induction false} ReadEnds(l: Line, input: seq<Reply>, broken: bool, flushed: bool)
    requires !l.freeing && forall todo, act :: todo in l.acts && act in todo ==> act == Disconnect
    ensures var n, m := |l.fns|, |input|;
      var asked := Asks(l, if m < n then m else n);
      && (Processed(l, input, broken, flushed) == Freed <==>
          && !(l.keep && !asked)
          && if m > n then input[n].error else broken || ((l.disconnecting || asked) && flushed && m == n))
      && (Processed(l, input, broken, flushed) == Failed <==> m > n && !input[n].error)
      && (Processed(l, input, broken, flushed).Live? && m <= n ==>
          Processed(l, input, broken, flushed).line.fns == l.fns[m..])
    decreases |input|
  {
    hide ActedAll;
    if input != [] && l.fns != [] {
      var rest := Called(l);
      var k := if |input| < |l.fns| then |input| else |l.fns|;
      CalledQuietly(l);
      ReadEnds(rest, input[1..], broken, flushed);
      AsksNext(l, k);
    } else {
      assert !Asks(l, 0);
      assert l.fns[0..] == l.fns;
    }
  }

  lemma CalledQuietly(l: Line)
    requires l.fns != [] && !l.freeing && forall todo, act :: todo in l.acts && act in todo ==> act == Disconnect
    ensures var r, asks := Called(l), l.fns[0] && l.acts != [] && l.acts[0] != [];
      && r.fns == l.fns[1..] && !r.freeing && r.err == l.err
      && r.acts == (if l.fns[0] && l.acts != [] then l.acts[1..] else l.acts)
      && r.disconnecting == (l.disconnecting || asks) && r.keep == (l.keep && !asks)
  {
    if l.fns[0] && l.acts != [] {
      OnlyDisconnects(l.(fns := l.fns[1..], acts := l.acts[1..]), l.acts[0]);
    }
  }

  lemma AsksNext(l: Line, k: nat)
    requires 0 < k <= |l.fns| && Called(l).fns == l.fns[1..]
          && Called(l).acts == (if l.fns[0] && l.acts != [] then l.acts[1..] else l.acts)
    ensures Asks(l, k) <==> (l.fns[0] && l.acts != [] && l.acts[0] != []) || Asks(Called(l), k - 1)
  {
    var r := Called(l);
    if Asks(l, k) {
      var j :| 0 <= j < Running(l.fns, k) && j < |l.acts| && l.acts[j] != [];
      if l.fns[0] {
        if j > 0 { assert r.acts[j - 1] == l.acts[j]; }
      } else {
        assert r.acts[j] == l.acts[j];
      }
    }
    if Asks(r, k - 1) {
      var j :| 0 <= j < Running(r.fns, k - 1) && j < |r.acts| && r.acts[j] != [];
      if l.fns[0] && l.acts != [] { assert l.acts[j + 1] == r.acts[j]; } else { assert l.acts[j] == r.acts[j]; }
    }
  }

  /** In the same case, how a timeout ends: the program keeps the context exactly if it had said so and none of the
      callbacks that run asks to disconnect. */
  lemma {:induction false} TimeoutEnds(l: Line)
    requires !l.freeing && forall todo, act :: todo in l.acts && act in todo ==> act == Disconnect
    ensures After(l, Timeout(false)) == Freed <==> !l.keep || Asks(l, |l.fns|)
    ensures Drained(l).keep <==> l.keep && !Asks(l, |l.fns|)
    decreases |l.fns|
  {
    hide ActedAll;
    DrainedErr(l);
    if l.fns != [] {
      CalledQuietly(l);
      TimeoutEnds(Called(l));
      AsksNext(l, |l.fns|);
    } else {
      assert !Asks(l, 0);
    }
  }

  /** The error does not matter for what the callbacks do. */
  lemma {:induction false} DrainedErr(l: Line)
    ensures Drained(l.(err := true)).keep == Drained(l).keep
    decreases |l.acts|, |l.fns|
  {
    var e := l.(err := true);
    if l.fns != [] {
      if l.fns[0] && l.acts != [] {
        ActedErr(l.(fns := l.fns[1..], acts := l.acts[1..]), l.acts[0]);
        assert e.(fns := e.fns[1..], acts := e.acts[1..]) == l.(fns := l.fns[1..], acts := l.acts[1..]).(err := true);
      }
      assert Called(e) == Called(l).(err := true);
      DrainedErr(Called(l));
    }
  }

  lemma {:induction false} ActedErr(l: Line, todo: seq<Act>)
    ensures ActedAll(l.(err := true), todo) == ActedAll(l, todo).(err := true)
  {
    if todo != [] { ActedErr(l, todo[..|todo| - 1]); }
  }

  /** The commands up to the first other act, by whether they have a function. */
  function Lead(todo: seq<Act>): seq<bool> {
    if todo == [] || !todo[0].Command? then [] else [todo[0].fn] + Lead(todo[1..])
  }

  ghost predicate AllCommands(todo: seq<Act>) {
    Disconnect !in todo && Free !in todo
  }

  lemma {:induction false} LeadMore(front: seq<Act>, last: Act)
    ensures Lead(front + [last]) == Lead(front) + if AllCommands(front) && last.Command? then [last.fn] else []
  {
    var todo := front + [last];
    if front == [] {
      assert todo[1..] == [];
    } else {
      assert todo[1..] == front[1..] + [last] && front == [front[0]] + front[1..];
      if front[0].Command? { LeadMore(front[1..], last); }
    }
  }

  lemma {:induction false} ActsFlags(l: Line, todo: seq<Act>)
    ensures var r := ActedAll(l, todo);
      && (r.disconnecting <==> l.disconnecting || Disconnect in todo)
      && (r.keep <==> l.keep && Disconnect !in todo) && (r.freeing <==> l.freeing || Free in todo) && r.err == l.err
  {
    if todo != [] {
      assert todo == todo[..|todo| - 1] + [todo[|todo| - 1]];
      ActsFlags(l, todo[..|todo| - 1]);
    }
  }

  /** What the acts of one callback come to: its commands up to the first other act are accepted, unless the context
      was closing before, and its wishes to disconnect and to free are heard wherever they stand. */
  lemma {:induction false} ActsMean(l: Line, todo: seq<Act>)
    ensures var r := ActedAll(l, todo);
      && (r.disconnecting <==> l.disconnecting || Disconnect in todo)
      && (r.keep <==> l.keep && Disconnect !in todo) && (r.freeing <==> l.freeing || Free in todo) && r.err == l.err
      && r.fns == l.fns + if l.disconnecting || l.freeing then [] else Lead(todo)
  {
    ActsFlags(l, todo);
    if todo != [] {
      var front, last := todo[..|todo| - 1], todo[|todo| - 1];
      assert todo == front + [last];
      ActsMean(l, front);
      LeadMore(front, last);
    }
  }

  /** A callback that frees the context with its reply ends the connection at once; no further reply is looked at. */
  lemma FreeHeard(l: Line, input: seq<Reply>, broken: bool, flushed: bool)
    requires input != [] && l.fns != [] && l.fns[0] && l.acts != [] && Free in l.acts[0]
    ensures Processed(l, input, broken, flushed) == Freed && Taken(l, input) == 1
  {
    ActsMean(l.(fns := l.fns[1..], acts := l.acts[1..]), l.acts[0]);
  }

  /** All replies of the reads. */
  function Arriving(events: seq<Event>): nat {
    if events == [] then 0 else (if events[0].Read? then |events[0].input| else 0) + Arriving(events[1..])
  }

  /** Once a disconnect was asked for, whatever the callbacks do: when the reads have brought all replies and the
      last one finds the output flushed, the connection is freed. */
  lemma {:induction false} CleanEnd(l: Line, rs: seq<Event>)
    requires l.disconnecting && !l.keep && !l.err && rs != [] && Arriving(rs) == |l.fns|
    requires (forall e :: e in rs ==> e.Read? && !e.broken) && rs[|rs| - 1].flushed
    ensures Served(l, rs) == Freed
    decreases |rs|
  {
    hide Processed;
    var read, rest := rs[0], rs[1..];
    assert read in rs;
    NothingLeft(rest);
    ReadClosing(l, read.input, read.flushed);
    if Processed(l, read.input, false, read.flushed).Live? {
      if rest == [] { assert false; }
      assert forall e :: e in rest ==> e in rs;
      CleanEnd(Processed(l, read.input, false, read.flushed).line, rest);
    }
  }

  lemma NothingLeft(rs: seq<Event>)
    ensures rs == [] ==> Arriving(rs) == 0
  {}

  /** A read with no more replies than are pending, on a connection that is to be closed. */
  lemma {:induction false} ReadClosing(l: Line, input: seq<Reply>, flushed: bool)
    requires l.disconnecting && !l.keep && !l.err && |input| <= |l.fns|
    ensures match Processed(l, input, false, flushed)
      case Freed => true
      case Failed => false
      case Live(r) =>
        && r.disconnecting && !r.keep && !r.err && r.fns == l.fns[|input|..] && !(flushed && |input| == |l.fns|)
    decreases |input|
  {
    hide ActedAll;
    if input != [] {
      CalledClosing(l);
      ReadClosing(Called(l), input[1..], flushed);
    }
  }

  lemma CalledClosing(l: Line)
    requires l.disconnecting && !l.keep && l.fns != []
    ensures Called(l).disconnecting && !Called(l).keep && Called(l).err == l.err && Called(l).fns == l.fns[1..]
  {
    if l.fns[0] && l.acts != [] { Refused(l.(fns := l.fns[1..], acts := l.acts[1..]), l.acts[0]); }
  }

  lemma {:induction false} Refused(l: Line, todo: seq<Act>)
    requires l.disconnecting && !l.keep
    ensures var r := ActedAll(l, todo); r.disconnecting && !r.keep && r.err == l.err && r.fns == l.fns
  {
    if todo != [] { Refused(l, todo[..|todo| - 1]); }
  }

  // ---------- The context ----------

  function Fns(cbs: seq<Callback>): seq<bool> {
    seq(|cbs|, i requires 0 <= i < |cbs| => cbs[i].fn)
  }

  class AsyncContext {
    var replies: seq<Callback>       // the callback list, from head to tail
    var issued: nat                  // how many commands were accepted
    var flags: Flags
    var err: bool
    var freed: bool
    var acts: seq<seq<Act>>          // what the callbacks to come will do, one entry a run
    ghost var accepted: seq<Callback>
    ghost var done: seq<Outcome>     // callbacks that have left the list
    ghost var ran: seq<Outcome>      // callbacks that were run, with what they were run with
    ghost var received: seq<Reply>

    predicate Rejecting()
      reads this
    {
      flags.disconnecting || flags.freeing
    }

    function Now(): Line
      reads this
    {
      Line(Fns(replies), acts, flags.disconnecting, flags.freeing, flags.noAutoFree, err)
    }

    /** Accepted callbacks are those done, in order, and those pending; replies went out in order. */
    ghost predicate Queue()
      reads this
    {
      accepted == Callbacks(done) + replies && issued == |accepted| && Numbered(accepted) && InOrder(done, received)
    }

    /** All that left the list have run. */
    ghost predicate Settled()
      reads this
    {
      Queue() && ran == Runs(done)
    }

    /** Between events: once a callback got no reply, none is pending and none will be accepted. */
    ghost predicate Valid()
      reads this
    {
      && Settled() && !freed && !flags.inCallback
      && (|received| < |done| ==> replies == [] && Rejecting())
    }

    /** A freed context has run every callback it ever accepted, in order. */
    ghost predicate Finished()
      reads this
    {
      Settled() && freed && replies == [] && Callbacks(done) == accepted
    }

    lemma Once()
      requires Settled()
      ensures OnceEach(accepted, |accepted| - |replies|, ran, received)
    {
      RanOnce(done, replies, received);
    }

    constructor (script: seq<seq<Act>>, keep: bool)
      ensures Valid() && accepted == [] && acts == script && flags == Flags(false, false, false, keep) && !err
      ensures Now() == Line([], script, false, false, keep, false)
    {
      replies, issued, flags, err, freed, acts := [], 0, Flags(false, false, false, keep), false, false, script;
      accepted, done, ran, received := [], [], [], [];
    }

    /** `__redisAsyncCommand` (async.c 635-713) for an ordinary command: refused when the connection is about to close.
        */
    method AsyncCommand(fn: bool) returns (ok: bool)
      requires Queue()
      modifies this`replies, this`issued, this`accepted
      ensures Queue() && ok == !Rejecting() && Now() == Acted(old(Now()), Command(fn))
      ensures if ok then
                var cb := Callback(|old(accepted)|, fn);
                replies == old(replies) + [cb] && accepted == old(accepted) + [cb]
              else replies == old(replies) && accepted == old(accepted)
    {
      if Rejecting() { return false; }
      var cb := Callback(issued, fn);
      issued := issued + 1;
      replies := replies + [cb];
      accepted := accepted + [cb];
      assert Fns(replies) == Fns(old(replies)) + [fn];
      return true;
    }

    /** `__redisShiftCallback` (async.c 236-250), with the reply it is shifted for. */
    method Shift(reply: Option<Reply>) returns (cb: Callback)
      requires Queue() && replies != [] && (reply.Some? ==> |received| == |done|)
      modifies this`replies, this`done, this`received
      ensures Queue() && cb == old(replies)[0] && replies == old(replies)[1..]
            && done == old(done) + [Outcome(cb, reply)]
      ensures received == if reply.Some? then old(received) + [reply.value] else old(received)
      ensures old(Now()).fns != [] && cb.fn == old(Now()).fns[0] && Now() == old(Now()).(fns := old(Now()).fns[1..])
    {
      cb := replies[0];
      replies := replies[1..];
      done := done + [Outcome(cb, reply)];
      if reply.Some? { received := received + [reply.value]; }
      assert Callbacks(done) == Callbacks(old(done)) + [cb];
      assert Fns(replies) == Fns(old(replies))[1..];
    }

    /** `__redisRunCallback` (async.c 252-259): the callback taken off last runs, with its reply. Inside a callback,
        disconnecting and freeing only set flags. */
    method RunCallback(cb: Callback, reply: Option<Reply>)
      requires Queue() && !flags.inCallback
      requires done != [] && done[|done| - 1] == Outcome(cb, reply) && ran == Runs(done[..|done| - 1])
      modifies this`replies, this`issued, this`flags, this`acts, this`accepted, this`ran
      ensures Settled() && !flags.inCallback
      ensures ran == old(ran) + if cb.fn then [Outcome(cb, reply)] else []
      ensures old(Rejecting()) ==> Rejecting() && replies == old(replies) && accepted == old(accepted)
      ensures old(accepted) <= accepted
      ensures Now() == if cb.fn && old(acts) != [] then ActedAll(old(Now()).(acts := old(acts)[1..]), old(acts)[0])
          else old(Now())
    {
      hide Numbered, InOrder, Callbacks, ActedAll;
      assert Runs(done) == ran + if cb.fn then [Outcome(cb, reply)] else [];
      if !cb.fn { return; }
      ran := ran + [Outcome(cb, reply)];
      flags := flags.(inCallback := true);
      if acts != [] {
        var todo := acts[0];
        acts := acts[1..];
        RunActs(todo);
      }
      flags := flags.(inCallback := false);
    }

    /** The body of a callback. */
    method RunActs(todo: seq<Act>)
      requires Queue() && flags.inCallback
      modifies this`replies, this`issued, this`flags, this`accepted
      ensures Queue() && flags.inCallback && Now() == ActedAll(old(Now()), todo) && old(accepted) <= accepted
      ensures old(Rejecting()) ==> Rejecting() && replies == old(replies) && accepted == old(accepted)
    {
      hide Numbered, InOrder, Callbacks, Fns;
      for i := 0 to |todo|
        invariant Queue() && flags.inCallback && Now() == ActedAll(old(Now()), todo[..i]) && old(accepted) <= accepted
        invariant old(Rejecting()) ==> Rejecting() && replies == old(replies) && accepted == old(accepted)
      {
        assert todo[..i + 1][..i] == todo[..i];
        match todo[i]
        case Command(fn) => var _ := AsyncCommand(fn);
        case Disconnect => flags := flags.(disconnecting := true, noAutoFree := false);
        case Free => flags := flags.(freeing := true);
      }
      assert todo[..|todo|] == todo;
    }

    /** The next callback is taken off and runs, with or without a reply. */
    method Pass(reply: Option<Reply>) returns (cb: Callback)
      requires Settled() && !flags.inCallback && replies != [] && (reply.Some? ==> |received| == |done|)
      modifies this`replies, this`issued, this`flags, this`acts, this`accepted, this`done, this`ran, this`received
      ensures Settled() && !flags.inCallback
      ensures old(Now()).fns != [] && cb.fn == old(Now()).fns[0] && Now() == Called(old(Now()))
      ensures done == old(done) + [Outcome(cb, reply)]
      ensures ran == old(ran) + if cb.fn then [Outcome(cb, reply)] else []
      ensures received == if reply.Some? then old(received) + [reply.value] else old(received)
      ensures old(Rejecting()) ==> Rejecting() && replies == old(replies)[1..] && accepted == old(accepted)
      ensures old(accepted) <= accepted
    {
      hide Numbered, InOrder, Callbacks, ActedAll, Runs;
      cb := Shift(reply);
      assert done[..|done| - 1] == old(done);
      RunCallback(cb, reply);
    }

    /** `__redisAsyncFree` (async.c 262-304): the callbacks still pending run without a reply. */
    method FreeNow()
      requires Settled() && !freed && !flags.inCallback && (replies == [] || Rejecting())
      modifies this
      ensures Finished() && accepted == old(accepted) && received == old(received) && err == old(err)
      ensures old(done) <= done && ran == old(ran) + Runs(done[|old(done)|..])
      ensures forall i :: |old(done)| <= i < |done| ==> done[i].reply == None
    {
      hide Numbered, InOrder, Runs, ActedAll, Called, Fns;
      while replies != []
        invariant Settled() && !freed && !flags.inCallback && (replies == [] || Rejecting())
        invariant accepted == old(accepted) && old(done) <= done && received == old(received) && err == old(err)
        invariant forall i :: |old(done)| <= i < |done| ==> done[i].reply == None
        decreases |replies|
      {
        var _ := Pass(None);
      }
      freed := true;
      assert Callbacks(done) + [] == Callbacks(done);
      RunsSplit(old(done), done[|old(done)|..]);
      assert done == old(done) + done[|old(done)|..];
    }

    /** `redisAsyncFree` (async.c 310-315) from outside callbacks. */
    method AsyncFree()
      requires Valid()
      modifies this
      ensures Finished() && accepted == old(accepted) && received == old(received) && old(done) <= done
    {
      flags := flags.(freeing := true);
      FreeNow();
    }

    /** `__redisAsyncDisconnect` (async.c 318-343). Its precondition is its assertion: a clean disconnect has no
        pending callbacks. */
    method DoDisconnect()
      requires Settled() && !freed && !flags.inCallback && (err || (flags.disconnecting && replies == []))
      requires |received| < |done| ==> replies == []
      modifies this
      ensures freed == !old(flags).noAutoFree
      ensures if freed then Finished() else Valid() && Live(Now()) == Ended(old(Now()))
      ensures accepted == old(accepted) && received == old(received) && old(done) <= done && err == old(err)
      ensures !freed ==> replies == old(replies) && done == old(done) && ran == old(ran)
    {
      if err { flags := flags.(disconnecting := true); }
      if !flags.noAutoFree { FreeNow(); }
    }

    /** `redisAsyncDisconnect` (async.c 351-359) from outside callbacks: at once if nothing is pending. */
    method AsyncDisconnect()
      requires Valid()
      modifies this
      ensures freed <==> old(replies) == []
      ensures if freed then Finished() else Valid() && Now() == old(Now()).(disconnecting := true, keep := false)
      ensures accepted == old(accepted) && received == old(received) && done == old(done)
    {
      flags := flags.(disconnecting := true, noAutoFree := false);
      if replies == [] { DoDisconnect(); }
      assert Callbacks(done) + [] == Callbacks(done);
    }

    /** `redisProcessCallbacks` (async.c 421-499) with the replies that the reader has; `broken` if it then reports an
        error, `flushed` if the output buffer is empty. The first `n` replies go to the next `n` callbacks, which run
        with them. Its own assertion fails, and gives `ok` false, exactly if what is told beforehand from the pending
        callbacks, what they will do and the replies is a reply that nobody waits for and that is no error. */
    method ProcessCallbacks(input: seq<Reply>, broken: bool, flushed: bool) returns (ok: bool, n: nat)
      requires Valid()
      modifies this
      ensures ok <==> Processed(old(Now()), input, broken, flushed) != Failed
      ensures freed <==> Processed(old(Now()), input, broken, flushed) == Freed
      ensures if freed then Finished() else Valid()
      ensures ok && !freed ==> Processed(old(Now()), input, broken, flushed) == Live(Now())
      ensures n == Taken(old(Now()), input) && Got(old(received), received, input, n)
      ensures old(done) <= done && old(accepted) <= accepted
    {
      assert input[0..] == input && !freed && Got(received, received, input, 0);
      hide *;
      n, ok := 0, true;
      while n < |input|
        invariant n <= |input| && Valid() && ok && !freed && Got(old(received), received, input, n)
        invariant old(done) <= done && old(accepted) <= accepted
        invariant Processed(old(Now()), input, broken, flushed) == Processed(Now(), input[n..], broken, flushed)
        invariant Taken(old(Now()), input) == n + Taken(Now(), input[n..])
      {
        Unfolded(Now(), input, n, broken, flushed);
        GotNext(old(received), received, input, n);
        var took, more;
        ok, took, more := Dispatch(input[n]);
        if took { n := n + 1; }
        if !more { return; }
      }
      assert input[n..] == [];
      NoMore(broken, flushed);
    }

    /** `redisAsyncRead` (async.c 523-533) with what is then read: after an error nothing is read any more
        (hiredis.c 864-866). */
    method HandleRead(input: seq<Reply>, broken: bool, flushed: bool) returns (ok: bool)
      requires Valid()
      modifies this
      ensures ok <==> After(old(Now()), Read(input, broken, flushed)) != Failed
      ensures freed <==> After(old(Now()), Read(input, broken, flushed)) == Freed
      ensures if freed then Finished() else Valid()
      ensures ok && !freed ==> After(old(Now()), Read(input, broken, flushed)) == Live(Now())
      ensures received == old(received) + TakenIn(old(Now()), Read(input, broken, flushed))
      ensures old(done) <= done && old(accepted) <= accepted
    {
      hide Settled, Processed, Taken;
      if err {
        DoDisconnect();
        return true;
      }
      var n;
      ok, n := ProcessCallbacks(input, broken, flushed);
    }

    /** One reply: whether the assertion holds, a callback took it, and the loop goes on. */
    method Dispatch(reply: Reply) returns (ok: bool, took: bool, more: bool)
      requires Valid()
      modifies this
      ensures took == (old(Now()).fns != [])
      ensures more == (took && !(old(Now()).fns[0] && Called(old(Now())).freeing))
      ensures ok == (took || reply.error)
      ensures if freed then Finished() else Valid()
      ensures freed <==> !more && (took || (ok && !old(flags).noAutoFree))
      ensures !freed && ok ==>
                if more then Now() == Called(old(Now())) else Live(Now()) == Ended(old(Now()).(err := true))
      ensures received == old(received) + if took then [reply] else []
      ensures old(done) <= done && old(accepted) <= accepted
    {
      hide Numbered, Runs, ActedAll, Called, Callbacks;
      took, more, ok := false, false, true;
      if replies == [] {
        ok := NobodyWaits(reply);
      } else {
        var cb := Pass(Some(reply));
        took := true;
        more := !(cb.fn && flags.freeing);
        if !more { FreeNow(); }
      }
    }

    /** A reply that nobody waits for. */
    method NobodyWaits(reply: Reply) returns (ok: bool)
      requires Valid() && replies == []
      modifies this
      ensures ok == reply.error
      ensures if ok then freed == !old(flags).noAutoFree && (!freed ==> Live(Now()) == Ended(old(Now()).(err := true)))
              else !freed
      ensures if freed then Finished() else Valid()
      ensures accepted == old(accepted) && received == old(received) && old(done) <= done
    {
      hide Numbered, InOrder, Runs, Callbacks, Fns;
      ok := reply.error;
      if ok {
        err := true;
        DoDisconnect();
      }
    }

    /** The reader has no further reply. */
    method NoMore(broken: bool, flushed: bool)
      requires Valid()
      modifies this
      ensures freed <==> Processed(old(Now()), [], broken, flushed) == Freed
      ensures !freed ==> Processed(old(Now()), [], broken, flushed) == Live(Now())
      ensures if freed then Finished() else Valid()
      ensures received == old(received) && old(done) <= done && old(accepted) <= accepted
    {
      hide Numbered, InOrder, Runs, Callbacks;
      if broken {
        err := true;
        DoDisconnect();
      } else if flags.disconnecting && flushed && replies == [] {
        DoDisconnect();
      }
    }

    /** `redisAsyncHandleTimeout` (async.c 588-614): all pending callbacks run without a reply, also those of commands
        that they issue meanwhile. Whether the context is then freed can be told beforehand. */
    method HandleTimeout(connected: bool)
      requires Valid()
      modifies this
      ensures connected && old(replies) == [] ==> Valid() && Now() == old(Now()) && done == old(done) && ran == old(ran)
      ensures !(connected && old(replies) == []) ==>
                && freed == !Drained(old(Now()).(err := true)).keep
                && if freed then Finished() else Valid() && replies == [] && Callbacks(done) == accepted
      ensures !freed ==> Live(Now()) == After(old(Now()), Timeout(connected))
      ensures received == old(received) && old(done) <= done && old(accepted) <= accepted
      ensures forall i :: |old(done)| <= i < |done| ==> done[i].reply == None
    {
      hide Numbered, InOrder, Runs, ActedAll, Called;
      if connected && replies == [] { return; }
      err := true;
      while replies != []
        invariant Settled() && !freed && !flags.inCallback && err
        invariant Drained(old(Now()).(err := true)) == Drained(Now())
        invariant received == old(received) && old(done) <= done && old(accepted) <= accepted
        invariant forall i :: |old(done)| <= i < |done| ==> done[i].reply == None
        decreases |acts|, |replies|
      {
        var _ := Pass(None);
      }
      DoDisconnect();
      assert Callbacks(done) + [] == Callbacks(done);
    }
  }

  lemma {:induction false} RunsSplit(a: seq<Outcome>, b: seq<Outcome>)
    ensures Runs(a + b) == Runs(a) + Runs(b)
    decreases |b|
  {
    if b == [] {
      assert a + b == a;
    } else {
      var front := b[..|b| - 1];
      assert (a + b)[..|a + b| - 1] == a + front;
      RunsSplit(a, front);
    }
  }

  /** Any run, whatever callbacks do and whenever replies, timeouts and disconnects come. It ends as told beforehand:
      with the failed assertion exactly if a reply comes that nobody waits for and that is no error. The replies
      received are those of all the reads that went to callbacks; every callback that left the queue and has a function
      has run once, in order, the k-th with the k-th reply; and a freed context has run all it accepted. */
  method Serve(ac: AsyncContext, events: seq<Event>) returns (ok: bool)
    requires ac.Valid()
    modifies ac
    ensures ok <==> Served(old(ac.Now()), events) != Failed
    ensures ac.freed <==> Served(old(ac.Now()), events) == Freed
    ensures ok && !ac.freed ==> Served(old(ac.Now()), events) == Live(ac.Now())
    ensures if ac.freed then ac.Finished() else ac.Valid()
    ensures ac.received == old(ac.received) + TakenAll(old(ac.Now()), events)
    ensures OnceEach(ac.accepted, |ac.accepted| - |ac.replies|, ac.ran, ac.received)
    ensures old(ac.accepted) <= ac.accepted
  {
    hide Numbered, InOrder, Runs, Called, Callbacks, Fns, After, TakenIn, OnceEach;
    ok := true;
    var i := 0;
    while i < |events| && ok && !ac.freed
      invariant i <= |events| && if ac.freed then ac.Finished() else ac.Valid()
      invariant old(ac.accepted) <= ac.accepted
      invariant ok && !ac.freed ==>
                  && Served(old(ac.Now()), events) == Served(ac.Now(), events[i..])
                  && old(ac.received) + TakenAll(old(ac.Now()), events) == ac.received + TakenAll(ac.Now(), events[i..])
      invariant !ok || ac.freed ==>
                  && Served(old(ac.Now()), events) == (if ok then Freed else Failed)
                  && (ac.freed ==> ok)
                  && ac.received == old(ac.received) + TakenAll(old(ac.Now()), events)
      decreases |events| - i
    {
      ok := Serve1(ac, events[i]);
      assert events[i..][1..] == events[i + 1..];
      i := i + 1;
    }
    ac.Once();
  }

  /** One event. */
  method Serve1(ac: AsyncContext, event: Event) returns (ok: bool)
    requires ac.Valid()
    modifies ac
    ensures ok <==> After(old(ac.Now()), event) != Failed
    ensures ac.freed <==> After(old(ac.Now()), event) == Freed
    ensures ok && !ac.freed ==> After(old(ac.Now()), event) == Live(ac.Now())
    ensures if ac.freed then ac.Finished() else ac.Valid()
    ensures ac.received == old(ac.received) + TakenIn(old(ac.Now()), event)
    ensures old(ac.accepted) <= ac.accepted
  {
    ok := true;
    match event {
      case Issue(fn) => var _ := ac.AsyncCommand(fn);
      case Quit => ac.AsyncDisconnect();
      case Release => ac.AsyncFree();
      case Read(input, broken, flushed) =>
        ok := ac.HandleRead(input, broken, flushed);
      case Timeout(connected) => ac.HandleTimeout(connected);
    }
  }

  /** A first reply that nobody asked for and that is no error fails the assertion. */
  method UnaskedFails(data: nat, script: seq<seq<Act>>, keep: bool) returns (ok: bool)
    ensures !ok
  {
    var ac := new AsyncContext(script, keep);
    ok := Serve(ac, [Read([Reply(data, false)], false, false)]);
  }

  /** A program that asks to disconnect is heard: when the reads that follow have brought the replies still pending, and
      the last finds the output flushed, the context is freed, and every callback has run. */
  method Closes(ac: AsyncContext, rs: seq<Event>)
    requires ac.Valid() && !ac.err && Arriving(rs) == |ac.replies|
    requires ac.replies != [] ==> rs != [] && rs[|rs| - 1].Read? && rs[|rs| - 1].flushed
    requires forall e :: e in rs ==> e.Read? && !e.broken
    modifies ac
    ensures ac.freed && ac.Finished()
  {
    ghost var l := ac.Now();
    ghost var quit := l.(disconnecting := true, keep := false);
    if ac.replies != [] { CleanEnd(quit, rs); }
    assert ([Quit] + rs)[1..] == rs && ([Quit] + rs)[0] == Quit;
    assert Served(l, [Quit] + rs) == Freed;
    var ok := Serve(ac, [Quit] + rs);
  }

  /** The plainest case: one command, a disconnect, its reply. */
  method ClosedAfterOne(data: nat) returns (ac: AsyncContext)
    ensures ac.freed
  {
    ac := new AsyncContext([], false);
    var _ := ac.AsyncCommand(true);
    Closes(ac, [Read([Reply(data, false)], false, true)]);
  }

  /** With automatic freeing off, a callback that frees the context while a timeout is handled is not heard: the free
      was put off until the callback returns, and nothing makes up for it. */
  method FreeForgotten() returns (ac: AsyncContext)
    ensures ac.Valid() && ac.flags.freeing && !ac.freed && ac.replies == []
  {
    ac := new AsyncContext([[Free]], true);
    var _ := ac.AsyncCommand(true);
    ghost var line := Line([true], [[Free]], false, false, true, true);
    assert Fns(ac.replies) == [true];
    assert line.fns[1..] == [] && line.acts[1..] == [] && [Free][..0] == [];
    assert Called(line) == Acted(Line([], [], false, false, true, true), Free);
    ac.HandleTimeout(true);
  }
}
