/** Taking elements out of an explicit producer: the four counters, each read and bumped in a separate step, under
    every interleaving of one producer with any number of consumers. */
module Dequeue {

  /** `dequeue` asks for one element, `dequeue_bulk` for up to `max`. */
  datatype Kind = Single | Bulk(max: nat)

  /** Where a consumer is: what it has read and the atomic access it makes next. */
  datatype Pc =
    | Idle
    | HasTail(kind: Kind, tail: nat)                      // load dequeueOvercommit
    | HasOver(kind: Kind, tail: nat, oc: nat)             // load dequeueOptimisticCount
    | Wants(kind: Kind, oc: nat, want: nat)               // fetch_add on dequeueOptimisticCount
    | Claimed(i: nat, kind: Kind, mine: nat, oc: nat, want: nat)  // load tailIndex again
    | Refund(i: nat, want: nat, got: nat)                 // fetch_add on dequeueOvercommit
    | Take(i: nat, got: nat)                              // fetch_add on headIndex

  /** History of one claim on the optimistic counter, in the order the claims were made: how much it asked for, how
      much it can still get, and how much of it has been given back and taken so far. */
  datatype Claim = Claim(owner: nat, open: bool, want: nat, most: nat, back: nat, took: nat)

  /** Indices handed out to a consumer. */
  datatype Grant = Grant(t: nat, first: nat, count: nat)

  datatype State = State(tail: nat, optimistic: nat, over: nat, head: nat, threads: seq<Pc>, log: seq<Claim>,
          grants: seq<Grant>)

  datatype Action = Enqueue(n: nat) | Start(t: nat, kind: Kind) | Go(t: nat)

  function Min(a: nat, b: nat): nat { if a < b then a else b }

  /** How many elements to go for, from `left`, the elements that seem to be there. */
  function Asked(kind: Kind, left: int): nat {
    match kind
    case Single => if 0 < left then 1 else 0
    case Bulk(max) => if 0 < left then Min(left, max) else 0
  }

  function At(s: State, t: nat, pc: Pc): State
    requires t < |s.threads|
  {
    s.(threads := s.threads[t := pc])
  }

  /** One atomic access (concurrentqueue.h 1940-2037 and 2233-2323). */
  function Step(s: State, x: Action): (r: State)
    ensures |r.threads| == |s.threads|
  {
    match x
    case Enqueue(n) => s.(tail := s.tail + n)
    case Start(t, kind) => if t < |s.threads| && s.threads[t].Idle? then At(s, t, HasTail(kind, s.tail)) else s
    case Go(t) => if t < |s.threads| then Access(s, t) else s
  }

  function Access(s: State, t: nat): (r: State)
    requires t < |s.threads|
    ensures |r.threads| == |s.threads|
  {
    match s.threads[t]
    case Idle => s
    case HasTail(kind, tail) => At(s, t, HasOver(kind, tail, s.over))
    case HasOver(kind, tail, oc) =>
      var left := tail - (s.optimistic - oc);
      At(s, t, if 0 < left then Wants(kind, oc, Asked(kind, left)) else Idle)
    case Wants(kind, oc, want) =>
      At(s.(optimistic := s.optimistic + want, log := s.log + [Claim(t, true, want, want, 0, 0)]), t,
         Claimed(|s.log|, kind, s.optimistic, oc, want))
    case Claimed(i, kind, mine, oc, want) =>
      var left := s.tail - (mine - oc);
      var got := if 0 < left then Min(want, left) else 0;
      var s1 := if i < |s.log| then s.(log := s.log[i := s.log[i].(open := false, most := got)]) else s;
      At(s1, t, if 0 < left && got == want then Take(i, got) else Refund(i, want, got))
    case Refund(i, want, got) =>
      var given := if got < want then want - got else 0;
      var s1 := if i < |s.log| then s.(log := s.log[i := s.log[i].(back := given)]) else s;
      At(s1.(over := s.over + given), t, if 0 < got then Take(i, got) else Idle)
    case Take(i, got) =>
      var s1 := if i < |s.log| then s.(log := s.log[i := s.log[i].(took := got)]) else s;
      At(s1.(head := s.head + got, grants := s.grants + [Grant(t, s.head, got)]), t, Idle)
  }

  function Run(s: State, xs: seq<Action>): State {
    if xs == [] then s else Step(Run(s, xs[..|xs| - 1]), xs[|xs| - 1])
  }

  predicate Initial(s: State) {
    && s.tail == s.optimistic == s.over == s.head == 0 && s.log == [] && s.grants == []
    && forall t :: 0 <= t < |s.threads| ==> s.threads[t].Idle?
  }

  // ---------------------------------------------------------------- sums over the claims

  datatype Total = Total(want: nat, most: nat, back: nat, took: nat)

  function Sum(log: seq<Claim>): Total {
    if log == [] then Total(0, 0, 0, 0) else
    var r, c := Sum(log[..|log| - 1]), log[|log| - 1];
    Total(r.want + c.want, r.most + c.most, r.back + c.back, r.took + c.took)
  }

  lemma SumPush(log: seq<Claim>, c: Claim)
    ensures Sum(log + [c]) == Total(Sum(log).want + c.want, Sum(log).most + c.most, Sum(log).back + c.back,
                                    Sum(log).took + c.took)
  {
    assert (log + [c])[..|log|] == log;
  }

  /** Replacing claim `i` changes the sum of every longer prefix by the difference, and no shorter one. */
  lemma {:induction false} SumSet(log: seq<Claim>, i: nat, c: Claim)
    requires i < |log|
    ensures var a, b := Sum(log), Sum(log[i := c]);
            && b.want + log[i].want == a.want + c.want && b.most + log[i].most == a.most + c.most
            && b.back + log[i].back == a.back + c.back && b.took + log[i].took == a.took + c.took
  {
    var m := |log| - 1;
    if i == m {
      assert log[i := c][..m] == log[..m];
    } else {
      assert log[i := c][..m] == log[..m][i := c];
      SumSet(log[..m], i, c);
    }
  }

  lemma PrefixSet(log: seq<Claim>, i: nat, c: Claim, k: nat)
    requires i < |log| && k <= |log|
    requires c.want == log[i].want && c.most <= log[i].most && log[i].back <= c.back
    ensures var a, b := Sum(log[..k]), Sum(log[i := c][..k]);
            b.want == a.want && b.most <= a.most && a.back <= b.back
  {
    if i < k {
      assert log[i := c][..k] == log[..k][i := c];
      SumSet(log[..k], i, c);
    } else {
      assert log[i := c][..k] == log[..k];
    }
  }

  // ---------------------------------------------------------------- invariant

  ghost predicate ClaimFits(c: Claim) {
    && c.most <= c.want && c.back + c.most <= c.want && c.took <= c.most
    && (c.open ==> c.most == c.want && c.back == 0 && c.took == 0)
  }

  predicate Done(c: Claim) {
    !c.open && c.back + c.most == c.want && c.took == c.most
  }

  /** The claim a thread is working on, if any. */
  predicate Holding(pc: Pc, i: nat) {
    match pc
    case Claimed(j, _, _, _, _) => j == i
    case Refund(j, _, _) => j == i
    case Take(j, _) => j == i
    case _ => false
  }

  /** A settled claim that gets something lies, together with all that earlier claims can still get, below the tail. */
  ghost predicate ClaimOk(s: State, i: nat)
    requires i < |s.log|
  {
    && ClaimFits(s.log[i])
    && (!s.log[i].open && 0 < s.log[i].most ==> Sum(s.log[..i]).most + s.log[i].most <= s.tail)
    && (!Done(s.log[i]) ==> s.log[i].owner < |s.threads| && Holding(s.threads[s.log[i].owner], i))
  }

  ghost predicate PcOk(s: State, t: nat)
    requires t < |s.threads|
  {
    match s.threads[t]
    case Idle => true
    case HasTail(_, _) => true
    case HasOver(_, _, oc) => oc <= s.over
    case Wants(_, oc, _) => oc <= s.over
    case Claimed(i, _, mine, oc, want) =>
      && i < |s.log| && s.log[i].owner == t && s.log[i].open && s.log[i].want == want
      && mine == Sum(s.log[..i]).want && oc <= Sum(s.log[..i]).back
    case Refund(i, want, got) => i < |s.log| && s.log[i] == Claim(t, false, want, got, 0, 0)
    case Take(i, got) => i < |s.log| && got <= s.log[i].want
                                     && s.log[i] == Claim(t, false, s.log[i].want, got, s.log[i].want - got, 0)
  }

  ghost predicate Grants(s: State) {
    && (forall i :: 0 <= i < |s.grants| ==>
        GrantEnd(s.grants, i) == (if i + 1 < |s.grants| then s.grants[i + 1].first else s.head))
    && (if s.grants == [] then s.head == 0 else s.grants[0].first == 0)
  }

  function GrantEnd(grants: seq<Grant>, i: nat): nat
    requires i < |grants|
  {
    grants[i].first + grants[i].count
  }

  ghost predicate Sums(s: State) {
    Sum(s.log).want == s.optimistic && Sum(s.log).back == s.over && Sum(s.log).took == s.head
  }

  ghost predicate Claims(s: State) {
    forall i :: 0 <= i < |s.log| ==> ClaimOk(s, i)
  }

  ghost predicate Pcs(s: State) {
    forall t :: 0 <= t < |s.threads| ==> PcOk(s, t)
  }

  ghost predicate Inv(s: State) {
    Sums(s) && Claims(s) && Pcs(s) && Grants(s)
  }

  lemma {:induction false} PrefixFits(s: State, k: nat)
    requires Claims(s) && k <= |s.log|
    ensures Sum(s.log[..k]).back + Sum(s.log[..k]).most <= Sum(s.log[..k]).want
  {
    hide Holding;
    if k > 0 {
      PrefixFits(s, k - 1);
      assert s.log[..k][..k - 1] == s.log[..k - 1];
      assert ClaimOk(s, k - 1);
    }
  }

  /** What has been taken lies below the tail. */
  lemma {:induction false} TookBelow(s: State, k: nat)
    requires Claims(s) && k <= |s.log|
    ensures Sum(s.log[..k]).took <= Sum(s.log[..k]).most && Sum(s.log[..k]).took <= s.tail
  {
    hide Holding;
    if k > 0 {
      TookBelow(s, k - 1);
      assert s.log[..k][..k - 1] == s.log[..k - 1];
      assert ClaimOk(s, k - 1);
    }
  }

  /** Thread `t` rewrites its claim `i` and moves on. */
  lemma ClaimMoved(s: State, s1: State, t: nat, i: nat, c: Claim, pc: Pc)
    requires Claims(s) && Pcs(s) && t < |s.threads| && i < |s.log| && Holding(s.threads[t], i)
    requires s1.log == s.log[i := c] && s1.threads == s.threads[t := pc] && s1.tail == s.tail && s.over <= s1.over
    requires c.owner == t && c.want == s.log[i].want && c.most <= s.log[i].most && s.log[i].back <= c.back
          && ClaimFits(c)
    requires Done(c) || Holding(pc, i)
    requires !c.open && 0 < c.most ==> Sum(s.log[..i]).most + c.most <= s.tail
    requires PcOk(s1, t)
    ensures Claims(s1) && Pcs(s1)
  {
    assert PcOk(s, t);
    assert s.log[i].owner == t;
    assert Claims(s1) by {
      forall k | 0 <= k < |s1.log| ensures ClaimOk(s1, k) {
        assert ClaimOk(s, k);
        PrefixSet(s.log, i, c, k);
        if k != i && !Done(s.log[k]) {
          assert s.log[k].owner != t;
        }
      }
    }
    forall u | 0 <= u < |s1.threads| ensures PcOk(s1, u) {
      if u != t {
        assert PcOk(s, u);
        if s.threads[u].Claimed? {
          PrefixSet(s.log, i, c, s.threads[u].i);
        }
      }
    }
  }

  lemma StepClaimed(s: State, t: nat)
    requires Inv(s) && t < |s.threads| && s.threads[t].Claimed?
    ensures Inv(Access(s, t))
  {
    var pc := s.threads[t];
    var s1 := Access(s, t);
    assert PcOk(s, t) && ClaimOk(s, pc.i);
    var left := s.tail - (pc.mine - pc.oc);
    var got := if 0 < left then Min(pc.want, left) else 0;
    var c := s.log[pc.i].(open := false, most := got);
    PrefixFits(s, pc.i);
    SumSet(s.log, pc.i, c);
    assert s1.log == s.log[pc.i := c];
    ClaimMoved(s, s1, t, pc.i, c, s1.threads[t]);
  }

  lemma StepRefund(s: State, t: nat)
    requires Inv(s) && t < |s.threads| && s.threads[t].Refund?
    ensures Inv(Access(s, t))
  {
    var pc := s.threads[t];
    var s1 := Access(s, t);
    assert PcOk(s, t) && ClaimOk(s, pc.i);
    var c := s.log[pc.i].(back := pc.want - pc.got);
    SumSet(s.log, pc.i, c);
    assert s1.log == s.log[pc.i := c];
    ClaimMoved(s, s1, t, pc.i, c, s1.threads[t]);
  }

  lemma StepTake(s: State, t: nat)
    requires Inv(s) && t < |s.threads| && s.threads[t].Take?
    ensures Inv(Access(s, t))
  {
    var pc := s.threads[t];
    var s1 := Access(s, t);
    assert PcOk(s, t) && ClaimOk(s, pc.i);
    var c := s.log[pc.i].(took := pc.got);
    SumSet(s.log, pc.i, c);
    assert s1.log == s.log[pc.i := c];
    ClaimMoved(s, s1, t, pc.i, c, s1.threads[t]);
    forall i | 0 <= i < |s1.grants|
      ensures GrantEnd(s1.grants, i) == (if i + 1 < |s1.grants| then s1.grants[i + 1].first else s1.head)
    {
      if i < |s.grants| {
        assert GrantEnd(s1.grants, i) == GrantEnd(s.grants, i);
      }
    }
  }

  lemma StepWants(s: State, t: nat)
    requires Inv(s) && t < |s.threads| && s.threads[t].Wants?
    ensures Inv(Access(s, t))
  {
    var pc := s.threads[t];
    var s1 := Access(s, t);
    assert PcOk(s, t);
    var c := Claim(t, true, pc.want, pc.want, 0, 0);
    SumPush(s.log, c);
    assert s1.log[..|s.log|] == s.log;
    forall k | 0 <= k < |s1.log| ensures ClaimOk(s1, k) {
      if k < |s.log| {
        assert ClaimOk(s, k);
        assert s1.log[..k] == s.log[..k];
      }
    }
    forall u | 0 <= u < |s1.threads| ensures PcOk(s1, u) {
      assert PcOk(s, u);
      if u != t && s.threads[u].Claimed? {
        assert s1.log[..s.threads[u].i] == s.log[..s.threads[u].i];
      }
    }
  }

  /** A consumer that only reads. */
  lemma StepRead(s: State, t: nat, pc: Pc)
    requires Inv(s) && t < |s.threads|
    requires s.threads[t].Idle? || s.threads[t].HasTail? || s.threads[t].HasOver?
    requires PcOk(At(s, t, pc), t)
    requires pc.Idle? || pc.HasTail? || pc.HasOver? || pc.Wants?
    ensures Inv(At(s, t, pc))
  {
    var s1 := At(s, t, pc);
    forall k | 0 <= k < |s1.log| ensures ClaimOk(s1, k) {
      assert ClaimOk(s, k);
    }
    forall u | 0 <= u < |s1.threads| ensures PcOk(s1, u) {
      assert PcOk(s, u);
    }
  }

  lemma StepEnqueue(s: State, n: nat)
    requires Inv(s)
    ensures Inv(s.(tail := s.tail + n))
  {
    var s1 := s.(tail := s.tail + n);
    forall k | 0 <= k < |s1.log| ensures ClaimOk(s1, k) {
      assert ClaimOk(s, k);
    }
    forall u | 0 <= u < |s1.threads| ensures PcOk(s1, u) {
      assert PcOk(s, u);
    }
  }

  /** Every atomic access of every consumer, and every enqueue, keeps the invariant. */
  lemma StepInv(s: State, x: Action)
    requires Inv(s)
    ensures Inv(Step(s, x))
  {
    hide Inv, PcOk, Access;
    if x.Enqueue? {
      StepEnqueue(s, x.n);
    } else if x.t < |s.threads| {
      var pc := s.threads[x.t];
      if x.Start? {
        if pc.Idle? { ReadOk(s, x.t, HasTail(x.kind, s.tail)); StepRead(s, x.t, HasTail(x.kind, s.tail)); }
      } else {
        StepGo(s, x.t);
      }
    }
  }

  lemma ReadOk(s: State, t: nat, pc: Pc)
    requires t < |s.threads|
    requires pc.Idle? || pc.HasTail? || (pc.HasOver? && pc.oc <= s.over)
    ensures PcOk(At(s, t, pc), t)
  {
  }

  lemma StepGo(s: State, t: nat)
    requires Inv(s) && t < |s.threads|
    ensures Inv(Access(s, t))
  {
    hide Claims, Grants, Sums;
    var pc := s.threads[t];
    assert PcOk(s, t);
    if pc.Claimed? { StepClaimed(s, t); }
    else if pc.Refund? { StepRefund(s, t); }
    else if pc.Take? { StepTake(s, t); }
    else if pc.Wants? { StepWants(s, t); }
    else if !pc.Idle? { StepRead(s, t, Access(s, t).threads[t]); }
  }

  lemma {:induction false} RunInv(s: State, xs: seq<Action>)
    requires Inv(s)
    ensures Inv(Run(s, xs))
  {
    hide Inv, Step;
    if xs != [] {
      RunInv(s, xs[..|xs| - 1]);
      StepInv(Run(s, xs[..|xs| - 1]), xs[|xs| - 1]);
    }
  }

  // ---------------------------------------------------------------- what it gives

  /** In every run the head never passes the tail, the overcommit never passes the optimistic count, and the indices
      handed out are exactly those below the head, cut into consecutive pieces: none twice, none skipped. */
  lemma DequeueSafe(s: State, xs: seq<Action>, i: nat)
    requires Initial(s)
    ensures var s1 := Run(s, xs);
            && s1.head <= s1.tail && s1.over <= s1.optimistic
            && (i < |s1.grants| ==> GrantEnd(s1.grants, i) == (if i + 1 < |s1.grants| then s1.grants[i + 1].first
               else s1.head))
            && (if s1.grants == [] then s1.head == 0 else s1.grants[0].first == 0)
  {
    hide Run;
    RunInv(s, xs);
    var s1 := Run(s, xs);
    assert s1.log[..|s1.log|] == s1.log;
    TookBelow(s1, |s1.log|);
    PrefixFits(s1, |s1.log|);
  }

  /** Hence no index is handed out twice, and none at or above the tail. */
  lemma {:induction false} GrantsApart(s: State, i: nat, j: nat)
    requires Grants(s) && i < j < |s.grants|
    ensures GrantEnd(s.grants, i) <= s.grants[j].first && GrantEnd(s.grants, j) <= s.head
    decreases |s.grants| - i
  {
    if i + 1 < j {
      GrantsApart(s, i + 1, j);
    } else {
      EndBelow(s, j);
    }
  }

  lemma {:induction false} EndBelow(s: State, i: nat)
    requires Grants(s) && i < |s.grants|
    ensures GrantEnd(s.grants, i) <= s.head
    decreases |s.grants| - i
  {
    if i + 1 < |s.grants| { EndBelow(s, i + 1); }
  }

  lemma NeverTwice(s: State, xs: seq<Action>, i: nat, j: nat, k: nat)
    requires Initial(s)
    requires var g := Run(s, xs).grants; i < j < |g| && g[i].first <= k < GrantEnd(g, i)
    ensures var g := Run(s, xs).grants; !(g[j].first <= k < GrantEnd(g, j))
    ensures k < Run(s, xs).tail
  {
    RunInv(s, xs);
    DequeueSafe(s, xs, 0);
    GrantsApart(Run(s, xs), i, j);
  }

  ghost predicate Quiet(s: State) {
    forall t :: 0 <= t < |s.threads| ==> s.threads[t].Idle?
  }

  lemma {:induction false} AllDone(s: State, k: nat)
    requires Inv(s) && Quiet(s) && k <= |s.log|
    ensures Sum(s.log[..k]).want == Sum(s.log[..k]).back + Sum(s.log[..k]).took
  {
    if k > 0 {
      AllDone(s, k - 1);
      assert s.log[..k][..k - 1] == s.log[..k - 1];
      assert ClaimOk(s, k - 1);
    }
  }

  /** The counters agree again once no consumer is at work: whatever interleaving came before, nothing claimed is
      left neither taken nor given back. */
  lemma QuietCounts(s: State, xs: seq<Action>)
    requires Initial(s) && Quiet(Run(s, xs))
    ensures Run(s, xs).optimistic - Run(s, xs).over == Run(s, xs).head
  {
    RunInv(s, xs);
    var s1 := Run(s, xs);
    assert s1.log[..|s1.log|] == s1.log;
    AllDone(s1, |s1.log|);
  }

  /** A consumer running alone gets the next elements, as many as it asked for or as there are: the four counters
      then behave like one index into a queue. */
  lemma Alone(s: State, t: nat, kind: Kind)
    requires Inv(s) && Quiet(s) && t < |s.threads|
    ensures var s1 := Run(s, [Start(t, kind), Go(t), Go(t), Go(t), Go(t), Go(t)]);
            var n := Asked(kind, s.tail - s.head);
            && s1.head == s.head + n && s1.tail == s.tail && s1.threads == s.threads
            && (if s.head < s.tail then s1.grants == s.grants + [Grant(t, s.head, n)] else s1.grants == s.grants)
  {
    hide Run;
    assert s.log[..|s.log|] == s.log;
    AllDone(s, |s.log|);
    TookBelow(s, |s.log|);
    hide Step, Access, Inv;
    var x := Start(t, kind);
    var p1, p2, p3, p4, p5 := [x], [x, Go(t)], [x, Go(t), Go(t)], [x, Go(t), Go(t), Go(t)],
      [x, Go(t), Go(t), Go(t), Go(t)];
    assert [] + [x] == p1 && p1 + [Go(t)] == p2 && p2 + [Go(t)] == p3 && p3 + [Go(t)] == p4 && p4 + [Go(t)] == p5;
    RunPush(s, [], x);
    RunPush(s, p1, Go(t));
    RunPush(s, p2, Go(t));
    RunPush(s, p3, Go(t));
    RunPush(s, p4, Go(t));
    RunPush(s, p5, Go(t));
    assert p5 + [Go(t)] == [x, Go(t), Go(t), Go(t), Go(t), Go(t)];
    var s1 := Step(s, x);
    GoAccess(s1, t);
    var s2 := Access(s1, t);
    GoAccess(s2, t);
    var s3 := Access(s2, t);
    GoAccess(s3, t);
    var s4 := Access(s3, t);
    GoAccess(s4, t);
    GoAccess(Access(s4, t), t);
    Steps(s, t, kind);
  }

  lemma GoAccess(s: State, t: nat)
    requires t < |s.threads|
    ensures Step(s, Go(t)) == Access(s, t)
  {
  }

  lemma RunPush(s: State, xs: seq<Action>, x: Action)
    ensures Run(s, xs + [x]) == Step(Run(s, xs), x) && Run(s, []) == s
  {
    assert (xs + [x])[..|xs|] == xs;
  }

  lemma Steps(s: State, t: nat, kind: Kind)
    requires t < |s.threads| && s.threads[t].Idle? && s.optimistic - s.over == s.head <= s.tail
    ensures var s1 := Access(Access(Access(Access(Access(Step(s, Start(t, kind)), t), t), t), t), t);
            var n := Asked(kind, s.tail - s.head);
            && s1.head == s.head + n && s1.tail == s.tail && s1.threads == s.threads
            && (if s.head < s.tail then s1.grants == s.grants + [Grant(t, s.head, n)] else s1.grants == s.grants)
  {
    var s2 := At(s, t, HasOver(kind, s.tail, s.over));
    assert Access(Step(s, Start(t, kind)), t) == s2;
    if s.head < s.tail {
      var n := Asked(kind, s.tail - s.head);
      var s3 := At(s, t, Wants(kind, s.over, n));
      assert Access(s2, t) == s3;
      Claimant(s, t, kind, n);
    } else {
      assert Access(s2, t) == At(s, t, Idle);
      assert At(s, t, Idle).threads == s.threads;
    }
  }

  lemma Claimant(s: State, t: nat, kind: Kind, n: nat)
    requires t < |s.threads| && s.threads[t].Idle? && s.optimistic - s.over == s.head < s.tail && n <= s.tail - s.head
    ensures var s1 := Access(Access(Access(At(s, t, Wants(kind, s.over, n)), t), t), t);
            s1.head == s.head + n && s1.tail == s.tail && s1.threads == s.threads
              && s1.grants == s.grants + [Grant(t, s.head, n)]
  {
    var s4 := Access(At(s, t, Wants(kind, s.over, n)), t);
    assert s4.threads[t] == Claimed(|s.log|, kind, s.optimistic, s.over, n);
    var s5 := Access(s4, t);
    assert s5.threads[t] == Take(|s.log|, n);
    assert Access(s5, t).threads == s.threads;
  }

  // ---------------------------------------------------------------- wrap-around

  const HALF: int := 0x8000_0000_0000_0000
  const RANGE: int := 2 * HALF

  /** `circular_less_than` on 64-bit unsigned integers (concurrentqueue.h 469-480). */
  predicate CircularLess(a: nat, b: nat)
    requires a < RANGE && b < RANGE
  {
    (a - b) % RANGE > HALF
  }

  /** It is `<` on the unbounded counters while they are less than half the range apart; one step further, at exactly
      half the range, it calls neither one less. */
  lemma CircularIsLess(x: int, y: int)
    requires -HALF <= x - y <= HALF
    ensures CircularLess(x % RANGE, y % RANGE) <==> x < y && y - x != HALF
  {
    var a, b := x % RANGE, y % RANGE;
    var q := x / RANGE - y / RANGE;
    assert a - b == (x - y) - q * RANGE;
    Shifted(x - y, q);
    if x - y >= 0 { Small(x - y); } else { Small(x - y + RANGE); Shifted(x - y, -1); }
  }

  lemma Small(d: int)
    requires 0 <= d < RANGE
    ensures d % RANGE == d
  {
  }

  lemma {:induction false} Shifted(d: int, q: int)
    ensures (d - q * RANGE) % RANGE == d % RANGE
  {
    var e := d - q * RANGE;
    var k := d / RANGE - q;
    assert e == k * RANGE + d % RANGE;
    Unique(e, k, d % RANGE);
  }

  lemma Unique(e: int, k: int, r: int)
    requires 0 <= r < RANGE && e == k * RANGE + r
    ensures e % RANGE == r
  {
  }

  /** The bulk request computed on wrapped 64-bit counters: a wrapped difference, compared with zero. */
  function AskedWrapped(max: nat, tail: nat, optimistic: nat, oc: nat): nat
    requires tail < RANGE && optimistic < RANGE && oc < RANGE
  {
    var desired := (tail - (optimistic - oc) % RANGE) % RANGE;
    if CircularLess(0, desired) then Min(desired, max) else 0
  }

  /** On wrapped counters the request is the one computed above on unbounded counters, as long as the elements that
      seem to be there, or the overrun, stay below half the range. */
  lemma AskedWraps(max: nat, tail: nat, optimistic: nat, oc: nat)
    requires -HALF < tail - (optimistic - oc) < HALF
    ensures AskedWrapped(max, tail % RANGE, optimistic % RANGE, oc % RANGE) == Asked(Bulk(max),
        tail - (optimistic - oc))
  {
    var left := tail - (optimistic - oc);
    var inner := (optimistic % RANGE - oc % RANGE) % RANGE;
    var desired := (tail % RANGE - inner) % RANGE;
    Shifted(optimistic - oc, optimistic / RANGE - oc / RANGE);
    assert inner == (optimistic - oc) % RANGE;
    Shifted(left, tail / RANGE - (optimistic - oc) / RANGE);
    assert desired == left % RANGE;
    CircularIsLess(0, left);
    if 0 < left { Small(left); }
  }
}
