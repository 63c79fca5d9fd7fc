/** The lightweight semaphore and the blocking queue built on it: every interleaving of signals, waits with and
    without a time limit, and the dequeues that follow, one atomic access at a time. */
module Semaphore {

  /** `tryWait`; a wait with no, zero or positive time limit. */
  datatype Patience = Try | Forever | Zero | Timed

  /** `Put(n)` enqueues n elements, then signals n. `Get` waits for at least one and takes up to `max` permits, then
      dequeues as many elements; the single versions are `max == 1`. */
  datatype Op = Put(n: nat) | Get(max: nat, p: Patience)

  /** What follows a `tryWaitMany`: the wait itself, or, after one permit is in hand, the return. */
  datatype Rest = First(p: Patience) | Extra(p: Patience)

  datatype Pc =
    | Idle
    | Signal(n: nat)                                     // fetch_add on the count
    | Post(n: nat)                                       // post the kernel semaphore n times
    | TryLoad(max: nat, rest: Rest)                      // tryWaitMany
    | TryCas(max: nat, rest: Rest, seen: int)
    | SpinLoad(max: nat, p: Patience, spin: nat)         // the partial spinning
    | SpinCas(max: nat, p: Patience, spin: nat, seen: int)
    | Sub(max: nat, p: Patience)                         // fetch_sub on the count
    | Sleep(max: nat, p: Patience)                       // in the kernel
    | Adjust(max: nat, p: Patience)                      // timed out: load the count
    | KernelTry(max: nat, p: Patience)
    | Cancel(max: nat, p: Patience, seen: int)            // compare-exchange that takes the decrement back
    | Drain(left: nat)                                   // permits in hand, elements still to dequeue

  /** The result of one wait, a history variable. */
  datatype Ret = Ret(max: nat, p: Patience, got: nat)

  datatype State = State(count: int, kernel: nat, size: nat, spins: nat, threads: seq<Pc>,
                         initial: nat, signalled: nat, granted: nat, rets: seq<Ret>)

  /** What the environment decides at a step: the call an idle thread makes; whether a weak exchange is let through or
      a sleeper is woken before its time limit; how many elements one inner dequeue finds. */
  datatype Choice = Choice(op: Op, ok: bool, found: nat)

  function Pos(x: int): nat { if x > 0 then x else 0 }

  function Least(a: int, b: int): int { if a < b then a else b }

  function At(s: State, t: nat, pc: Pc): State
    requires t < |s.threads|
  {
    s.(threads := s.threads[t := pc])
  }

  function Return(s: State, t: nat, r: Ret): State
    requires t < |s.threads|
  {
    At(s.(granted := s.granted + r.got, rets := s.rets + [r]), t, if r.got == 0 then Idle else Drain(r.got))
  }

  /** `tryWaitMany` is over with `r` permits. */
  function Tried(s: State, t: nat, max: nat, rest: Rest, r: nat): State
    requires t < |s.threads|
  {
    match rest
    case Extra(p) => Return(s, t, Ret(max + 1, p, 1 + r))
    case First(p) =>
      if 0 < r || p.Try? || max == 0 then Return(s, t, Ret(max, p, r))
      else At(s, t, if s.spins == 0 then Sub(max, p) else SpinLoad(max, p, s.spins))
  }

  /** A waiter has its one permit and asks for the others. */
  function Woken(s: State, t: nat, max: nat, p: Patience): State
    requires t < |s.threads|
  {
    if max > 1 then At(s, t, TryLoad(max - 1, Extra(p))) else Return(s, t, Ret(max, p, 1))
  }

  function Again(max: nat, p: Patience, spin: nat): Pc {
    if spin <= 1 then Sub(max, p) else SpinLoad(max, p, spin - 1)
  }

  /** One access of thread `t` (lightweightsemaphore.h 262-402; blockingconcurrentqueue.h 117-128, 326-335, 446-455). */
  function Step(s: State, t: nat, c: Choice): State
    requires t < |s.threads|
  {
    match s.threads[t]
    case Idle =>
      (match c.op
       case Put(n) => At(s.(size := s.size + n), t, Signal(n))
       case Get(max, p) => At(s, t, TryLoad(max, First(p))))
    case Signal(n) =>
      var release := Least(-s.count, n);
      At(s.(count := s.count + n, signalled := s.signalled + n), t, if release > 0 then Post(release) else Idle)
    case Post(n) => At(s.(kernel := s.kernel + if n > 0 then 1 else 0), t, if n > 1 then Post(n - 1) else Idle)
    case TryLoad(max, rest) => if s.count > 0 then At(s, t, TryCas(max, rest, s.count)) else Tried(s, t, max, rest, 0)
    case TryCas(max, rest, seen) =>
      if s.count == seen && c.ok then
        var now := if seen > max then seen - max else 0;
        Tried(s.(count := now), t, max, rest, Pos(seen - now))
      else if s.count > 0 then At(s, t, TryCas(max, rest, s.count)) else Tried(s, t, max, rest, 0)
    case SpinLoad(max, p, spin) => At(s, t, if s.count > 0 then SpinCas(max, p, spin, s.count) else Again(max, p, spin))
    case SpinCas(max, p, spin, seen) =>
      if s.count == seen then
        var now := if seen > max then seen - max else 0;
        Return(s.(count := now), t, Ret(max, p, Pos(seen - now)))
      else At(s, t, Again(max, p, spin))
    case Sub(max, p) =>
      var s1 := s.(count := s.count - 1);
      if s.count > 0 then Woken(s1, t, max, p) else At(s1, t, if p.Zero? then Adjust(max, p) else Sleep(max, p))
    case Sleep(max, p) =>
      if s.kernel > 0 && (c.ok || p.Forever?) then Woken(s.(kernel := s.kernel - 1), t, max, p)
      else if p.Timed? && !c.ok then At(s, t, Adjust(max, p)) else s
    case Adjust(max, p) => At(s, t, if s.count >= 0 then KernelTry(max, p) else Cancel(max, p, s.count))
    case KernelTry(max, p) => if s.kernel > 0 then Woken(s.(kernel := s.kernel - 1), t, max, p)
      else At(s, t, Adjust(max, p))
    case Cancel(max, p, seen) =>
      if s.count == seen then Return(s.(count := s.count + 1), t, Ret(max, p, 0)) else At(s, t, Adjust(max, p))
    case Drain(left) =>
      var n := Least(Least(c.found, left), s.size);
      At(s.(size := s.size - n), t, if n < left then Drain(left - n) else Idle)
  }

  function Run(s: State, xs: seq<(nat, Choice)>): (r: State)
    requires forall x :: x in xs ==> x.0 < |s.threads|
    ensures |r.threads| == |s.threads|
  {
    if xs == [] then s else
    var x := xs[|xs| - 1];
    Step(Run(s, xs[..|xs| - 1]), x.0, x.1)
  }

  predicate Initial(s: State) {
    && s.count == s.initial && s.kernel == 0 && s.size == 0 && s.signalled == 0 && s.granted == 0 && s.rets == []
    && forall t :: 0 <= t < |s.threads| ==> s.threads[t].Idle?
  }

  // ---------------------------------------------------------------- what the threads hold

  /** Waiters without a token; tokens about to be posted; permits in hand but not yet returned; permits whose element is
      still to be dequeued; elements enqueued but not yet signalled. */
  datatype Tally = Tally(waits: nat, posts: nat, holds: nat, owes: nat, puts: nat)

  function Weigh(pc: Pc): Tally {
    match pc
    case Idle => Tally(0, 0, 0, 0, 0)
    case Signal(n) => Tally(0, 0, 0, 0, n)
    case Post(n) => Tally(0, n, 0, 0, 0)
    case TryLoad(_, rest) => if rest.Extra? then Tally(0, 0, 1, 1, 0) else Tally(0, 0, 0, 0, 0)
    case TryCas(_, rest, _) => if rest.Extra? then Tally(0, 0, 1, 1, 0) else Tally(0, 0, 0, 0, 0)
    case SpinLoad(_, _, _) => Tally(0, 0, 0, 0, 0)
    case SpinCas(_, _, _, _) => Tally(0, 0, 0, 0, 0)
    case Sub(_, _) => Tally(0, 0, 0, 0, 0)
    case Sleep(_, _) => Tally(1, 0, 0, 0, 0)
    case Adjust(_, _) => Tally(1, 0, 0, 0, 0)
    case KernelTry(_, _) => Tally(1, 0, 0, 0, 0)
    case Cancel(_, _, _) => Tally(1, 0, 0, 0, 0)
    case Drain(left) => Tally(0, 0, 0, left, 0)
  }

  function Plus(a: Tally, b: Tally): Tally {
    Tally(a.waits + b.waits, a.posts + b.posts, a.holds + b.holds, a.owes + b.owes, a.puts + b.puts)
  }

  function All(threads: seq<Pc>): Tally {
    if threads == [] then Tally(0, 0, 0, 0, 0) else Plus(All(threads[..|threads| - 1]), Weigh(threads[|threads| - 1]))
  }

  lemma {:induction false} AllSet(threads: seq<Pc>, t: nat, pc: Pc)
    requires t < |threads|
    ensures Plus(All(threads[t := pc]), Weigh(threads[t])) == Plus(All(threads), Weigh(pc))
  {
    hide Weigh;
    var m := |threads| - 1;
    if t == m {
      assert threads[t := pc][..m] == threads[..m];
    } else {
      assert threads[t := pc][..m] == threads[..m][t := pc];
      AllSet(threads[..m], t, pc);
    }
  }

  lemma {:induction false} AllAt(threads: seq<Pc>, t: nat)
    requires t < |threads|
    ensures Weigh(threads[t]).waits <= All(threads).waits && Weigh(threads[t]).owes <= All(threads).owes
  {
    hide Weigh;
    if t < |threads| - 1 { AllAt(threads[..|threads| - 1], t); }
  }

  lemma {:induction false} AllIdle(threads: seq<Pc>)
    requires forall t :: 0 <= t < |threads| ==> threads[t].Idle?
    ensures All(threads) == Tally(0, 0, 0, 0, 0)
  {
    if threads != [] {
      AllIdle(threads[..|threads| - 1]);
      assert Weigh(threads[|threads| - 1]) == Tally(0, 0, 0, 0, 0);
    }
  }

  // ---------------------------------------------------------------- invariant

  predicate RetOk(r: Ret) {
    r.got <= r.max && (r.p.Forever? && 0 < r.max ==> 0 < r.got)
  }

  predicate PcOk(pc: Pc) {
    match pc
    case TryCas(_, _, seen) => seen > 0
    case SpinLoad(max, p, _) => max > 0
    case SpinCas(max, p, _, seen) => max > 0 && seen > 0
    case Sub(max, _) => max > 0
    case Sleep(max, _) => max > 0
    case Adjust(max, p) => max > 0 && !p.Forever?
    case KernelTry(max, p) => max > 0 && !p.Forever?
    case Cancel(max, p, seen) => max > 0 && seen < 0 && !p.Forever?
    case Drain(left) => left > 0
    case _ => true
  }

  /** The three accounts: waiters against tokens on their way, permits against signals, elements against permits. */
  ghost predicate Balanced(s: State, a: Tally) {
    && a.waits == s.kernel + a.posts + Pos(-s.count)
    && s.granted + a.holds + Pos(s.count) + s.kernel + a.posts == s.initial + s.signalled
    && s.size + s.initial == a.owes + Pos(s.count) + s.kernel + a.posts + a.puts
  }

  ghost predicate Pcs(threads: seq<Pc>) {
    forall t :: 0 <= t < |threads| ==> PcOk(threads[t])
  }

  ghost predicate Rets(rets: seq<Ret>) {
    forall i :: 0 <= i < |rets| ==> RetOk(rets[i])
  }

  ghost predicate Inv(s: State) {
    Balanced(s, All(s.threads)) && Pcs(s.threads) && Rets(s.rets)
  }

  /** The accounts kept by a move of one thread, from its own weight before and after. */
  ghost predicate Shifts(s: State, s1: State, a: Tally, b: Tally) {
    && b.waits - a.waits == (s1.kernel - s.kernel) + (b.posts - a.posts) + (Pos(-s1.count) - Pos(-s.count))
    && (s1.granted - s.granted) + (b.holds - a.holds) + (Pos(s1.count) - Pos(s.count)) + (s1.kernel - s.kernel) +
       (b.posts - a.posts)
       == s1.signalled - s.signalled
    && s1.size - s.size == (b.owes - a.owes) + (Pos(s1.count) - Pos(s.count)) + (s1.kernel - s.kernel) +
       (b.posts - a.posts) + (b.puts - a.puts)
    && s1.initial == s.initial
  }

  /** Thread `t` moves to a place that suits it; no other thread moves. */
  ghost predicate Goes(s: State, s1: State, t: nat)
    requires t < |s.threads|
  {
    && |s1.threads| == |s.threads| && s1.threads == s.threads[t := s1.threads[t]] && PcOk(s1.threads[t])
    && (Rets(s.rets) ==> Rets(s1.rets))
    && Shifts(s, s1, Weigh(s.threads[t]), Weigh(s1.threads[t]))
  }

  lemma Returned(s: State, t: nat, r: Ret)
    requires t < |s.threads| && RetOk(r)
    ensures var s1 := Return(s, t, r);
            && s1 == s.(threads := s.threads[t := s1.threads[t]], granted := s.granted + r.got, rets := s.rets + [r])
            && Weigh(s1.threads[t]) == Tally(0, 0, 0, r.got, 0) && PcOk(s1.threads[t])
            && (Rets(s.rets) ==> Rets(s1.rets))
  {
  }

  lemma WokenKeeps(s: State, t: nat, max: nat, p: Patience)
    requires t < |s.threads| && max > 0
    ensures var s1 := Woken(s, t, max, p); var w := Weigh(s1.threads[t]);
            && s1 == s.(threads := s.threads[t := s1.threads[t]], granted := s1.granted, rets := s1.rets)
            && w == Tally(0, 0, w.holds, 1, 0) && s.granted <= s1.granted && s1.granted - s.granted + w.holds == 1
            && PcOk(s1.threads[t])
            && (Rets(s.rets) ==> Rets(s1.rets))
  {
    hide Rets, RetOk;
    var r := Ret(max, p, 1);
    assert RetOk(r) by { OneOk(r); }
    if max <= 1 { Returned(s, t, r); }
  }

  lemma OneOk(r: Ret)
    requires 1 == r.got <= r.max
    ensures RetOk(r)
  {
  }

  lemma TriedKeeps(s: State, t: nat, max: nat, rest: Rest, r: nat)
    requires t < |s.threads| && r <= max
    ensures var s1 := Tried(s, t, max, rest, r); var w := Weigh(s1.threads[t]); var h := if rest.Extra? then 1 else 0;
            && s1 == s.(threads := s.threads[t := s1.threads[t]], granted := s1.granted, rets := s1.rets)
            && s1.granted == s.granted + r + h && w == Tally(0, 0, 0, r + h, 0) && PcOk(s1.threads[t])
            && (Rets(s.rets) ==> Rets(s1.rets))
  {
    hide Rets;
    match rest
    case Extra(p) => Returned(s, t, Ret(max + 1, p, 1 + r));
    case First(p) => if 0 < r || p.Try? || max == 0 { Returned(s, t, Ret(max, p, r)); }
  }

  lemma GoesTry(s: State, t: nat, c: Choice)
    requires t < |s.threads| && PcOk(s.threads[t]) && (s.threads[t].TryLoad? || s.threads[t].TryCas?)
    ensures Goes(s, Step(s, t, c), t)
  {
    hide Rets, Tried;
    var pc := s.threads[t];
    TriedKeeps(s, t, pc.max, pc.rest, 0);
    if pc.TryCas? {
      var now := if pc.seen > pc.max then pc.seen - pc.max else 0;
      TriedKeeps(s.(count := now), t, pc.max, pc.rest, Pos(pc.seen - now));
    }
  }

  lemma GoesSpin(s: State, t: nat, c: Choice)
    requires t < |s.threads| && PcOk(s.threads[t]) && (s.threads[t].SpinLoad? || s.threads[t].SpinCas?)
    ensures Goes(s, Step(s, t, c), t)
  {
    hide Rets, Return;
    var pc := s.threads[t];
    if pc.SpinCas? {
      var now := if pc.seen > pc.max then pc.seen - pc.max else 0;
      Returned(s.(count := now), t, Ret(pc.max, pc.p, Pos(pc.seen - now)));
    }
  }

  lemma GoesWake(s: State, t: nat, c: Choice)
    requires t < |s.threads| && PcOk(s.threads[t])
          && (s.threads[t].Sub? || s.threads[t].Sleep? || s.threads[t].KernelTry?)
    ensures Goes(s, Step(s, t, c), t)
  {
    hide Rets, Woken;
    var pc := s.threads[t];
    if pc.Sub? {
      WokenKeeps(s.(count := s.count - 1), t, pc.max, pc.p);
    } else if s.kernel > 0 {
      WokenKeeps(s.(kernel := s.kernel - 1), t, pc.max, pc.p);
    }
  }

  lemma GoesCancel(s: State, t: nat, c: Choice)
    requires t < |s.threads| && PcOk(s.threads[t]) && (s.threads[t].Adjust? || s.threads[t].Cancel?)
    ensures Goes(s, Step(s, t, c), t)
  {
    hide Rets, Return;
    var pc := s.threads[t];
    if pc.Cancel? { Returned(s.(count := s.count + 1), t, Ret(pc.max, pc.p, 0)); }
  }

  lemma GoesPut(s: State, t: nat, c: Choice)
    requires t < |s.threads| && (s.threads[t].Idle? || s.threads[t].Signal? || s.threads[t].Post?
                                 || s.threads[t].Drain?)
    requires PcOk(s.threads[t])
    ensures Goes(s, Step(s, t, c), t)
  {
    hide Rets;
  }

  lemma StepGoes(s: State, t: nat, c: Choice)
    requires t < |s.threads| && PcOk(s.threads[t])
    ensures Goes(s, Step(s, t, c), t)
  {
    hide Goes, Step, PcOk;
    var pc := s.threads[t];
    if pc.TryLoad? || pc.TryCas? { GoesTry(s, t, c); }
    else if pc.SpinLoad? || pc.SpinCas? { GoesSpin(s, t, c); }
    else if pc.Sub? || pc.Sleep? || pc.KernelTry? { GoesWake(s, t, c); }
    else if pc.Adjust? || pc.Cancel? { GoesCancel(s, t, c); }
    else { GoesPut(s, t, c); }
  }

  /** Every access of every thread keeps the three accounts. */
  lemma StepInv(s: State, t: nat, c: Choice)
    requires Inv(s) && t < |s.threads|
    ensures Inv(Step(s, t, c))
  {
    hide Step, Weigh, PcOk, Rets;
    assert PcOk(s.threads[t]);
    StepGoes(s, t, c);
    var s1 := Step(s, t, c);
    AllSet(s.threads, t, s1.threads[t]);
  }

  lemma {:induction false} RunInv(s: State, xs: seq<(nat, Choice)>)
    requires Inv(s) && forall x :: x in xs ==> x.0 < |s.threads|
    ensures Inv(Run(s, xs))
  {
    hide Inv, Step;
    if xs != [] {
      RunInv(s, xs[..|xs| - 1]);
      StepInv(Run(s, xs[..|xs| - 1]), xs[|xs| - 1].0, xs[|xs| - 1].1);
    }
  }

  // ---------------------------------------------------------------- what it gives

  /** In every run: permits granted are those there were and those signalled, less the positive count and the kernel
      tokens on their way; and the waiters without a token are max(0, -count),
        besides those whose token is on its way. */
  lemma Accounts(s: State, xs: seq<(nat, Choice)>)
    requires Initial(s) && forall x :: x in xs ==> x.0 < |s.threads|
    ensures var s1 := Run(s, xs); var a := All(s1.threads);
            && s1.granted + a.holds == s1.initial + s1.signalled - Pos(s1.count) - s1.kernel - a.posts
            && a.waits - (s1.kernel + a.posts) == Pos(-s1.count)
            && Rets(s1.rets) && s1.initial == s.initial
  {
    AllIdle(s.threads);
    RunInv(s, xs);
    SameInitial(s, xs);
  }

  lemma {:induction false} SameInitial(s: State, xs: seq<(nat, Choice)>)
    requires forall x :: x in xs ==> x.0 < |s.threads|
    ensures Run(s, xs).initial == s.initial
  {
    if xs != [] { SameInitial(s, xs[..|xs| - 1]); }
  }

  /** No wakeup is lost: with no token in the kernel and none about to be posted, a thread sleeps only if every permit
      there ever was has been granted. */
  lemma NoLostWakeup(s: State, xs: seq<(nat, Choice)>, t: nat)
    requires Initial(s) && (forall x :: x in xs ==> x.0 < |s.threads|) && t < |s.threads|
    requires var s1 := Run(s, xs); s1.threads[t].Sleep? && s1.kernel == 0 && All(s1.threads).posts == 0
    ensures var s1 := Run(s, xs); s1.granted + All(s1.threads).holds == s.initial + s1.signalled && s1.count < 0
  {
    hide Run;
    Accounts(s, xs);
    AllAt(Run(s, xs).threads, t);
  }

  /** A waiter that timed out, left to run once no token is about to be posted, is done at its second access: it
      takes its decrement back exactly when the count is still negative, and otherwise
      consumes a token that is there for it. */
  lemma CancelOrConsume(s: State, t: nat, c1: Choice, c2: Choice)
    requires Inv(s) && t < |s.threads| && s.threads[t].Adjust? && All(s.threads).posts == 0
    ensures var s2 := Step(Step(s, t, c1), t, c2); var pc := s.threads[t];
            && Weigh(s2.threads[t]).waits == 0
            && (if s.count < 0 then
                  s2.count == s.count + 1 && s2.kernel == s.kernel && s2.threads[t] == Idle
                    && s2.rets == s.rets + [Ret(pc.max, pc.p, 0)]
                else
                  s2.count == s.count && s2.kernel == s.kernel - 1 && Weigh(s2.threads[t]).owes == 1)
  {
    hide Step, Weigh, Inv;
    TokenThere(s, t);
    AdjustLoads(s, t, c1);
    var s1 := Step(s, t, c1);
    if s.count < 0 { CancelNow(s1, t, c2); } else { ConsumeNow(s1, t, c2); }
  }

  lemma TokenThere(s: State, t: nat)
    requires Inv(s) && t < |s.threads| && s.threads[t].Adjust? && All(s.threads).posts == 0
    ensures s.threads[t].max > 0 && (s.count >= 0 ==> s.kernel > 0)
  {
    AllAt(s.threads, t);
    assert PcOk(s.threads[t]);
  }

  lemma AdjustLoads(s: State, t: nat, c: Choice)
    requires t < |s.threads| && s.threads[t].Adjust?
    ensures var pc := s.threads[t];
            Step(s, t, c) == At(s, t, if s.count >= 0 then KernelTry(pc.max, pc.p) else Cancel(pc.max, pc.p, s.count))
  {
  }

  lemma CancelNow(s: State, t: nat, c: Choice)
    requires t < |s.threads| && s.threads[t].Cancel? && s.threads[t].seen == s.count
    ensures var s2 := Step(s, t, c); var pc := s.threads[t];
            && s2.count == s.count + 1 && s2.kernel == s.kernel && s2.threads[t] == Idle && Weigh(Idle).waits == 0
            && s2.rets == s.rets + [Ret(pc.max, pc.p, 0)]
  {
    var pc := s.threads[t];
    ReturnZero(s.(count := s.count + 1), t, pc.max, pc.p);
  }

  lemma ConsumeNow(s: State, t: nat, c: Choice)
    requires t < |s.threads| && s.threads[t].KernelTry? && s.kernel > 0 && s.threads[t].max > 0
    ensures var s2 := Step(s, t, c);
            && s2.count == s.count && s2.kernel == s.kernel - 1 && Weigh(s2.threads[t]).waits == 0
            && Weigh(s2.threads[t]).owes == 1
  {
    hide Woken;
    WokenKeeps(s.(kernel := s.kernel - 1), t, s.threads[t].max, s.threads[t].p);
  }

  lemma ReturnZero(s: State, t: nat, max: nat, p: Patience)
    requires t < |s.threads|
    ensures Return(s, t, Ret(max, p, 0)).threads[t] == Idle
  {
  }

  /** `waitMany(max)` without a time limit asserts that it got something: it does if and only if `max` is positive. */
  lemma WaitManyAsserts(s: State, xs: seq<(nat, Choice)>, i: nat)
    requires Initial(s) && forall x :: x in xs ==> x.0 < |s.threads|
    requires i < |Run(s, xs).rets| && Run(s, xs).rets[i].p.Forever?
    ensures Run(s, xs).rets[i].got > 0 <==> Run(s, xs).rets[i].max > 0
    ensures Run(s, xs).rets[i].got <= Run(s, xs).rets[i].max
  {
    hide Run;
    Accounts(s, xs);
    assert RetOk(Run(s, xs).rets[i]);
  }

  /** So the call `waitMany(0)` fails its own assertion: it returns 0 at once. */
  lemma WaitManyZero(s: State, t: nat, c: Choice)
    requires Initial(s) && t < |s.threads| && s.initial == 0 && c.op == Get(0, Forever)
    ensures var s2 := Step(Step(s, t, c), t, c); s2.rets == [Ret(0, Forever, 0)] && s2.threads[t] == Idle
  {
    assert Step(s, t, c).threads[t] == TryLoad(0, First(Forever));
  }

  /** The blocking queue starts its semaphore at zero and signals after enqueueing: a consumer that holds permits always
      finds elements behind them, whatever the others do. */
  lemma PermitHasElement(s: State, xs: seq<(nat, Choice)>, t: nat)
    requires Initial(s) && s.initial == 0 && (forall x :: x in xs ==> x.0 < |s.threads|) && t < |s.threads|
    ensures var s1 := Run(s, xs);
            && (s1.threads[t].Drain? ==> s1.threads[t].left <= s1.size)
            && All(s1.threads).owes <= s1.size
  {
    hide Run;
    AllIdle(s.threads);
    RunInv(s, xs);
    SameInitial(s, xs);
    AllAt(Run(s, xs).threads, t);
  }

  /** How many of the steps are dequeues of `t` that do not miss what is there. */
  function Finds(ys: seq<(nat, Choice)>, t: nat): nat {
    if ys == [] then 0 else (if ys[0].0 == t && ys[0].1.found > 0 then 1 else 0) + Finds(ys[1..], t)
  }

  lemma OtherStays(s: State, t: nat, u: nat, c: Choice)
    requires t < |s.threads| && u < |s.threads| && t != u
    ensures Step(s, u, c).threads[t] == s.threads[t]
  {}

  /** A dequeue that does not miss takes at least one element, since there are enough for all permits. */
  lemma DrainStep(s: State, t: nat, c: Choice)
    requires t < |s.threads| && s.threads[t].Drain? && 0 < s.threads[t].left <= s.size
    ensures var pc := Step(s, t, c).threads[t];
            && (pc.Idle? || (pc.Drain? && 0 < pc.left <= s.threads[t].left))
            && (pc.Drain? && c.found > 0 ==> pc.left < s.threads[t].left)
  {}

  /** The spinning dequeue (blockingconcurrentqueue.h 359-367, 446-455) ends: whatever the others do, it has all its
      elements when, at the latest, it has tried as many times as it holds permits without the inner queue missing
      what is there. */
  lemma {:induction false} SpinEnds(s: State, xs: seq<(nat, Choice)>, ys: seq<(nat, Choice)>, t: nat) returns (n: nat)
    requires Initial(s) && s.initial == 0 && t < |s.threads|
    requires (forall x :: x in xs ==> x.0 < |s.threads|) && (forall y :: y in ys ==> y.0 < |s.threads|)
    requires Run(s, xs).threads[t].Drain? && Run(s, xs).threads[t].left <= Finds(ys, t)
    ensures n <= |ys| && Run(s, xs + ys[..n]).threads[t].Idle?
    decreases |ys|
  {
    hide Step;
    var s1 := Run(s, xs);
    PermitHasElement(s, xs, t);
    HoldsSome(s, xs, t);
    var y, longer := ys[0], xs + [ys[0]];
    assert longer[..|longer| - 1] == xs;
    assert Run(s, longer) == Step(s1, y.0, y.1);
    if y.0 == t { DrainStep(s1, t, y.1); } else { OtherStays(s1, t, y.0, y.1); }
    if Run(s, longer).threads[t].Idle? {
      n := 1;
      assert xs + ys[..1] == longer;
    } else {
      assert forall x :: x in longer ==> x in xs || x == ys[0];
      n := SpinEnds(s, longer, ys[1..], t);
      assert longer + ys[1..][..n] == xs + ys[..n + 1];
      n := n + 1;
    }
  }

  lemma HoldsSome(s: State, xs: seq<(nat, Choice)>, t: nat)
    requires Initial(s) && (forall x :: x in xs ==> x.0 < |s.threads|) && t < |s.threads|
    ensures Run(s, xs).threads[t].Drain? ==> Run(s, xs).threads[t].left > 0
  {
    hide Run;
    AllIdle(s.threads);
    RunInv(s, xs);
    assert PcOk(Run(s, xs).threads[t]);
  }

  /** When all calls have returned, no waiter and no token is left: the count is what was put in and not taken out, and
      so is the length of the queue. */
  lemma AtRest(s: State, xs: seq<(nat, Choice)>)
    requires Initial(s) && forall x :: x in xs ==> x.0 < |s.threads|
    requires forall t :: 0 <= t < |s.threads| ==> Run(s, xs).threads[t].Idle?
    ensures var s1 := Run(s, xs);
            && s1.kernel == 0 && 0 <= s1.count && s1.granted + s1.count == s.initial + s1.signalled
            && s1.size + s.initial == s1.count
  {
    hide Run;
    AllIdle(s.threads);
    RunInv(s, xs);
    SameInitial(s, xs);
    AllIdle(Run(s, xs).threads);
  }

  // ---------------------------------------------------------------- what a call achieves

  /** `tryWait` and `tryWaitMany` (lightweightsemaphore.h 305-319, 363-376) come back without a permit only at an access
      at which there was none, or if none was asked for. */
  lemma TryFails(s: State, t: nat, c: Choice)
    requires t < |s.threads| && PcOk(s.threads[t])
    requires (s.threads[t].TryLoad? || s.threads[t].TryCas?) && s.threads[t].rest == First(Try)
    ensures var s1 := Step(s, t, c); var max := s.threads[t].max;
      && (s1.threads[t].TryCas? || |s1.rets| == |s.rets| + 1)
      && (|s1.rets| == |s.rets| + 1 ==>
            && s1.rets == s.rets + [Ret(max, Try, s1.rets[|s.rets|].got)]
            && (s1.rets[|s.rets|].got == 0 <==> s.count <= 0 || max == 0))
  {}

  /** Running alone, `tryWaitMany` takes as many permits as were asked for, or as there are. */
  lemma TryAlone(s: State, t: nat, max: nat)
    requires t < |s.threads| && s.threads[t].Idle?
    ensures var c := Choice(Get(max, Try), true, 0);
      var r := Least(max, Pos(s.count));
      var s1 := if s.count > 0 then Step(Step(Step(s, t, c), t, c), t, c) else Step(Step(s, t, c), t, c);
      && s1.rets == s.rets + [Ret(max, Try, r)] && s1.count == s.count - r && s1.granted == s.granted + r
      && s1.threads[t] == if r == 0 then Idle else Drain(r)
  {
    var c := Choice(Get(max, Try), true, 0);
    var s1 := Step(s, t, c);
    assert s1 == At(s, t, TryLoad(max, First(Try)));
    if s.count > 0 {
      var s2 := Step(s1, t, c);
      assert s2 == At(s1, t, TryCas(max, First(Try), s.count));
    }
  }
}
