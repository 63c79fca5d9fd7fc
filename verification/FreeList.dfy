/** The lock-free free list of the concurrent queue: every interleaving of `add` and `try_get`, one atomic access
    at a time, under sequential consistency. */
module FreeList {

  const FLAG: nat := 0x8000_0000

  datatype Ptr = Null | Node(id: nat)

  /** What a thread does after `add_knowing_refcount_is_zero`: return, or go on in `try_get` with the head that its
      failed exchange had seen. */
  datatype Then = Return | GoOn(head: Ptr)

  /** Where a thread is: the atomic access it makes next, with its local variables. */
  datatype Pc =
    | Idle
    | AddFlag(n: nat)                                     // add: fetch_add(SHOULD_BE_ON_FREELIST)
    | AddLoad(n: nat, k: Then)                            // add_knowing_refcount_is_zero: load head
    | AddNext(n: nat, top: Ptr, k: Then)                    //   store next
    | AddRefs(n: nat, top: Ptr, k: Then)                    //   store refs := 1
    | AddCas(n: nat, top: Ptr, k: Then)                     //   exchange head
    | AddUndo(n: nat, top: Ptr, k: Then)                    //   fetch_add(SHOULD_BE_ON_FREELIST - 1)
    | GetHead                                             // try_get: load head
    | GetRefs(h: nat)                                     //   load refs
    | GetInc(h: nat, r: nat)                              //   exchange refs
    | GetNext(h: nat)                                     //   load next
    | GetCas(h: nat, next: Ptr)                           //   exchange head
    | GetCheck(h: nat)                                    //   the assertion
    | GetDec(h: nat)                                      //   fetch_sub(2)
    | GetUndo(h: nat, cur: Ptr)                           //   fetch_sub(1)

  /** Who is responsible for a node; a history variable. */
  datatype Role = Owned | Offered(t: nat) | Adding(t: nat) | Publishing(t: nat) | OnList | Taken(t: nat) | Flagged

  /** Shared memory, the threads, and the history: roles and the list as a sequence. */
  datatype State = State(refs: seq<nat>, next: seq<Ptr>, head: Ptr, threads: seq<Pc>, role: seq<Role>, list: seq<nat>)

  datatype Choice = StartAdd(n: nat) | StartGet

  function Resume(k: Then): Pc {
    match k
    case Return => Idle
    case GoOn(Null) => Idle
    case GoOn(Node(h)) => GetRefs(h)
  }

  function Look(p: Ptr): Pc {
    match p
    case Null => Idle
    case Node(h) => GetRefs(h)
  }

  function At(s: State, t: nat, pc: Pc): State
    requires t < |s.threads|
  {
    s.(threads := s.threads[t := pc])
  }

  /** One atomic access of thread `t` (concurrentqueue.h 1438-1517). */
  function Step(s: State, t: nat, c: Choice): State
    requires Shape(s) && t < |s.threads|
  {
    match s.threads[t]
    case Idle =>
      (match c
       case StartGet => At(s, t, GetHead)
       case StartAdd(n) => if n < |s.refs|
         && s.role[n].Owned? then At(s.(role := s.role[n := Offered(t)]), t, AddFlag(n)) else s)
    case AddFlag(n) =>
      var s1 := s.(refs := s.refs[n := s.refs[n] + FLAG]);
      if s.refs[n] == 0 then At(s1.(role := s.role[n := Adding(t)]), t, AddLoad(n, Return))
        else At(s1.(role := s.role[n := Flagged]), t, Idle)
    case AddLoad(n, k) => At(s, t, AddNext(n, s.head, k))
    case AddNext(n, h, k) => At(s.(next := s.next[n := h]), t, AddRefs(n, h, k))
    case AddRefs(n, h, k) => At(s.(refs := s.refs[n := 1], role := s.role[n := Publishing(t)]), t, AddCas(n, h, k))
    case AddCas(n, h, k) =>
      if s.head == h then At(s.(head := Node(n), role := s.role[n := OnList], list := [n] + s.list), t, Resume(k))
      else At(s, t, AddUndo(n, s.head, k))
    case AddUndo(n, h, k) =>
      var s1 := s.(refs := s.refs[n := s.refs[n] + FLAG - 1]);
      if s.refs[n] == 1 then At(s1.(role := s.role[n := Adding(t)]), t, AddNext(n, h, k))
        else At(s1.(role := s.role[n := Flagged]), t, Resume(k))
    case GetHead => At(s, t, Look(s.head))
    case GetRefs(h) => At(s, t, if s.refs[h] % FLAG == 0 then GetHead else GetInc(h, s.refs[h]))
    case GetInc(h, r) => if s.refs[h] == r then At(s.(refs := s.refs[h := r + 1]), t, GetNext(h)) else At(s, t, GetHead)
    case GetNext(h) => At(s, t, GetCas(h, s.next[h]))
    case GetCas(h, nx) =>
      if s.head == Node(h) then At(s.(head := nx, role := s.role[h := Taken(t)], list := if s.list == [] then []
                                      else s.list[1..]), t, GetCheck(h))
      else At(s, t, GetUndo(h, s.head))
    case GetCheck(h) => At(s, t, GetDec(h))
    case GetDec(h) => At(s.(refs := s.refs[h := if s.refs[h] >= 2 then s.refs[h] - 2 else 0],
                            role := s.role[h := Owned]), t, Idle)
    case GetUndo(h, cur) =>
      var s1 := s.(refs := s.refs[h := if s.refs[h] >= 1 then s.refs[h] - 1 else 0]);
      if s.refs[h] == FLAG + 1 then At(s1.(role := s.role[h := Adding(t)]), t, AddLoad(h, GoOn(cur)))
        else At(s1, t, Look(cur))
  }

  // ---------------------------------------------------------------- invariant

  predicate PtrIn(p: Ptr, n: nat) {
    p.Node? ==> p.id < n
  }

  predicate ThenIn(k: Then, n: nat) {
    k.GoOn? ==> PtrIn(k.head, n)
  }

  predicate PcIn(pc: Pc, n: nat) {
    match pc
    case Idle => true
    case GetHead => true
    case AddFlag(x) => x < n
    case AddLoad(x, k) => x < n && ThenIn(k, n)
    case AddNext(x, h, k) => x < n && PtrIn(h, n) && ThenIn(k, n)
    case AddRefs(x, h, k) => x < n && PtrIn(h, n) && ThenIn(k, n)
    case AddCas(x, h, k) => x < n && PtrIn(h, n) && ThenIn(k, n)
    case AddUndo(x, h, k) => x < n && PtrIn(h, n) && ThenIn(k, n)
    case GetRefs(x) => x < n
    case GetInc(x, _) => x < n
    case GetNext(x) => x < n
    case GetCas(x, p) => x < n && PtrIn(p, n)
    case GetCheck(x) => x < n
    case GetDec(x) => x < n
    case GetUndo(x, p) => x < n && PtrIn(p, n)
  }

  predicate Shape(s: State) {
    && |s.next| == |s.refs| == |s.role| && PtrIn(s.head, |s.refs|)
    && (forall n :: 0 <= n < |s.next| ==> PtrIn(s.next[n], |s.refs|))
    && forall t :: 0 <= t < |s.threads| ==> PcIn(s.threads[t], |s.refs|)
  }

  /** The reference counted for a thread in the middle of `try_get`. */
  function Holds(pc: Pc, n: nat): nat {
    match pc
    case GetNext(h) => if h == n then 1 else 0
    case GetCas(h, _) => if h == n then 1 else 0
    case GetCheck(h) => if h == n then 1 else 0
    case GetDec(h) => if h == n then 1 else 0
    case GetUndo(h, _) => if h == n then 1 else 0
    case _ => 0
  }

  function Holders(threads: seq<Pc>, n: nat): nat {
    if threads == [] then 0 else Holders(threads[..|threads| - 1], n) + Holds(threads[|threads| - 1], n)
  }

  lemma {:induction false} HoldersSet(threads: seq<Pc>, t: nat, pc: Pc, n: nat)
    requires t < |threads|
    ensures Holders(threads[t := pc], n) + Holds(threads[t], n) == Holders(threads, n) + Holds(pc, n)
  {
    var m := |threads| - 1;
    if t == m {
      assert threads[t := pc][..m] == threads[..m];
    } else {
      assert threads[t := pc][..m] == threads[..m][t := pc];
      HoldersSet(threads[..m], t, pc, n);
    }
  }

  lemma {:induction false} HoldersBound(threads: seq<Pc>, n: nat)
    ensures Holders(threads, n) <= |threads|
  {
    if threads != [] { HoldersBound(threads[..|threads| - 1], n); }
  }

  lemma {:induction false} HoldersAt(threads: seq<Pc>, t: nat, n: nat)
    requires t < |threads|
    ensures Holders(threads, n) >= Holds(threads[t], n)
  {
    if t < |threads| - 1 { HoldersAt(threads[..|threads| - 1], t, n); }
  }

  /** The count of a node is one for the list (or for whoever is putting it there or has just taken it off), one for
      each thread looking at it, and the flag while it waits to be put on the list. */
  ghost predicate NodeOk(s: State, n: nat)
    requires Shape(s) && n < |s.refs|
  {
    var h := Holders(s.threads, n);
    match s.role[n]
    case Owned => s.refs[n] == h
    case Offered(_) => s.refs[n] == h
    case Adding(_) => s.refs[n] == FLAG && h == 0
    case Publishing(_) => s.refs[n] == 1 + h
    case OnList => s.refs[n] == 1 + h
    case Taken(_) => s.refs[n] == 1 + h
    case Flagged => s.refs[n] == FLAG + h && h >= 1
  }

  /** The role a thread's position gives to its node. */
  ghost predicate PcOk(s: State, t: nat)
    requires Shape(s) && t < |s.threads|
  {
    match s.threads[t]
    case AddFlag(n) => s.role[n] == Offered(t)
    case AddLoad(n, _) => s.role[n] == Adding(t)
    case AddNext(n, _, _) => s.role[n] == Adding(t)
    case AddRefs(n, h, _) => s.role[n] == Adding(t) && s.next[n] == h
    case AddCas(n, h, _) => s.role[n] == Publishing(t) && s.next[n] == h
    case AddUndo(n, _, _) => s.role[n] == Publishing(t)
    case GetCas(h, nx) => s.next[h] == nx
    case GetCheck(h) => s.role[h] == Taken(t)
    case GetDec(h) => s.role[h] == Taken(t)
    case GetInc(h, r) => r % FLAG != 0
    case _ => true
  }

  function After(list: seq<nat>, i: nat): Ptr {
    if i + 1 < |list| then Node(list[i + 1]) else Null
  }

  ghost predicate Linked(s: State, i: nat)
    requires Shape(s) && i < |s.list|
  {
    var n := s.list[i];
    n < |s.refs| && s.role[n].OnList? && s.next[n] == After(s.list, i)
  }

  /** The list in memory is the sequence of the nodes whose role it is to be there, each once. */
  ghost predicate ListOk(s: State)
    requires Shape(s)
  {
    && s.head == (if s.list == [] then Null else Node(s.list[0]))
    && (forall i :: 0 <= i < |s.list| ==> Linked(s, i))
    && (forall i, j :: 0 <= i < j < |s.list| ==> s.list[i] != s.list[j])
    && (forall n :: 0 <= n < |s.role| && s.role[n].OnList? ==> n in s.list)
  }

  /** A responsible thread is really there. */
  ghost predicate RoleOk(s: State, n: nat)
    requires Shape(s) && n < |s.role|
  {
    match s.role[n]
    case Offered(t) => t < |s.threads| && s.threads[t] == AddFlag(n)
    case Adding(t) => t < |s.threads| && (s.threads[t].AddLoad? || s.threads[t].AddNext? || s.threads[t].AddRefs?)
      && s.threads[t].n == n
    case Publishing(t) => t < |s.threads| && (s.threads[t].AddCas? || s.threads[t].AddUndo?) && s.threads[t].n == n
    case Taken(t) => t < |s.threads| && (s.threads[t] == GetCheck(n) || s.threads[t] == GetDec(n))
    case _ => true
  }

  ghost predicate Inv(s: State) {
    && Shape(s) && |s.threads| < FLAG - 1 && ListOk(s)
    && (forall n :: 0 <= n < |s.refs| ==> NodeOk(s, n) && RoleOk(s, n))
    && (forall t :: 0 <= t < |s.threads| ==> PcOk(s, t))
  }

  function Owner(r: Role): int {
    match r
    case Offered(t) => t
    case Adding(t) => t
    case Publishing(t) => t
    case Taken(t) => t
    case _ => -1
  }

  /** Thread `t` moved to `pc`, and only node `n` changed its count, link or role. */
  ghost predicate Moved(s: State, s1: State, t: nat, pc: Pc, n: nat)
    requires Shape(s) && Shape(s1)
  {
    && t < |s.threads| && n < |s.refs| && |s1.refs| == |s.refs| && s1.threads == s.threads[t := pc]
    && s1.refs == s.refs[n := s1.refs[n]] && s1.role == s.role[n := s1.role[n]] && s1.next == s.next[n := s1.next[n]]
    && (forall m :: 0 <= m < |s.refs| && m != n ==> Holds(pc, m) == Holds(s.threads[t], m))
  }

  /** Nobody else relied on what changed. */
  ghost predicate Fair(s: State, s1: State, t: nat, n: nat)
    requires Shape(s) && Shape(s1) && n < |s.refs| && |s1.refs| == |s.refs|
  {
    && (s1.role[n] == s.role[n] || Owner(s.role[n]) == -1 || Owner(s.role[n]) == t)
    && (s1.next[n] == s.next[n] || s.role[n] == Adding(t))
  }

  ghost predicate AllNodes(s: State) {
    Shape(s) && forall n :: 0 <= n < |s.refs| ==> NodeOk(s, n) && RoleOk(s, n)
  }

  ghost predicate AllThreads(s: State) {
    Shape(s) && forall t :: 0 <= t < |s.threads| ==> PcOk(s, t)
  }

  lemma InvParts(s: State)
    ensures Inv(s) <==> AllNodes(s) && AllThreads(s) && ListOk(s) && |s.threads| < FLAG - 1
  {}

  /** Which node a thread's position and role speak of. */
  ghost predicate Leaves(s: State, s1: State, t: nat, n: nat)
    requires Shape(s) && Shape(s1)
  {
    forall m :: 0 <= m < |s.refs| && m < |s1.refs| && m != n ==> Owner(s.role[m]) != t
  }

  lemma NodesKept(s: State, s1: State, t: nat, pc: Pc, n: nat)
    requires AllNodes(s) && Shape(s1) && Moved(s, s1, t, pc, n) && Leaves(s, s1, t, n) && NodeOk(s1, n) && RoleOk(s1, n)
    ensures AllNodes(s1)
  {
    hide Holders, Holds;
    forall m | 0 <= m < |s1.refs| ensures NodeOk(s1, m) && RoleOk(s1, m) {
      if m != n {
        assert NodeOk(s, m) && RoleOk(s, m);
        HoldersSet(s.threads, t, pc, m);
      }
    }
  }

  lemma ThreadsKept(s: State, s1: State, t: nat, pc: Pc, n: nat)
    requires AllNodes(s) && AllThreads(s) && Shape(s1) && Moved(s, s1, t, pc, n) && Fair(s, s1, t, n) && PcOk(s1, t)
    ensures AllThreads(s1)
  {
    hide Holders, NodeOk, RoleOk;
    forall u | 0 <= u < |s1.threads| ensures PcOk(s1, u) {
      if u != t {
        assert PcOk(s, u) && PcIn(s.threads[u], |s.refs|);
        if s.threads[u].GetCas? && s.threads[u].h == n { HeldNotAdding(s, u, n); }
      }
    }
  }

  /** While a thread looks at a node, nobody is about to link it. */
  lemma HeldNotAdding(s: State, u: nat, n: nat)
    requires AllNodes(s) && u < |s.threads| && n < |s.refs| && Holds(s.threads[u], n) > 0
    ensures !s.role[n].Adding?
  {
    assert NodeOk(s, n);
    HoldersAt(s.threads, u, n);
  }

  lemma ListKept(s: State, s1: State, n: nat)
    requires Shape(s) && Shape(s1) && ListOk(s) && s1.head == s.head && s1.list == s.list && n < |s.refs|
          && |s1.refs| == |s.refs|
    requires s1.role == s.role[n := s1.role[n]] && s1.next == s.next[n := s1.next[n]]
    requires if s.role[n].OnList? then s1.role[n].OnList? && s1.next[n] == s.next[n] else !s1.role[n].OnList?
    ensures ListOk(s1)
  {
    forall i | 0 <= i < |s1.list| ensures Linked(s1, i) { assert Linked(s, i); }
    forall m | 0 <= m < |s1.role| && s1.role[m].OnList? ensures m in s1.list { assert s.role[m].OnList?; }
  }

  /** A step that leaves head and list alone. */
  lemma StepKept(s: State, s1: State, t: nat, pc: Pc, n: nat)
    requires Inv(s) && Shape(s1) && Moved(s, s1, t, pc, n) && Fair(s, s1, t, n) && Leaves(s, s1, t, n)
    requires NodeOk(s1, n) && RoleOk(s1, n) && PcOk(s1, t) && s1.head == s.head && s1.list == s.list
    requires if s.role[n].OnList? then s1.role[n].OnList? && s1.next[n] == s.next[n] else !s1.role[n].OnList?
    ensures Inv(s1)
  {
    hide NodeOk, RoleOk, PcOk, ListOk;
    InvParts(s);
    InvParts(s1);
    NodesKept(s, s1, t, pc, n);
    ThreadsKept(s, s1, t, pc, n);
    ListKept(s, s1, n);
  }

  /** A thread is responsible for no node but the one its position names. */
  lemma OneDuty(s: State, s1: State, t: nat, n: nat)
    requires Inv(s) && Shape(s1) && t < |s.threads| && (Focus(s.threads[t]) == Node(n) || Focus(s.threads[t]) == Null)
    ensures Leaves(s, s1, t, n)
  {
    forall m | 0 <= m < |s.refs| && m < |s1.refs| && m != n ensures Owner(s.role[m]) != t { assert RoleOk(s, m); }
  }

  /** The node a thread's position is about, for the responsibilities. */
  function Focus(pc: Pc): Ptr {
    match pc
    case AddFlag(n) => Node(n)
    case AddLoad(n, _) => Node(n)
    case AddNext(n, _, _) => Node(n)
    case AddRefs(n, _, _) => Node(n)
    case AddCas(n, _, _) => Node(n)
    case AddUndo(n, _, _) => Node(n)
    case GetCheck(n) => Node(n)
    case GetDec(n) => Node(n)
    case _ => Null
  }

  // ---------------------------------------------------------------- each step keeps the invariant

  /** A step that changes nothing but the thread's position. */
  lemma PositionStep(s: State, t: nat, pc: Pc, n: nat)
    requires Inv(s) && t < |s.threads| && n < |s.refs| && PcIn(pc, |s.refs|) && PcOk(At(s, t, pc), t)
    requires (forall m :: 0 <= m < |s.refs| ==> Holds(pc, m) == Holds(s.threads[t], m))
    requires (Focus(s.threads[t]) == Node(n) || Focus(s.threads[t]) == Null) && RoleOk(At(s, t, pc), n)
    ensures Inv(At(s, t, pc))
  {
    hide ListOk;
    var s1 := At(s, t, pc);
    assert NodeOk(s, n) && RoleOk(s, n);
    HoldersSet(s.threads, t, pc, n);
    OneDuty(s, s1, t, n);
    StepKept(s, s1, t, pc, n);
  }

  lemma EmptyStep(s: State, t: nat, pc: Pc)
    requires Inv(s) && t < |s.threads| && |s.refs| == 0 && PcIn(pc, 0) && PcOk(At(s, t, pc), t)
    ensures Inv(At(s, t, pc))
  {
    forall u | 0 <= u < |s.threads| ensures PcOk(At(s, t, pc), u) { assert PcIn(s.threads[u], 0); }
  }

  lemma IdleStep(s: State, t: nat, c: Choice)
    requires Inv(s) && t < |s.threads| && s.threads[t].Idle?
    ensures Inv(Step(s, t, c))
  {
    hide ListOk;
    var s1 := Step(s, t, c);
    if c.StartAdd? {
      if c.n < |s.refs| && s.role[c.n].Owned? {
        assert NodeOk(s, c.n);
        HoldersSet(s.threads, t, AddFlag(c.n), c.n);
        OneDuty(s, s1, t, c.n);
        StepKept(s, s1, t, AddFlag(c.n), c.n);
      }
    } else if |s.refs| == 0 {
      EmptyStep(s, t, GetHead);
    } else {
      assert RoleOk(s, 0);
      PositionStep(s, t, GetHead, 0);
    }
  }

  lemma AddFlagStep(s: State, t: nat, c: Choice)
    requires Inv(s) && t < |s.threads| && s.threads[t].AddFlag?
    ensures Inv(Step(s, t, c))
  {
    hide ListOk;
    var s1 := Step(s, t, c);
    var n := s.threads[t].n;
    assert NodeOk(s, n) && PcOk(s, t);
    HoldersSet(s.threads, t, s1.threads[t], n);
    OneDuty(s, s1, t, n);
    StepKept(s, s1, t, s1.threads[t], n);
  }

  lemma AddPrepareStep(s: State, t: nat, c: Choice)
    requires Inv(s) && t < |s.threads| && (s.threads[t].AddLoad? || s.threads[t].AddNext? || s.threads[t].AddRefs?)
    ensures Inv(Step(s, t, c))
  {
    hide ListOk;
    var s1 := Step(s, t, c);
    var n := s.threads[t].n;
    assert NodeOk(s, n) && PcOk(s, t);
    HoldersSet(s.threads, t, s1.threads[t], n);
    OneDuty(s, s1, t, n);
    StepKept(s, s1, t, s1.threads[t], n);
  }

  lemma AddCasStep(s: State, t: nat, c: Choice)
    requires Inv(s) && t < |s.threads| && s.threads[t].AddCas?
    ensures Inv(Step(s, t, c))
  {
    hide ListOk;
    var s1 := Step(s, t, c);
    var n := s.threads[t].n;
    assert NodeOk(s, n) && PcOk(s, t);
    if s.head == s.threads[t].top {
      assert Resume(s.threads[t].k).Idle? || Resume(s.threads[t].k).GetRefs?;
      HoldersSet(s.threads, t, s1.threads[t], n);
      OneDuty(s, s1, t, n);
      InvParts(s);
      NodesKept(s, s1, t, s1.threads[t], n);
      ThreadsKept(s, s1, t, s1.threads[t], n);
      Pushed(s, s1, n);
      InvParts(s1);
    } else {
      PositionStep(s, t, AddUndo(n, s.head, s.threads[t].k), n);
    }
  }

  lemma Pushed(s: State, s1: State, n: nat)
    requires Shape(s) && Shape(s1) && ListOk(s) && n < |s.refs| && |s1.refs| == |s.refs| && !s.role[n].OnList?
          && s.next[n] == s.head
    requires s1.head == Node(n) && s1.list == [n] + s.list && s1.role == s.role[n := OnList] && s1.next == s.next
    ensures ListOk(s1)
  {
    forall i | 0 <= i < |s1.list| ensures Linked(s1, i) {
      if i > 0 { assert s1.list[i] == s.list[i - 1]; assert Linked(s, i - 1); }
    }
    forall i | 0 <= i < |s.list| ensures s.list[i] != n { assert Linked(s, i); }
    forall m | 0 <= m < |s1.role| && s1.role[m].OnList? ensures m in s1.list { if m != n { assert m in s.list; } }
  }

  lemma AddUndoStep(s: State, t: nat, c: Choice)
    requires Inv(s) && t < |s.threads| && s.threads[t].AddUndo?
    ensures Inv(Step(s, t, c))
  {
    hide ListOk;
    var s1 := Step(s, t, c);
    var n := s.threads[t].n;
    assert NodeOk(s, n) && PcOk(s, t);
    assert Resume(s.threads[t].k).Idle? || Resume(s.threads[t].k).GetRefs?;
    HoldersSet(s.threads, t, s1.threads[t], n);
    OneDuty(s, s1, t, n);
    StepKept(s, s1, t, s1.threads[t], n);
  }

  lemma GetLookStep(s: State, t: nat, c: Choice)
    requires Inv(s) && t < |s.threads|
          && (s.threads[t].GetHead? || s.threads[t].GetRefs? || s.threads[t].GetNext? || s.threads[t].GetCheck?)
    ensures Inv(Step(s, t, c))
  {
    hide ListOk;
    var s1 := Step(s, t, c);
    assert PcOk(s, t);
    if |s.refs| == 0 {
      EmptyStep(s, t, s1.threads[t]);
    } else {
      var n := if s.threads[t].GetHead? then 0 else s.threads[t].h;
      assert RoleOk(s, n);
      PositionStep(s, t, s1.threads[t], n);
    }
  }

  lemma GetIncStep(s: State, t: nat, c: Choice)
    requires Inv(s) && t < |s.threads| && s.threads[t].GetInc?
    ensures Inv(Step(s, t, c))
  {
    hide ListOk, Holders;
    var s1 := Step(s, t, c);
    var h := s.threads[t].h;
    assert NodeOk(s, h) && PcOk(s, t) && RoleOk(s, h);
    HoldersSet(s.threads, t, s1.threads[t], h);
    OneDuty(s, s1, t, h);
    StepKept(s, s1, t, s1.threads[t], h);
  }

  /** The exchange that takes the head off the list. */
  lemma GetTook(s: State, t: nat, c: Choice, h: nat)
    requires Inv(s) && t < |s.threads| && s.threads[t].GetCas? && s.threads[t].h == h && s.head == Node(h)
    ensures var s1 := Step(s, t, c);
      && Shape(s1) && ListOk(s1) && |s1.threads| == |s.threads| && h < |s.refs| && h < |s1.refs|
      && Moved(s, s1, t, s1.threads[t], h) && Fair(s, s1, t, h) && NodeOk(s1, h) && RoleOk(s1, h) && PcOk(s1, t)
  {
    hide ListOk;
    var s1 := Step(s, t, c);
    assert NodeOk(s, h) && PcOk(s, t) && RoleOk(s, h);
    Popped(s, s1, h);
    HoldersSet(s.threads, t, s1.threads[t], h);
  }

  lemma GetCasStep(s: State, t: nat, c: Choice)
    requires Inv(s) && t < |s.threads| && s.threads[t].GetCas?
    ensures Inv(Step(s, t, c))
  {
    hide ListOk, Fair, Moved, Leaves, NodeOk, AllNodes, AllThreads;
    assert RoleOk(s, s.threads[t].h) && PcOk(s, t);
    var s1 := Step(s, t, c);
    var h := s.threads[t].h;
    if s.head == Node(h) {
      GetTook(s, t, c, h);
      OneDuty(s, s1, t, h);
      InvParts(s);
      NodesKept(s, s1, t, s1.threads[t], h);
      ThreadsKept(s, s1, t, s1.threads[t], h);
      InvParts(s1);
    } else {
      PositionStep(s, t, GetUndo(h, s.head), h);
    }
  }

  lemma Popped(s: State, s1: State, h: nat)
    requires Shape(s) && Shape(s1) && ListOk(s) && s.head == Node(h) && h < |s.refs| && |s1.refs| == |s.refs|
    requires s1.head == s.next[h] && s1.list == (if s.list == [] then [] else s.list[1..])
          && s1.role == s.role[h := s1.role[h]] && s1.next == s.next
    requires !s1.role[h].OnList?
    ensures ListOk(s1) && s.role[h].OnList?
  {
    assert s.list[0] == h && Linked(s, 0);
    forall i | 0 <= i < |s1.list| ensures Linked(s1, i) {
      assert s1.list[i] == s.list[i + 1] && Linked(s, i + 1);
    }
    forall m | 0 <= m < |s1.role| && s1.role[m].OnList? ensures m in s1.list {
      assert m in s.list;
      var i :| 0 <= i < |s.list| && s.list[i] == m;
      assert s1.list[i - 1] == m;
    }
  }

  lemma GetDecStep(s: State, t: nat, c: Choice)
    requires Inv(s) && t < |s.threads| && s.threads[t].GetDec?
    ensures Inv(Step(s, t, c))
  {
    hide ListOk;
    var s1 := Step(s, t, c);
    var h := s.threads[t].h;
    assert NodeOk(s, h) && PcOk(s, t);
    HoldersSet(s.threads, t, s1.threads[t], h);
    HoldersAt(s.threads, t, h);
    OneDuty(s, s1, t, h);
    StepKept(s, s1, t, s1.threads[t], h);
  }

  lemma GetUndoStep(s: State, t: nat, c: Choice)
    requires Inv(s) && t < |s.threads| && s.threads[t].GetUndo?
    ensures Inv(Step(s, t, c))
  {
    hide ListOk, Holders;
    var s1 := Step(s, t, c);
    var h := s.threads[t].h;
    assert NodeOk(s, h) && PcOk(s, t) && RoleOk(s, h);
    assert Look(s.threads[t].cur).Idle? || Look(s.threads[t].cur).GetRefs?;
    HoldersSet(s.threads, t, s1.threads[t], h);
    HoldersAt(s.threads, t, h);
    HoldersBound(s.threads, h);
    OneDuty(s, s1, t, h);
    StepKept(s, s1, t, s1.threads[t], h);
  }

  /** Every atomic access of every thread keeps the invariant. */
  lemma StepInv(s: State, t: nat, c: Choice)
    requires Inv(s) && t < |s.threads|
    ensures Inv(Step(s, t, c))
  {
    hide Step, Inv;
    ShapeOf(s);
    match s.threads[t]
    case Idle => IdleStep(s, t, c);
    case AddFlag(_) => AddFlagStep(s, t, c);
    case AddLoad(_, _) => AddPrepareStep(s, t, c);
    case AddNext(_, _, _) => AddPrepareStep(s, t, c);
    case AddRefs(_, _, _) => AddPrepareStep(s, t, c);
    case AddCas(_, _, _) => AddCasStep(s, t, c);
    case AddUndo(_, _, _) => AddUndoStep(s, t, c);
    case GetHead => GetLookStep(s, t, c);
    case GetRefs(_) => GetLookStep(s, t, c);
    case GetInc(_, _) => GetIncStep(s, t, c);
    case GetNext(_) => GetLookStep(s, t, c);
    case GetCas(_, _) => GetCasStep(s, t, c);
    case GetCheck(_) => GetLookStep(s, t, c);
    case GetDec(_) => GetDecStep(s, t, c);
    case GetUndo(_, _) => GetUndoStep(s, t, c);
  }

  lemma ShapeOf(s: State)
    requires Inv(s)
    ensures Shape(s)
  {}

  // ---------------------------------------------------------------- runs

  /** All nodes belong to clients, none is on the list. */
  function Start(nodes: nat, threads: nat): State {
    State(seq(nodes, _ => 0), seq(nodes, _ => Null), Null, seq(threads, _ => Idle), seq(nodes, _ => Owned), [])
  }

  lemma {:induction false} NoHolders(threads: seq<Pc>, n: nat)
    requires forall t :: 0 <= t < |threads| ==> threads[t].Idle?
    ensures Holders(threads, n) == 0
  {
    if threads != [] { NoHolders(threads[..|threads| - 1], n); }
  }

  datatype Move = Move(t: nat, c: Choice)

  ghost predicate Reachable(s: State, nodes: nat, threads: nat, run: seq<Move>)
    decreases |run|
  {
    if run == [] then s == Start(nodes, threads)
    else
      var m := run[|run| - 1];
      exists s0 :: Reachable(s0, nodes, threads, run[..|run| - 1]) && Shape(s0) && m.t < |s0.threads|
        && s == Step(s0, m.t, m.c)
  }

  lemma {:induction false} RunInv(s: State, nodes: nat, threads: nat, run: seq<Move>)
    requires threads < FLAG - 1 && Reachable(s, nodes, threads, run)
    ensures Inv(s) && |s.threads| == threads && |s.refs| == nodes
    decreases |run|
  {
    hide Step;
    if run == [] {
      forall n | 0 <= n < |s.refs| ensures NodeOk(s, n) { NoHolders(s.threads, n); }
    } else {
      var m := run[|run| - 1];
      var s0 :| Reachable(s0, nodes, threads, run[..|run| - 1]) && Shape(s0) && m.t < |s0.threads|
        && s == Step(s0, m.t, m.c);
      RunInv(s0, nodes, threads, run[..|run| - 1]);
      StepInv(s0, m.t, m.c);
      Sizes(s0, m.t, m.c);
    }
  }

  lemma Sizes(s: State, t: nat, c: Choice)
    requires Shape(s) && t < |s.threads|
    ensures |Step(s, t, c).threads| == |s.threads| && |Step(s, t, c).refs| == |s.refs|
  {}

  /** The nodes on the list are distinct, and are exactly those nobody owns, takes or adds. */
  ghost predicate ListOnce(s: State) {
    && (forall i, j :: 0 <= i < j < |s.list| ==> s.list[i] != s.list[j])
    && forall n :: 0 <= n < |s.role| ==> (n in s.list <==> s.role[n].OnList?)
  }

  /** An exchange of the head that is about to succeed installs the current link of the first node. */
  ghost predicate NoAba(s: State) {
    forall t :: 0 <= t < |s.threads| && s.threads[t].GetCas? && s.head == Node(s.threads[t].h) ==>
      s.list != [] && s.list[0] == s.threads[t].h < |s.next|
        && s.threads[t].next == s.next[s.threads[t].h] == After(s.list, 0)
  }

  /** The source's assertion on the flag. */
  ghost predicate FlagClear(s: State) {
    forall t :: 0 <= t < |s.threads| && s.threads[t].GetCheck? ==> s.threads[t].h < |s.refs|
                                                                   && s.refs[s.threads[t].h] < FLAG
  }

  /** A flagged node still has a thread looking at it. */
  ghost predicate FlaggedHeld(s: State) {
    |s.role| == |s.refs| && forall n :: 0 <= n < |s.role| && s.role[n].Flagged? ==>
        s.refs[n] >= FLAG + 1 && Holders(s.threads, n) >= 1
  }

  /** In every state of every run the list is sound, no exchange suffers from ABA, the assertion holds, and no
      node is forgotten. */
  lemma FreeListSafe(s: State, nodes: nat, threads: nat, run: seq<Move>)
    requires threads < FLAG - 1 && Reachable(s, nodes, threads, run)
    ensures ListOnce(s) && NoAba(s) && FlagClear(s) && FlaggedHeld(s)
  {
    hide ListOnce, NoAba, FlagClear, FlaggedHeld, Inv;
    RunInv(s, nodes, threads, run);
    ListSafe(s);
    FlagSafe(s);
    CasSafe(s);
  }

  lemma ListSafe(s: State)
    requires Inv(s)
    ensures ListOnce(s)
  {
    forall n | n in s.list ensures n < |s.role| && s.role[n].OnList? {
      var i :| 0 <= i < |s.list| && s.list[i] == n;
      assert Linked(s, i);
    }
  }

  lemma FlagSafe(s: State)
    requires Inv(s)
    ensures FlagClear(s) && FlaggedHeld(s)
  {
    hide ListOk;
    forall t | 0 <= t < |s.threads| && s.threads[t].GetCheck? ensures s.refs[s.threads[t].h] < FLAG {
      assert PcOk(s, t) && NodeOk(s, s.threads[t].h);
      HoldersBound(s.threads, s.threads[t].h);
    }
    forall n | 0 <= n < |s.role| && s.role[n].Flagged? ensures s.refs[n] >= FLAG + 1 && Holders(s.threads, n) >= 1 {
      assert NodeOk(s, n);
    }
  }

  lemma CasSafe(s: State)
    requires Inv(s)
    ensures NoAba(s)
  {
    forall t | 0 <= t < |s.threads| && s.threads[t].GetCas? && s.head == Node(s.threads[t].h)
      ensures s.threads[t].next == s.next[s.threads[t].h] == After(s.list, 0)
    {
      assert PcOk(s, t) && Linked(s, 0);
    }
  }

  /** Nobody gets a node that somebody else has: what `try_get` returns was on the list, and is there no more. */
  lemma TakenOnce(s: State, t: nat, c: Choice)
    requires Inv(s) && t < |s.threads| && s.threads[t].GetCas? && s.head == Node(s.threads[t].h)
    ensures var h, s1 := s.threads[t].h, Step(s, t, c);
      s.role[h].OnList? && s1.role[h] == Taken(t) && h !in s1.list && s1.list == s.list[1..]
  {
    assert PcOk(s, t) && Linked(s, 0);
  }

  /** When the last thread looking at a flagged node leaves it, that thread puts it on the list. */
  lemma LastAdds(s: State, t: nat, c: Choice)
    requires Inv(s) && t < |s.threads| && s.threads[t].GetUndo? && s.role[s.threads[t].h].Flagged?
          && Holders(s.threads, s.threads[t].h) == 1
    ensures var h, s1 := s.threads[t].h, Step(s, t, c); s1.role[h] == Adding(t)
                                                        && s1.threads[t] == AddLoad(h, GoOn(s.threads[t].cur))
  {
    assert NodeOk(s, s.threads[t].h);
  }

  // ---------------------------------------------------------------- what the operations achieve

  /** The states of a run, one after each access. */
  ghost predicate Trace(states: seq<State>, nodes: nat, threads: nat, run: seq<Move>) {
    && |states| == |run| + 1 && threads < FLAG - 1 && states[0] == Start(nodes, threads)
    && forall i :: 0 <= i < |run| ==> Follows(states[i], run[i], states[i + 1])
  }

  ghost predicate Follows(s: State, m: Move, s1: State) {
    Shape(s) && m.t < |s.threads| && s1 == Step(s, m.t, m.c)
  }

  lemma {:induction false} TraceInv(states: seq<State>, nodes: nat, threads: nat, run: seq<Move>, i: nat)
    requires Trace(states, nodes, threads, run) && i < |states|
    ensures Inv(states[i]) && |states[i].threads| == threads
  {
    hide Step, Inv;
    if i == 0 {
      assert Reachable(states[0], nodes, threads, []);
      RunInv(states[0], nodes, threads, []);
    } else {
      TraceInv(states, nodes, threads, run, i - 1);
      assert Follows(states[i - 1], run[i - 1], states[i]);
      StepInv(states[i - 1], run[i - 1].t, run[i - 1].c);
      Sizes(states[i - 1], run[i - 1].t, run[i - 1].c);
    }
  }

  /** In a call of `try_get`, which includes putting back a node that others left. */
  predicate InGet(pc: Pc) {
    match pc
    case Idle => false
    case AddFlag(_) => false
    case AddLoad(_, k) => k.GoOn?
    case AddNext(_, _, k) => k.GoOn?
    case AddRefs(_, _, k) => k.GoOn?
    case AddCas(_, _, k) => k.GoOn?
    case AddUndo(_, _, k) => k.GoOn?
    case _ => true
  }

  /** The call has seen a null head and is about to return null. */
  predicate SawNull(pc: Pc) {
    match pc
    case GetUndo(_, cur) => cur.Null?
    case AddLoad(_, k) => k == GoOn(Null)
    case AddNext(_, _, k) => k == GoOn(Null)
    case AddRefs(_, _, k) => k == GoOn(Null)
    case AddCas(_, _, k) => k == GoOn(Null)
    case AddUndo(_, _, k) => k == GoOn(Null)
    case _ => false
  }

  /** One access of a call: it goes on, or returns a node, or returns null; a null head was seen in this very access or
      before. */
  lemma GetGoesOn(s: State, t: nat, c: Choice)
    requires Inv(s) && t < |s.threads| && InGet(s.threads[t])
    ensures var pc := Step(s, t, c).threads[t];
      && (pc.Idle? && !s.threads[t].GetDec? ==> SawNull(s.threads[t]) || s.list == [])
      && (SawNull(pc) ==> SawNull(s.threads[t]) || s.list == [])
      && (s.threads[t].GetDec? ==> pc.Idle? && Step(s, t, c).role[s.threads[t].h] == Owned)
      && (!pc.Idle? ==> InGet(pc))
  {
    assert ListOk(s);
  }

  lemma OthersStay(s: State, u: nat, c: Choice, t: nat)
    requires Shape(s) && u < |s.threads| && t < |s.threads| && t != u
    ensures t < |Step(s, u, c).threads| && Step(s, u, c).threads[t] == s.threads[t]
  {}

  /** A call that has seen a null head read it at an access at which the list was empty. */
  lemma {:induction false} SawEmpty(states: seq<State>, nodes: nat, threads: nat, run: seq<Move>, i: nat, t: nat)
      returns (k: nat)
    requires Trace(states, nodes, threads, run) && i < |states| && t < threads
    requires t < |states[i].threads| && SawNull(states[i].threads[t])
    ensures k < i && run[k].t == t && states[k].list == []
    ensures forall j :: k <= j <= i ==> t < |states[j].threads| && InGet(states[j].threads[t])
  {
    hide Step, Inv, SawNull, InGet;
    if i == 0 {
      assert states[0].threads[t].Idle?;
      NotIdle(states[0].threads[t]);
      assert false;
    } else {
      TraceInv(states, nodes, threads, run, i - 1);
      ShapeOf(states[i - 1]);
      assert Follows(states[i - 1], run[i - 1], states[i]);
      NotIdle(states[i].threads[t]);
      if run[i - 1].t != t {
        OthersStay(states[i - 1], run[i - 1].t, run[i - 1].c, t);
        k := SawEmpty(states, nodes, threads, run, i - 1, t);
      } else {
        EntersGet(states[i - 1], t, run[i - 1].c);
        GetGoesOn(states[i - 1], t, run[i - 1].c);
        if SawNull(states[i - 1].threads[t]) {
          k := SawEmpty(states, nodes, threads, run, i - 1, t);
        } else {
          k := i - 1;
        }
      }
    }
  }

  lemma NotIdle(pc: Pc)
    requires SawNull(pc)
    ensures InGet(pc) && !pc.Idle?
  {}

  lemma EntersGet(s: State, t: nat, c: Choice)
    requires Shape(s) && t < |s.threads| && SawNull(Step(s, t, c).threads[t])
    ensures InGet(s.threads[t])
  {}

  /** In every run `try_get` comes back empty-handed only if the list was empty at one of its own accesses. */
  lemma NullMeansEmpty(states: seq<State>, nodes: nat, threads: nat, run: seq<Move>, i: nat) returns (k: nat)
    requires Trace(states, nodes, threads, run) && i < |run| && run[i].t < threads
    requires var t := run[i].t;
      && t < |states[i].threads| && t < |states[i + 1].threads|
      && InGet(states[i].threads[t]) && !states[i].threads[t].GetDec? && states[i + 1].threads[t].Idle?
    ensures k <= i && run[k].t == run[i].t && states[k].list == []
    ensures forall j :: k <= j <= i ==>
              run[i].t < |states[j].threads| && InGet(states[j].threads[run[i].t])
  {
    hide Step, Inv, SawNull, InGet;
    TraceInv(states, nodes, threads, run, i);
    assert Follows(states[i], run[i], states[i + 1]);
    GetGoesOn(states[i], run[i].t, run[i].c);
    if SawNull(states[i].threads[run[i].t]) {
      k := SawEmpty(states, nodes, threads, run, i, run[i].t);
    } else {
      k := i;
    }
  }

  /** The state after `k` accesses of thread `t` alone, wherever the others have stopped. */
  ghost function Solo(s: State, t: nat, c: Choice, k: nat): (r: State)
    requires Inv(s) && t < |s.threads|
    ensures Inv(r) && |r.threads| == |s.threads| && |r.refs| == |s.refs|
  {
    if k == 0 then s
    else
      var r := Solo(s, t, c, k - 1);
      StepInv(r, t, c);
      Sizes(r, t, c);
      Step(r, t, c)
  }

  lemma SoloNext(s: State, t: nat, c: Choice, k: nat)
    requires Inv(s) && t < |s.threads|
    ensures Shape(Solo(s, t, c, k)) && Solo(s, t, c, k + 1) == Step(Solo(s, t, c, k), t, c)
  {}

  /** `try_get` of a thread that runs alone, wherever the others have stopped: it takes the first node of the list and
      owns it, or returns null, and only from an empty list. */
  lemma GetAlone(s: State, t: nat)
    requires Inv(s) && t < |s.threads| && s.threads[t].Idle?
    ensures s.list == [] ==> Solo(s, t, StartGet, 2) == s
    ensures s.list != [] ==>
              var r, n := Solo(s, t, StartGet, 8), s.list[0];
              && n < |r.role| && r.role[n] == Owned && r.list == s.list[1..]
              && r.threads == s.threads && r.role == s.role[n := Owned]
  {
    hide Inv, Solo;
    FirstNode(s);
    SoloStart(s, t, StartGet);
    SoloNext(s, t, StartGet, 0);
    SoloNext(s, t, StartGet, 1);
    if s.list != [] {
      var h := s.list[0];
      assert Solo(s, t, StartGet, 2) == At(s, t, GetRefs(h));
      GetAloneOn(s, t, h);
    } else {
      assert s.threads[t := GetHead][t := Idle] == s.threads;
      assert Solo(s, t, StartGet, 2) == At(At(s, t, GetHead), t, Idle);
    }
  }

  lemma GetAloneOn(s: State, t: nat, h: nat)
    requires Inv(s) && t < |s.threads| && s.threads[t].Idle? && Solo(s, t, StartGet, 2) == At(s, t, GetRefs(h))
    requires s.list != [] && h == s.list[0] < |s.refs| && s.head == Node(h) && 0 < s.refs[h] < FLAG
          && |s.role| == |s.refs| == |s.next|
    ensures var r := Solo(s, t, StartGet, 8);
      && h < |r.role| && r.list == s.list[1..] && r.threads == s.threads && r.role == s.role[h := Owned]
  {
    hide Inv, Solo, Step;
    SoloNext(s, t, StartGet, 2);
    SoloNext(s, t, StartGet, 3);
    SoloNext(s, t, StartGet, 4);
    SoloNext(s, t, StartGet, 5);
    SoloNext(s, t, StartGet, 6);
    SoloNext(s, t, StartGet, 7);
    ShapeOf(s);
    GetLocks(s, t, h);
    GetPops(s, t, h);
  }

  lemma GetLocks(s: State, t: nat, h: nat)
    requires Shape(s) && t < |s.threads| && h < |s.refs| && 0 < s.refs[h] < FLAG
    ensures var s2, s3 := At(s, t, GetRefs(h)), At(s, t, GetInc(h, s.refs[h]));
      && Shape(s2) && Step(s2, t, StartGet) == s3 && Shape(s3)
      && Step(s3, t, StartGet) == At(s.(refs := s.refs[h := s.refs[h] + 1]), t, GetNext(h))
  {
    var s3 := At(s, t, GetInc(h, s.refs[h]));
    assert s3.threads[t := GetNext(h)] == s.threads[t := GetNext(h)];
  }

  lemma GetPops(s: State, t: nat, h: nat)
    requires Shape(s) && t < |s.threads| && s.threads[t].Idle? && h < |s.refs| && s.head == Node(h) && s.list != []
    ensures var u := s.(refs := s.refs[h := s.refs[h] + 1]);
      var s4, s5 := At(u, t, GetNext(h)), At(u, t, GetCas(h, s.next[h]));
      var v := u.(head := s.next[h], role := s.role[h := Taken(t)], list := s.list[1..]);
      var s6, s7 := At(v, t, GetCheck(h)), At(v, t, GetDec(h));
      && Shape(s4) && Step(s4, t, StartGet) == s5 && Shape(s5) && Step(s5, t, StartGet) == s6
      && Shape(s6) && Step(s6, t, StartGet) == s7 && Shape(s7)
      && Step(s7, t, StartGet).threads == s.threads && Step(s7, t, StartGet).role == s.role[h := Owned]
      && Step(s7, t, StartGet).list == s.list[1..]
  {
    var u := s.(refs := s.refs[h := s.refs[h] + 1]);
    ShapeAt(u, t, GetNext(h));
    ShapeAt(u, t, GetCas(h, s.next[h]));
    AtTwice(u, t, GetNext(h), GetCas(h, s.next[h]));
    var v := u.(head := s.next[h], role := s.role[h := Taken(t)], list := s.list[1..]);
    AtTwice(v, t, GetCas(h, s.next[h]), GetCheck(h));
    GetDone(v, t, h);
    assert s.role[h := Taken(t)][h := Owned] == s.role[h := Owned];
  }

  lemma ShapeAt(s: State, t: nat, pc: Pc)
    requires Shape(s) && t < |s.threads| && PcIn(pc, |s.refs|)
    ensures Shape(At(s, t, pc))
  {}

  lemma AtTwice(s: State, t: nat, pc: Pc, pc1: Pc)
    requires t < |s.threads|
    ensures At(At(s, t, pc), t, pc1) == At(s, t, pc1)
  {
    assert s.threads[t := pc][t := pc1] == s.threads[t := pc1];
  }

  /** The end of a `try_get` that took a node. */
  lemma GetDone(v: State, t: nat, h: nat)
    requires Shape(v) && t < |v.threads| && v.threads[t].Idle? && h < |v.refs|
    ensures var s6, s7 := At(v, t, GetCheck(h)), At(v, t, GetDec(h));
      && Shape(s6) && Step(s6, t, StartGet) == s7 && Shape(s7)
      && Step(s7, t, StartGet).threads == v.threads && Step(s7, t, StartGet).role == v.role[h := Owned]
      && Step(s7, t, StartGet).list == v.list
  {
    ShapeAt(v, t, GetCheck(h));
    ShapeAt(v, t, GetDec(h));
    AtTwice(v, t, GetCheck(h), GetDec(h));
    assert v.threads[t := GetDec(h)][t := Idle] == v.threads;
  }

  lemma SoloStart(s: State, t: nat, c: Choice)
    requires Inv(s) && t < |s.threads|
    ensures Solo(s, t, c, 0) == s
  {}

  lemma FirstNode(s: State)
    requires Inv(s)
    ensures |s.role| == |s.refs| == |s.next|
    ensures if s.list == [] then s.head == Null
            else s.list[0] < |s.refs| && s.head == Node(s.list[0]) && 0 < s.refs[s.list[0]] < FLAG
  {
    hide NodeOk;
    if s.list != [] {
      assert Linked(s, 0);
      CountOk(s, s.list[0]);
    }
  }

  lemma CountOk(s: State, n: nat)
    requires Inv(s) && n < |s.refs|
    ensures s.role[n].OnList? ==> 0 < s.refs[n] < FLAG
    ensures s.role[n].Owned? ==> s.refs[n] == Holders(s.threads, n)
  {
    hide ListOk;
    assert NodeOk(s, n);
    HoldersBound(s.threads, n);
  }

  /** `add` of a thread that runs alone, wherever the others have stopped: the node goes to the head of the list, or, if
      somebody still looks at it, is left to the last who does. */
  lemma AddAlone(s: State, t: nat, n: nat)
    requires Inv(s) && t < |s.threads| && s.threads[t].Idle? && n < |s.role| && s.role[n].Owned?
    ensures Holders(s.threads, n) == 0 ==>
              var r := Solo(s, t, StartAdd(n), 6);
              r.list == [n] + s.list && r.role == s.role[n := OnList] && r.threads == s.threads
    ensures Holders(s.threads, n) > 0 ==>
              var r := Solo(s, t, StartAdd(n), 2);
              r.list == s.list && r.role == s.role[n := Flagged] && r.threads == s.threads
  {
    hide Inv, Solo, Holders, Step;
    FirstNode(s);
    CountOk(s, n);
    var c := StartAdd(n);
    SoloStart(s, t, c);
    SoloNext(s, t, c, 0);
    SoloNext(s, t, c, 1);
    AddFlags(s, t, n);
    if s.refs[n] == 0 {
      SoloNext(s, t, c, 2);
      SoloNext(s, t, c, 3);
      SoloNext(s, t, c, 4);
      SoloNext(s, t, c, 5);
      ShapeOf(s);
      var u := s.(refs := s.refs[n := s.refs[n] + FLAG], role := s.role[n := Adding(t)]);
      AddLinks(u, t, n);
      assert u.threads[t := Idle] == s.threads;
      assert s.role[n := Adding(t)][n := OnList] == s.role[n := OnList];
    }
  }

  lemma AddFlags(s: State, t: nat, n: nat)
    requires Inv(s) && t < |s.threads| && s.threads[t].Idle? && n < |s.role| == |s.refs| && s.role[n].Owned?
    ensures var c, r := StartAdd(n), s.(refs := s.refs[n := s.refs[n] + FLAG]);
      var s1 := Step(s, t, c);
      && Shape(s) && Shape(s1)
      && Step(s1, t, c).list == s.list
      && (s.refs[n] > 0 ==> Step(s1, t, c).role == s.role[n := Flagged] && Step(s1, t, c).threads == s.threads)
      && (s.refs[n] == 0 ==> Step(s1, t, c) == At(r.(role := s.role[n := Adding(t)]), t, AddLoad(n, Return)))
  {
    hide Inv;
    ShapeOf(s);
    assert s.threads[t := AddFlag(n)][t := AddLoad(n, Return)] == s.threads[t := AddLoad(n, Return)];
    assert s.threads[t := AddFlag(n)][t := Idle] == s.threads;
    assert s.role[n := Offered(t)][n := Adding(t)] == s.role[n := Adding(t)];
    assert s.role[n := Offered(t)][n := Flagged] == s.role[n := Flagged];
  }

  lemma AddLinks(s: State, t: nat, n: nat)
    requires Shape(s) && t < |s.threads| && n < |s.refs|
    ensures var c := StartAdd(n);
      var s2, s3 := At(s, t, AddLoad(n, Return)), At(s, t, AddNext(n, s.head, Return));
      var u := s.(next := s.next[n := s.head]);
      var v := u.(refs := s.refs[n := 1], role := s.role[n := Publishing(t)]);
      var s4, s5 := At(u, t, AddRefs(n, s.head, Return)), At(v, t, AddCas(n, s.head, Return));
      && Shape(s2) && Step(s2, t, c) == s3 && Shape(s3) && Step(s3, t, c) == s4
      && Shape(s4) && Step(s4, t, c) == s5 && Shape(s5)
      && Step(s5, t, c).threads == s.threads[t := Idle] && Step(s5, t, c).list == [n] + s.list
      && Step(s5, t, c).role == s.role[n := OnList]
  {
    var s3 := At(s, t, AddNext(n, s.head, Return));
    assert s.threads[t := AddLoad(n, Return)][t := AddNext(n, s.head, Return)] == s3.threads;
    assert s3.threads[t := AddRefs(n, s.head, Return)] == s.threads[t := AddRefs(n, s.head, Return)];
    assert s.threads[t := AddRefs(n, s.head, Return)][t := AddCas(n, s.head, Return)] ==
      s.threads[t := AddCas(n, s.head, Return)];
    assert s.threads[t := AddCas(n, s.head, Return)][t := Idle] == s.threads[t := Idle];
    assert s.role[n := Publishing(t)][n := OnList] == s.role[n := OnList];
  }

  /** The node a call of `add` is about. */
  predicate Puts(pc: Pc, n: nat) {
    match pc
    case AddFlag(x) => x == n
    case AddLoad(x, k) => x == n && k.Return?
    case AddNext(x, _, k) => x == n && k.Return?
    case AddRefs(x, _, k) => x == n && k.Return?
    case AddCas(x, _, k) => x == n && k.Return?
    case AddUndo(x, _, k) => x == n && k.Return?
    case _ => false
  }

  /** In every run `add` goes on until the node is on the list, or somebody who still looks at it is left to put it
      there. */
  lemma AddReturns(s: State, t: nat, c: Choice, n: nat)
    requires Inv(s) && t < |s.threads| && Puts(s.threads[t], n)
    ensures var s1 := Step(s, t, c);
      && n < |s1.role| && (Puts(s1.threads[t], n) || s1.threads[t].Idle?)
      && (s1.threads[t].Idle? ==>
            (s1.role[n].OnList? && s1.list == [n] + s.list) || (s1.role[n].Flagged? && Holders(s1.threads, n) > 0))
  {
    StepInv(s, t, c);
    var s1 := Step(s, t, c);
    assert NodeOk(s1, n);
  }
}
