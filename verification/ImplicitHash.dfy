/** The table from thread ids to implicit producers: every interleaving of lookups, insertions, resizes and lazy
    migration by any number of threads, one access at a time. */
module ImplicitHash {

  datatype Key = Empty | Id(t: nat)

  datatype Value = None | Producer(p: nat)

  datatype Table = Table(keys: seq<Key>, vals: seq<Value>)

  datatype Lock = Open | HeldBy(t: nat)

  datatype Pc =
    | Idle
    | Look(main: nat, cur: nat, k: nat)              // load the key of the k-th slot probed in table `cur`
    | Count(main: nat)                               // fetch_add on the id count
    | Check(main: nat, n: nat)                       // half full: try to take the resize lock
    | Locked(n: nat)                                 // reload the main table
    | Grow(main: nat, n: nat)                        // allocate and publish a bigger table
    | Unlock(main: nat, n: nat)
    | Room(main: nat, n: nat)                        // less than three quarters full: make the producer
    | Place(main: nat, k: nat, p: nat, made: bool)   // load the key of the k-th slot probed for insertion
    | PlaceCas(main: nat, k: nat, p: nat, made: bool)
    | PlaceStore(main: nat, k: nat, p: nat, made: bool)

  /** Tables from the oldest to the newest, which is the main one; thread `t` has id `t` and hash `hash[t]`. History:
      the count each id drew, the producer made for it, and the table and probe where it was first put. */
  datatype State = State(tables: seq<Table>, count: nat, lock: Lock, threads: seq<Pc>, hash: seq<nat>, producers: nat,
                         num: map<nat, nat>, made: map<nat, nat>, home: map<nat, (nat, nat)>, rets: seq<(nat, Value)>)

  function Slot(h: nat, k: nat, cap: nat): (i: nat)
    requires cap > 0
    ensures i < cap
  {
    (h + k) % cap
  }

  function Limit(cap: nat): nat { cap / 2 + cap / 4 }

  function Bigger(n: nat, cap: nat): (c: nat)
    requires cap > 0
    ensures n < c / 2 && cap <= c
    decreases if n >= cap / 2 then 2 * n + 2 - cap else 0
  {
    if n >= cap / 2 then Bigger(n, 2 * cap) else cap
  }

  function NewTable(cap: nat): Table {
    Table(seq(cap, _ => Empty), seq(cap, _ => None))
  }

  ghost predicate Shape(s: State) {
    && |s.hash| == |s.threads| && s.tables != []
    && forall x :: 0 <= x < |s.tables| ==> TableShape(s.tables[x])
  }

  ghost predicate TableShape(b: Table) {
    0 < |b.keys| == |b.vals|
  }

  function Cap(s: State, x: nat): nat
    requires x < |s.tables|
  {
    |s.tables[x].keys|
  }

  ghost predicate Mains(s: State) {
    && Shape(s)
    && forall t :: 0 <= t < |s.threads| ==> MainIn(s.threads[t], |s.tables|)
  }

  predicate MainIn(pc: Pc, n: nat) {
    match pc
    case Idle => true
    case Locked(_) => true
    case Look(main, cur, _) => main < n && cur <= main
    case Count(main) => main < n
    case Check(main, _) => main < n
    case Grow(main, _) => main < n
    case Unlock(main, _) => main < n
    case Room(main, _) => main < n
    case Place(main, _, _, _) => main < n
    case PlaceCas(main, _, _, _) => main < n
    case PlaceStore(main, _, _, _) => main < n
  }

  function At(s: State, t: nat, pc: Pc): State
    requires t < |s.threads|
  {
    s.(threads := s.threads[t := pc])
  }

  function Return(s: State, t: nat, v: Value): State
    requires t < |s.threads|
  {
    At(s.(rets := s.rets + [(t, v)]), t, Idle)
  }

  function SetKey(s: State, x: nat, i: nat, t: nat): State
    requires Shape(s) && x < |s.tables| && i < Cap(s, x)
  {
    s.(tables := s.tables[x := s.tables[x].(keys := s.tables[x].keys[i := Id(t)])])
  }

  function SetVal(s: State, x: nat, i: nat, p: nat): State
    requires Shape(s) && x < |s.tables| && i < Cap(s, x)
  {
    s.(tables := s.tables[x := s.tables[x].(vals := s.tables[x].vals[i := Producer(p)])])
  }

  ghost function KeyAt(s: State, t: nat, x: nat, k: nat): Key
    requires Shape(s) && t < |s.threads| && x < |s.tables|
  {
    s.tables[x].keys[Slot(s.hash[t], k, Cap(s, x))]
  }

  /** One access of thread `t` in `get_or_add_implicit_producer` (concurrentqueue.h 3374-3524). */
  ghost function Step(s: State, t: nat): State
    requires Mains(s) && t < |s.threads|
  {
    var last := |s.tables| - 1;
    match s.threads[t]
    case Idle => At(s, t, Look(last, last, 0))
    case Look(main, cur, k) =>
      var i := Slot(s.hash[t], k, Cap(s, cur));
      var key := s.tables[cur].keys[i];
      if key == Id(t) then
        var v := s.tables[cur].vals[i];
        if cur == main || v.None? then Return(s, t, v) else At(s, t, Place(main, 0, v.p, false))
      else if key.Empty? then At(s, t, if cur == 0 then Count(main) else Look(main, cur - 1, 0))
      else At(s, t, Look(main, cur, k + 1))
    case Count(main) => At(s.(count := s.count + 1, num := s.num[t := s.count + 1]), t, Check(main, s.count + 1))
    case Check(main, n) =>
      if n >= Cap(s, main) / 2 && s.lock.Open? then At(s.(lock := HeldBy(t)), t, Locked(n)) else At(s, t, Room(main, n))
    case Locked(n) => At(s, t, if n >= Cap(s, last) / 2 then Grow(last, n) else Unlock(last, n))
    case Grow(main, n) => At(s.(tables := s.tables + [NewTable(Bigger(n, 2 * Cap(s, main)))]), t, Unlock(|s.tables|, n))
    case Unlock(main, n) => At(s.(lock := Open), t, Room(main, n))
    case Room(main, n) =>
      if n < Limit(Cap(s, main)) then
        At(s.(producers := s.producers + 1, made := s.made[t := s.producers]), t, Place(main, 0, s.producers, true))
      else At(s, t, Check(last, n))
    case Place(main, k, p, made) => At(s, t, if KeyAt(s, t, main, k).Empty? then PlaceCas(main, k, p, made)
                                       else Place(main, k + 1, p, made))
    case PlaceCas(main, k, p, made) =>
      if KeyAt(s, t, main, k).Empty? then
        var s1 := SetKey(s, main, Slot(s.hash[t], k, Cap(s, main)), t);
        At(if made then s1.(home := s1.home[t := (main, k)]) else s1, t, PlaceStore(main, k, p, made))
      else At(s, t, Place(main, k + 1, p, made))
    case PlaceStore(main, k, p, _) => Return(SetVal(s, main, Slot(s.hash[t], k, Cap(s, main)), p), t, Producer(p))
  }

  ghost predicate Initial(s: State) {
    && |s.hash| == |s.threads| && |s.tables| == 1 && TableShape(s.tables[0]) && s.lock.Open?
    && (forall i :: 0 <= i < |s.tables[0].keys| ==> s.tables[0].keys[i].Empty?)
    && (forall t :: 0 <= t < |s.threads| ==> s.threads[t].Idle?)
    && s.count == s.producers == 0 && s.num == map[] && s.made == map[] && s.home == map[] && s.rets == []
  }

  // ---------------------------------------------------------------- invariant

  /** The first `k` slots probed for id `t` in table `x` are taken by other ids. */
  ghost predicate Passed(s: State, t: nat, x: nat, k: nat)
    requires Shape(s) && t < |s.threads| && x < |s.tables|
  {
    forall j :: 0 <= j < k ==> KeyAt(s, t, x, j).Id? && KeyAt(s, t, x, j) != Id(t)
  }

  ghost predicate Absent(s: State, t: nat, x: nat)
    requires x < |s.tables|
  {
    forall i :: 0 <= i < Cap(s, x) ==> s.tables[x].keys[i] != Id(t)
  }

  predicate Storing(pc: Pc, x: nat, i: nat, h: nat, cap: nat)
    requires cap > 0
  {
    pc.PlaceStore? && pc.main == x && Slot(h, pc.k, cap) == i
  }

  /** An id in slot `i` of table `x` drew a count within the table's limit, stands behind slots that are all taken,
      and has its producer beside it, unless its thread is just about to store it. */
  ghost predicate SlotOk(s: State, x: nat, i: nat)
    requires Shape(s) && x < |s.tables| && i < Cap(s, x)
  {
    s.tables[x].keys[i].Id? ==>
      var t := s.tables[x].keys[i].t;
      && t < |s.threads| && t in s.home && t in s.num && t in s.made && s.num[t] < Limit(Cap(s, x))
      && (s.tables[x].vals[i] == Producer(s.made[t]) || Storing(s.threads[t], x, i, s.hash[t], Cap(s, x)))
      && forall k :: 0 <= k && Slot(s.hash[t], k, Cap(s, x)) == i && k < Cap(s, x) ==> Passed(s, t, x, k)
  }

  ghost predicate Stands(s: State, t: nat, x: nat, k: nat)
    requires Shape(s) && t < |s.threads|
  {
    x < |s.tables| && k < Cap(s, x) && KeyAt(s, t, x, k) == Id(t)
  }

  ghost predicate HomeOk(s: State, t: nat)
    requires Shape(s) && t < |s.threads|
  {
    && (t in s.home ==> t in s.made && Stands(s, t, s.home[t].0, s.home[t].1))
    && (t in s.made ==> t in s.num && s.made[t] < s.producers)
    && (t in s.num ==> 0 < s.num[t] <= s.count)
  }

  ghost predicate PcOk(s: State, t: nat)
    requires Mains(s) && t < |s.threads|
  {
    match s.threads[t]
    case Idle => t in s.num ==> t in s.home
    case Look(main, cur, k) =>
      && (t in s.num ==> t in s.home && s.home[t].0 <= cur) && Passed(s, t, cur, k)
      && (cur < main ==> Absent(s, t, main))
    case Count(main) => t !in s.num
    case Check(main, n) => t in s.num && s.num[t] == n && t !in s.made
    case Locked(n) => t in s.num && s.num[t] == n && t !in s.made && s.lock == HeldBy(t)
    case Grow(main, n) => t in s.num && s.num[t] == n && t !in s.made && s.lock == HeldBy(t) && main == |s.tables| - 1
    case Unlock(main, n) => t in s.num && s.num[t] == n && t !in s.made && s.lock == HeldBy(t)
    case Room(main, n) => t in s.num && s.num[t] == n && t !in s.made
    case Place(main, k, p, made) => PlaceOk(s, t, main, k, p, made)
    case PlaceCas(main, k, p, made) => PlaceOk(s, t, main, k, p, made)
    case PlaceStore(main, k, p, made) => t in s.made && s.made[t] == p && t in s.home && KeyAt(s, t, main, k) == Id(t)
  }

  ghost predicate PlaceOk(s: State, t: nat, main: nat, k: nat, p: nat, made: bool)
    requires Shape(s) && t < |s.threads| && main < |s.tables|
  {
    && t in s.made && s.made[t] == p && t in s.num && s.num[t] < Limit(Cap(s, main)) && (made <==> t !in s.home)
    && Absent(s, t, main) && Passed(s, t, main, k)
  }

  ghost predicate Growing(s: State) {
    forall x, y :: 0 <= x < y < |s.tables| ==> |s.tables[x].keys| < |s.tables[y].keys|
  }

  ghost predicate Distinct(m: map<nat, nat>) {
    forall t, u :: t in m && u in m && m[t] == m[u] ==> t == u
  }

  ghost predicate Below(m: map<nat, nat>, n: nat) {
    forall t :: t in m ==> m[t] < n
  }

  ghost predicate Slots(s: State)
    requires Shape(s)
  {
    forall x, i :: 0 <= x < |s.tables| && 0 <= i < |s.tables[x].keys| ==> SlotOk(s, x, i)
  }

  ghost predicate Pcs(s: State)
    requires Mains(s)
  {
    forall t :: 0 <= t < |s.threads| ==> PcOk(s, t)
  }

  ghost predicate Homes(s: State)
    requires Shape(s)
  {
    forall t :: 0 <= t < |s.threads| ==> HomeOk(s, t)
  }

  ghost predicate Rets(s: State) {
    forall i :: 0 <= i < |s.rets| ==> s.rets[i].0 in s.made && s.rets[i].1 == Producer(s.made[s.rets[i].0])
  }

  ghost predicate Maps(s: State) {
    Distinct(s.num) && Distinct(s.made) && Below(s.num, s.count + 1) && Below(s.made, s.producers)
  }

  ghost predicate Inv(s: State) {
    Mains(s) && Slots(s) && Pcs(s) && Homes(s) && Growing(s) && Maps(s) && Rets(s)
  }

  // ---------------------------------------------------------------- probing

  lemma SlotOnto(h: nat, cap: nat, i: nat) returns (k: nat)
    requires i < cap
    ensures k < cap && Slot(h, k, cap) == i
  {
    var r := h % cap;
    var q := h / cap;
    if r <= i {
      k := i - r;
      assert h + k == q * cap + i;
      Remainder(q, cap, i, h + k);
    } else {
      k := i + cap - r;
      assert h + k == q * cap + cap + i;
      assert q * cap + cap == (q + 1) * cap;
      Remainder(q + 1, cap, i, h + k);
    }
  }

  lemma Remainder(q: nat, cap: nat, i: nat, n: nat)
    requires i < cap && n == q * cap + i
    ensures n % cap == i
  {
    var d := n / cap;
    assert n == d * cap + n % cap;
    assert (q - d) * cap == n % cap - i;
    assert q - d >= 1 ==> (q - d) * cap >= cap;
    assert q - d <= -1 ==> (q - d) * cap + cap <= 0;
  }

  /** An id stands in at most one slot of a table. */
  lemma Once(s: State, x: nat, i: nat, j: nat)
    requires Mains(s) && Slots(s) && x < |s.tables| && i < Cap(s, x) && j < Cap(s, x)
    requires s.tables[x].keys[i].Id? && s.tables[x].keys[i] == s.tables[x].keys[j]
    ensures i == j
  {
    assert SlotOk(s, x, i) && SlotOk(s, x, j);
    var t := s.tables[x].keys[i].t;
    var a := SlotOnto(s.hash[t], Cap(s, x), i);
    var b := SlotOnto(s.hash[t], Cap(s, x), j);
    assert Passed(s, t, x, a) && Passed(s, t, x, b);
    assert KeyAt(s, t, x, a) == Id(t) && KeyAt(s, t, x, b) == Id(t);
  }

  ghost function Full(b: Table): set<nat> {
    set i: nat | i < |b.keys| && b.keys[i].Id?
  }

  /** A set with distinct weights in 1 .. n-1 has fewer than n elements. */
  lemma {:induction false} FewWeights(ids: set<nat>, w: map<nat, nat>, n: nat)
    requires ids <= w.Keys && forall i :: i in ids ==> 0 < w[i] < n
    requires forall i, j :: i in ids && j in ids && w[i] == w[j] ==> i == j
    ensures ids == {} || |ids| < n
  {
    if n > 1 {
      if i :| i in ids && w[i] == n - 1 {
        FewWeights(ids - {i}, w, n - 1);
        assert |ids - {i}| == |ids| - 1;
      } else {
        FewWeights(ids, w, n - 1);
      }
    } else if i :| i in ids {
      assert false;
    }
  }

  /** A table that holds ids holds fewer than three quarters of its capacity. */
  lemma Fits(s: State, x: nat)
    requires Inv(s) && x < |s.tables|
    ensures Full(s.tables[x]) == {} || |Full(s.tables[x])| < Limit(Cap(s, x))
  {
    hide PcOk, Growing;
    var b := s.tables[x];
    forall i | i in Full(b) ensures SlotOk(s, x, i) && HomeOk(s, b.keys[i].t) {
    }
    var w := map i | i in Full(b) :: s.num[b.keys[i].t];
    forall i, j | i in Full(b) && j in Full(b) && w[i] == w[j] ensures i == j {
      assert b.keys[i].t == b.keys[j].t;
      Once(s, x, i, j);
    }
    FewWeights(Full(b), w, Limit(Cap(s, x)));
  }

  lemma Range(n: nat) returns (r: set<nat>)
    ensures (forall i :: i in r <==> 0 <= i < n) && |r| == n
  {
    if n == 0 {
      r := {};
    } else {
      var q := Range(n - 1);
      r := q + {n - 1};
    }
  }

  /** Hence a probe never goes once round a table: every probe loop ends. */
  lemma ProbeShort(s: State, t: nat, x: nat, k: nat)
    requires Inv(s) && t < |s.threads| && x < |s.tables| && Passed(s, t, x, k)
    ensures k < Cap(s, x)
  {
    hide Pcs, Slots, Homes, Maps, Rets, Growing;
    if k >= Cap(s, x) {
      var b := s.tables[x];
      var all := Range(|b.keys|);
      forall i | i in all ensures i in Full(b) {
        var j := SlotOnto(s.hash[t], Cap(s, x), i);
        assert KeyAt(s, t, x, j).Id?;
      }
      assert Full(b) == all && 0 in all;
      Fits(s, x);
      assert false;
    }
  }

  // ---------------------------------------------------------------- steps

  /** `s1` differs from `s` only in what thread `t` may change: its own entries, new keys in empty slots, new tables. */
  ghost predicate Grows(s: State, s1: State, t: nat)
    requires Shape(s)
  {
    && Shape(s1) && |s1.threads| == |s.threads| && s1.hash == s.hash && |s.tables| <= |s1.tables|
    && (forall u :: 0 <= u < |s.threads| && u != t ==> SameFor(s, s1, u))
    && (forall x :: 0 <= x < |s.tables| ==> Extends(s.tables[x], s1.tables[x], t))
    && s.count <= s1.count && s.producers <= s1.producers
  }

  ghost predicate SameFor(s: State, s1: State, u: nat)
    requires u < |s.threads| && u < |s1.threads|
  {
    && s1.threads[u] == s.threads[u]
    && (u in s1.num <==> u in s.num) && (u in s.num ==> s1.num[u] == s.num[u])
    && (u in s1.made <==> u in s.made) && (u in s.made ==> s1.made[u] == s.made[u])
    && (u in s1.home <==> u in s.home) && (u in s.home ==> s1.home[u] == s.home[u])
    && (s.lock == HeldBy(u) ==> s1.lock == HeldBy(u) && |s1.tables| == |s.tables|)
  }

  ghost predicate Extends(b: Table, c: Table, t: nat) {
    && |c.keys| == |b.keys| && |c.vals| == |b.vals| == |b.keys|
    && forall i :: 0 <= i < |b.keys| ==> SlotExtends(b, c, t, i)
  }

  ghost predicate SlotExtends(b: Table, c: Table, t: nat, i: nat)
    requires i < |b.keys| == |c.keys| && |b.vals| == |c.vals| == |b.keys|
  {
    && (c.keys[i] == b.keys[i] || (b.keys[i].Empty? && c.keys[i] == Id(t)))
    && (b.keys[i].Id? && b.keys[i].t != t ==> c.vals[i] == b.vals[i])
  }

  lemma KeyKept(s: State, s1: State, t: nat, u: nat, x: nat, k: nat)
    requires Shape(s) && Grows(s, s1, t) && u < |s.threads| && x < |s.tables|
    ensures KeyAt(s1, u, x, k) == KeyAt(s, u, x, k) || (KeyAt(s, u, x, k).Empty? && KeyAt(s1, u, x, k) == Id(t))
  {
    hide Slot;
    assert Extends(s.tables[x], s1.tables[x], t);
    assert SlotExtends(s.tables[x], s1.tables[x], t, Slot(s.hash[u], k, Cap(s, x)));
  }

  lemma PassedKept(s: State, s1: State, t: nat, u: nat, x: nat, k: nat)
    requires Shape(s) && Grows(s, s1, t) && u < |s.threads| && x < |s.tables| && Passed(s, u, x, k)
    ensures Passed(s1, u, x, k)
  {
    hide Grows, KeyAt;
    Bigger1(s, s1, t);
    forall j | 0 <= j < k ensures KeyAt(s1, u, x, j).Id? && KeyAt(s1, u, x, j) != Id(u) {
      KeyKept(s, s1, t, u, x, j);
    }
  }

  lemma Bigger1(s: State, s1: State, t: nat)
    requires Shape(s) && Grows(s, s1, t)
    ensures Shape(s1) && |s1.threads| == |s.threads| && s1.hash == s.hash && |s.tables| <= |s1.tables|
    ensures forall x :: 0 <= x < |s.tables| ==> |s1.tables[x].keys| == |s.tables[x].keys|
  {
    forall x | 0 <= x < |s.tables| ensures |s1.tables[x].keys| == |s.tables[x].keys| {
      assert Extends(s.tables[x], s1.tables[x], t);
    }
  }

  lemma AbsentKept(s: State, s1: State, t: nat, u: nat, x: nat)
    requires Shape(s) && Grows(s, s1, t) && u != t && x < |s.tables| && Absent(s, u, x)
    ensures Absent(s1, u, x)
  {
    assert Extends(s.tables[x], s1.tables[x], t);
    forall i | 0 <= i < Cap(s1, x) ensures s1.tables[x].keys[i] != Id(u) {
      assert SlotExtends(s.tables[x], s1.tables[x], t, i);
    }
  }

  /** What other threads rely on is kept. */
  lemma OtherPc(s: State, s1: State, t: nat, u: nat)
    requires Mains(s) && Mains(s1) && Grows(s, s1, t) && u < |s.threads| && u != t && PcOk(s, u)
    ensures PcOk(s1, u)
  {
    hide KeyAt, Passed, Absent, Mains;
    assert Shape(s) && MainIn(s.threads[u], |s.tables|) by { Inside(s, u); }
    assert Shape(s1) by { Bigger1(s, s1, t); }
    assert SameFor(s, s1, u);
    Bigger1(s, s1, t);
    var pc := s.threads[u];
    if pc.Look? {
      PassedKept(s, s1, t, u, pc.cur, pc.k);
      if pc.cur < pc.main { AbsentKept(s, s1, t, u, pc.main); }
    } else if pc.Place? || pc.PlaceCas? {
      PassedKept(s, s1, t, u, pc.main, pc.k);
      AbsentKept(s, s1, t, u, pc.main);
    } else if pc.PlaceStore? {
      KeyKept(s, s1, t, u, pc.main, pc.k);
    }
  }

  lemma Inside(s: State, u: nat)
    requires Mains(s) && u < |s.threads|
    ensures Shape(s) && MainIn(s.threads[u], |s.tables|)
  {
  }

  lemma OtherHome(s: State, s1: State, t: nat, u: nat)
    requires Shape(s) && Grows(s, s1, t) && u < |s.threads| && HomeOk(s, u)
    requires u != t || (t in s.home && SameMaps(s, s1, t))
    ensures HomeOk(s1, u)
  {
    hide KeyAt;
    Bigger1(s, s1, t);
    if u != t { assert SameFor(s, s1, u); }
    if u in s.home { KeyKept(s, s1, t, u, s.home[u].0, s.home[u].1); }
  }

  predicate SameMaps(s: State, s1: State, t: nat) {
    && (t in s1.num <==> t in s.num) && (t in s.num ==> s1.num[t] == s.num[t])
    && (t in s1.made <==> t in s.made) && (t in s.made ==> s1.made[t] == s.made[t])
    && (t in s1.home <==> t in s.home) && (t in s.home ==> s1.home[t] == s.home[t])
  }

  /** A slot whose key and value stay as they are, whatever its thread holds. */
  lemma SlotKept(s: State, s1: State, t: nat, x: nat, i: nat)
    requires Shape(s) && Grows(s, s1, t) && x < |s.tables| && i < Cap(s, x) && SlotOk(s, x, i)
    requires x < |s1.tables| && i < Cap(s1, x) && s1.tables[x].keys[i] == s.tables[x].keys[i]
    requires s.tables[x].keys[i] == Id(t) && t < |s.threads| ==>
               t in s1.home && t in s1.num && t in s1.made && t in s.num && t in s.made && s1.num[t] == s.num[t]
                 && s1.made[t] == s.made[t]
               && (s1.tables[x].vals[i] == Producer(s.made[t]) || Storing(s1.threads[t], x, i, s.hash[t], Cap(s, x)))
    ensures SlotOk(s1, x, i)
  {
    hide Slot, KeyAt, Passed;
    Bigger1(s, s1, t);
    if s.tables[x].keys[i].Id? {
      var u := s.tables[x].keys[i].t;
      if u != t {
        assert SameFor(s, s1, u);
        assert Extends(s.tables[x], s1.tables[x], t);
        assert SlotExtends(s.tables[x], s1.tables[x], t, i);
      }
      forall k | 0 <= k && Slot(s1.hash[u], k, Cap(s1, x)) == i && k < Cap(s1, x) ensures Passed(s1, u, x, k) {
        assert Passed(s, u, x, k);
        PassedKept(s, s1, t, u, x, k);
      }
    }
  }

  /** Steps that leave the tables, and what the thread has in them, alone. */
  lemma Quiet(s: State, s1: State, t: nat)
    requires Inv(s) && t < |s.threads| && Grows(s, s1, t) && s1.tables == s.tables && Mains(s1)
    requires PcOk(s1, t) && HomeOk(s1, t) && Maps(s1) && Rets(s1)
    requires !s.threads[t].PlaceStore? && (t in s.home ==> SameMaps(s, s1, t))
    ensures Inv(s1)
  {
    hide PcOk, HomeOk, Maps, Rets, Mains, Passed, KeyAt;
    assert Slots(s1) by {
      forall x, i | 0 <= x < |s1.tables| && 0 <= i < |s1.tables[x].keys| ensures SlotOk(s1, x, i) {
        assert SlotOk(s, x, i);
        SlotKept(s, s1, t, x, i);
      }
    }
    Others(s, s1, t);
  }

  lemma Others(s: State, s1: State, t: nat)
    requires Mains(s) && Mains(s1) && Pcs(s) && Homes(s) && t < |s.threads| && Grows(s, s1, t)
    requires PcOk(s1, t) && HomeOk(s1, t)
    ensures Pcs(s1) && Homes(s1)
  {
    hide PcOk, HomeOk;
    Bigger1(s, s1, t);
    forall u | 0 <= u < |s1.threads| ensures PcOk(s1, u) && HomeOk(s1, u) {
      if u != t {
        assert PcOk(s, u) && HomeOk(s, u);
        OtherPc(s, s1, t, u);
        OtherHome(s, s1, t, u);
      }
    }
  }

  lemma MainsAt(s: State, s1: State, t: nat)
    requires Mains(s) && t < |s.threads| && Shape(s1) && |s1.tables| >= |s.tables| && |s1.threads| == |s.threads|
    requires s1.threads == s.threads[t := s1.threads[t]] && MainIn(s1.threads[t], |s1.tables|)
    ensures Mains(s1)
  {
    forall u | 0 <= u < |s1.threads| ensures MainIn(s1.threads[u], |s1.tables|) {
      assert MainIn(s.threads[u], |s.tables|);
    }
  }

  lemma SameGrows(s: State, s1: State, t: nat)
    requires Shape(s) && t < |s.threads| && s1.tables == s.tables && s1.hash == s.hash && |s1.threads| == |s.threads|
    requires s1.threads == s.threads[t := s1.threads[t]] && s.count <= s1.count && s.producers <= s1.producers
          && s1.home == s.home
    requires s1.num == s.num || (s1.num == s.num[t := s1.count])
    requires s1.made == s.made || (s1.made == s.made[t := s.producers])
    requires s1.lock == s.lock || (s.lock.Open? && s1.lock == HeldBy(t)) || (s.lock == HeldBy(t) && s1.lock.Open?)
    ensures Grows(s, s1, t)
  {
    forall x | 0 <= x < |s.tables| ensures Extends(s.tables[x], s1.tables[x], t) {
      assert TableShape(s.tables[x]);
    }
  }

  /** The invariant's parts that do not mention other threads, for thread `t` alone. */
  lemma Here(s: State, t: nat)
    requires Inv(s) && t < |s.threads|
    ensures Mains(s) && PcOk(s, t) && HomeOk(s, t) && MainIn(s.threads[t], |s.tables|)
  {
  }

  /** A probe of a lookup. */
  lemma StepLook(s: State, t: nat)
    requires Inv(s) && t < |s.threads| && Mains(s) && s.threads[t].Look?
    ensures Inv(Step(s, t))
  {
    hide Inv, Maps, Slots, Growing, Pcs, Homes, Mains;
    Here(s, t);
    assert Shape(s);
    var pc := s.threads[t];
    var s1 := Step(s, t);
    var i := Slot(s.hash[t], pc.k, Cap(s, pc.cur));
    var key := s.tables[pc.cur].keys[i];
    assert key == KeyAt(s, t, pc.cur, pc.k);
    SameGrows(s, s1, t);
    if key == Id(t) {
      Found(s, t);
    } else if key.Empty? {
      NotHere(s, t);
      if pc.cur > 0 {
        assert Passed(s1, t, pc.cur - 1, 0);
        assert pc.cur == pc.main ==> Absent(s1, t, pc.main);
        assert pc.cur < pc.main ==> Absent(s, t, pc.main);
      }
      MainsAt(s, s1, t);
      Unmapped(s, s1, t);
    } else {
      forall j | 0 <= j < pc.k + 1 ensures KeyAt(s1, t, pc.cur, j).Id? && KeyAt(s1, t, pc.cur, j) != Id(t) {
        assert j < pc.k ==> KeyAt(s, t, pc.cur, j).Id?;
        assert KeyAt(s1, t, pc.cur, j) == KeyAt(s, t, pc.cur, j);
      }
      MainsAt(s, s1, t);
      Unmapped(s, s1, t);
    }
  }

  /** A step that changes neither tables nor maps nor results. */
  lemma Unmapped(s: State, s1: State, t: nat)
    requires Inv(s) && t < |s.threads| && Grows(s, s1, t) && s1.tables == s.tables && Mains(s1) && PcOk(s1, t)
    requires s1.num == s.num && s1.made == s.made && s1.home == s.home && s1.rets == s.rets && s1.count == s.count
          && s1.producers == s.producers
    requires !s.threads[t].PlaceStore?
    ensures Inv(s1)
  {
    hide PcOk, Grows, Mains;
    Here(s, t);
    Bigger1(s, s1, t);
    OneHome(s, s1, t);
    Quiet(s, s1, t);
  }

  lemma OneHome(s: State, s1: State, t: nat)
    requires Shape(s) && t < |s.threads| && HomeOk(s, t) && Shape(s1) && s1.tables == s.tables && s1.hash == s.hash
          && |s1.threads| == |s.threads|
    requires s1.num == s.num && s1.made == s.made && s1.home == s.home && s1.count == s.count
          && s1.producers == s.producers
    ensures HomeOk(s1, t)
  {
  }

  /** The id is in the table probed: its producer is there too. */
  lemma Found(s: State, t: nat)
    requires Inv(s) && t < |s.threads| && Mains(s) && s.threads[t].Look?
    requires var pc := s.threads[t]; pc.cur < |s.tables| && KeyAt(s, t, pc.cur, pc.k) == Id(t)
    ensures Inv(Step(s, t))
  {
    hide KeyAt, Passed, Absent, Grows;
    Here(s, t);
    var pc := s.threads[t];
    var s1 := Step(s, t);
    var i := Slot(s.hash[t], pc.k, Cap(s, pc.cur));
    assert s.tables[pc.cur].keys[i] == Id(t) by { KeyIs(s, t, pc.cur, pc.k); }
    assert SlotOk(s, pc.cur, i);
    assert s.tables[pc.cur].vals[i] == Producer(s.made[t]);
    SameGrows(s, s1, t);
    if pc.cur == pc.main {
      assert s1 == Return(s, t, Producer(s.made[t]));
      MainsAt(s, s1, t);
      OneHome(s, s1, t);
      Quiet(s, s1, t);
    } else {
      assert s1 == At(s, t, Place(pc.main, 0, s.made[t], false));
      assert Cap(s, pc.cur) < Cap(s, pc.main);
      LimitUp(Cap(s, pc.cur), Cap(s, pc.main));
      AbsentSame(s, s1, t, pc.main);
      NonePassed(s1, t, pc.main);
      MainsAt(s, s1, t);
      Unmapped(s, s1, t);
    }
  }

  lemma KeyIs(s: State, t: nat, x: nat, k: nat)
    requires Shape(s) && t < |s.threads| && x < |s.tables|
    ensures KeyAt(s, t, x, k) == s.tables[x].keys[Slot(s.hash[t], k, Cap(s, x))]
  {
  }

  lemma LimitUp(a: nat, b: nat)
    requires a <= b
    ensures Limit(a) <= Limit(b)
  {
  }

  lemma AbsentSame(s: State, s1: State, t: nat, x: nat)
    requires x < |s.tables| && Absent(s, t, x) && s1.tables == s.tables
    ensures Absent(s1, t, x)
  {
  }

  lemma NonePassed(s: State, t: nat, x: nat)
    requires Shape(s) && t < |s.threads| && x < |s.tables|
    ensures Passed(s, t, x, 0)
  {
  }

  /** An empty slot ends the lookup in a table: the id is not in it. */
  lemma NotInTable(s: State, t: nat, x: nat, k0: nat)
    requires Shape(s) && Slots(s) && t < |s.threads| && x < |s.tables| && Passed(s, t, x, k0)
          && KeyAt(s, t, x, k0).Empty?
    ensures Absent(s, t, x)
  {
    forall i | 0 <= i < Cap(s, x) ensures s.tables[x].keys[i] != Id(t) {
      var k := SlotOnto(s.hash[t], Cap(s, x), i);
      KeyIs(s, t, x, k);
      assert SlotOk(s, x, i);
    }
  }

  lemma NotHere(s: State, t: nat)
    requires Inv(s) && t < |s.threads| && s.threads[t].Look?
    requires var pc := s.threads[t]; pc.cur < |s.tables| && KeyAt(s, t, pc.cur, pc.k).Empty?
    ensures Absent(s, t, s.threads[t].cur)
    ensures t in s.home ==> s.home[t].0 < s.threads[t].cur
  {
    hide Maps, Growing, Rets, Homes, Slots, Pcs, KeyAt, Passed;
    Here(s, t);
    var pc := s.threads[t];
    NotInTable(s, t, pc.cur, pc.k);
    if t in s.home { KeyIs(s, t, s.home[t].0, s.home[t].1); }
  }

  /** Steps that neither probe nor write a slot. */
  lemma StepPlain(s: State, t: nat)
    requires Inv(s) && t < |s.threads| && Mains(s)
    requires var pc := s.threads[t]; pc.Idle? || pc.Check? || pc.Locked? || pc.Unlock?
                                     || (pc.Room? && pc.n >= Limit(Cap(s, pc.main)))
    ensures Inv(Step(s, t))
  {
    hide Inv, KeyAt, Absent, Mains;
    Here(s, t);
    assert Shape(s) by { Inside(s, t); }
    var pc := s.threads[t];
    var s1 := Step(s, t);
    SameGrows(s, s1, t);
    MainsAt(s, s1, t);
    if pc.Idle? { NonePassed(s1, t, |s.tables| - 1); }
    assert PcOk(s1, t);
    Unmapped(s, s1, t);
  }

  /** Drawing a count. */
  lemma StepCount(s: State, t: nat)
    requires Inv(s) && t < |s.threads| && Mains(s) && s.threads[t].Count?
    ensures Inv(Step(s, t))
  {
    hide KeyAt, Passed, Absent, Slots, Pcs, Homes;
    Here(s, t);
    var s1 := Step(s, t);
    SameGrows(s, s1, t);
    MainsAt(s, s1, t);
    Quiet(s, s1, t);
  }

  /** Making the producer. */
  lemma StepRoom(s: State, t: nat)
    requires Inv(s) && t < |s.threads| && Mains(s)
    requires var pc := s.threads[t]; pc.Room? && pc.main < |s.tables| && pc.n < Limit(Cap(s, pc.main))
    ensures Inv(Step(s, t))
  {
    hide KeyAt, Passed, Absent, Pcs, Homes, Slots;
    Here(s, t);
    var pc := s.threads[t];
    var s1 := Step(s, t);
    assert t !in s.home;
    Nowhere(s, t, pc.main);
    AbsentSame(s, s1, t, pc.main);
    SameGrows(s, s1, t);
    MainsAt(s, s1, t);
    NonePassed(s1, t, pc.main);
    Quiet(s, s1, t);
  }

  lemma Nowhere(s: State, t: nat, x: nat)
    requires Inv(s) && t < |s.threads| && x < |s.tables| && t !in s.home
    ensures Absent(s, t, x)
  {
    hide KeyAt, Passed, Pcs, Homes, Maps, Rets;
    forall i | 0 <= i < Cap(s, x) ensures s.tables[x].keys[i] != Id(t) {
      assert SlotOk(s, x, i);
    }
  }

  /** Looking for a free slot. */
  lemma StepPlace(s: State, t: nat)
    requires Inv(s) && t < |s.threads| && Mains(s)
    requires var pc := s.threads[t]; pc.Place?
                                     || (pc.PlaceCas? && pc.main < |s.tables| && KeyAt(s, t, pc.main, pc.k).Id?)
    ensures Inv(Step(s, t))
  {
    hide Inv, Mains;
    Here(s, t);
    assert Shape(s) by { Inside(s, t); }
    var pc := s.threads[t];
    var s1 := Step(s, t);
    SameGrows(s, s1, t);
    MainsAt(s, s1, t);
    AbsentSame(s, s1, t, pc.main);
    var key := KeyAt(s, t, pc.main, pc.k);
    assert key != Id(t);
    forall j | 0 <= j < pc.k + (if key.Empty? then 0 else 1) ensures KeyAt(s1, t, pc.main, j).Id?
      && KeyAt(s1, t, pc.main, j) != Id(t) {
      assert j < pc.k ==> KeyAt(s, t, pc.main, j).Id?;
      assert KeyAt(s1, t, pc.main, j) == KeyAt(s, t, pc.main, j);
    }
    Unmapped(s, s1, t);
  }

  /** Publishing a bigger table. */
  lemma StepGrow(s: State, t: nat)
    requires Inv(s) && t < |s.threads| && Mains(s) && s.threads[t].Grow?
    ensures Inv(Step(s, t))
  {
    hide KeyAt, Passed, Absent, Maps, Rets, SlotOk, HomeOk, Limit;
    Here(s, t);
    var pc := s.threads[t];
    var s1 := Step(s, t);
    assert s.lock == HeldBy(t) && pc.main == |s.tables| - 1;
    Pushed(s, s1, t);
    MainsAt(s, s1, t);
    assert HomeOk(s1, t) by { PushedHome(s, s1, t); }
    assert PcOk(s1, t);
    Others(s, s1, t);
    assert Slots(s1) by {
      forall x, i | 0 <= x < |s1.tables| && 0 <= i < |s1.tables[x].keys| ensures SlotOk(s1, x, i) {
        if x < |s.tables| { assert SlotOk(s, x, i); PushedSlot(s, s1, t, x, i); } else { EmptySlot(s1, x, i); }
      }
    }
    assert Growing(s1);
    assert Maps(s1) by { SameMapsAll(s, s1); }
    assert Rets(s1) by { SameRets(s, s1); }
  }

  lemma SameMapsAll(s: State, s1: State)
    requires Maps(s) && s1.num == s.num && s1.made == s.made && s1.count == s.count && s1.producers == s.producers
    ensures Maps(s1)
  {
  }

  lemma SameRets(s: State, s1: State)
    requires Rets(s) && s1.rets == s.rets && s1.made == s.made
    ensures Rets(s1)
  {
  }

  lemma Pushed(s: State, s1: State, t: nat)
    requires Mains(s) && t < |s.threads| && s.lock == HeldBy(t) && |s1.threads| == |s.threads|
          && s1.threads == s.threads[t := s1.threads[t]]
    requires |s1.tables| == |s.tables| + 1 && s1.tables[..|s.tables|] == s.tables && TableShape(s1.tables[|s.tables|])
    requires s1 == s.(threads := s1.threads, tables := s1.tables)
    ensures Grows(s, s1, t)
  {
    forall x | 0 <= x < |s1.tables| ensures TableShape(s1.tables[x])
      && (x < |s.tables| ==> s1.tables[x] == s.tables[x]) {
      if x < |s.tables| { assert s1.tables[x] == s1.tables[..|s.tables|][x]; assert TableShape(s.tables[x]); }
    }
  }

  lemma PushedHome(s: State, s1: State, t: nat)
    requires Shape(s) && t < |s.threads| && HomeOk(s, t) && Grows(s, s1, t) && SameMaps(s, s1, t)
    ensures HomeOk(s1, t)
  {
    hide KeyAt;
    Bigger1(s, s1, t);
    if t in s.home { KeyKept(s, s1, t, t, s.home[t].0, s.home[t].1); }
  }

  lemma PushedSlot(s: State, s1: State, t: nat, x: nat, i: nat)
    requires Shape(s) && Grows(s, s1, t) && x < |s.tables| && i < Cap(s, x) && SlotOk(s, x, i) && t < |s.threads|
    requires s1.tables[x] == s.tables[x] && SameMaps(s, s1, t) && !s.threads[t].PlaceStore?
    ensures SlotOk(s1, x, i)
  {
    SlotKept(s, s1, t, x, i);
  }

  lemma EmptySlot(s: State, x: nat, i: nat)
    requires Shape(s) && x < |s.tables| && i < Cap(s, x) && s.tables[x].keys[i].Empty?
    ensures SlotOk(s, x, i)
  {
  }

  /** Taking the free slot. */
  lemma StepCas(s: State, t: nat)
    requires Inv(s) && t < |s.threads| && Mains(s)
    requires var pc := s.threads[t]; pc.PlaceCas? && pc.main < |s.tables| && KeyAt(s, t, pc.main, pc.k).Empty?
    ensures Inv(Step(s, t))
  {
    hide KeyAt, Passed, Absent, Maps, Rets, SlotOk, HomeOk, Limit, Slot, Pcs, Homes;
    Here(s, t);
    var pc := s.threads[t];
    var s1 := Step(s, t);
    var i := Slot(s.hash[t], pc.k, Cap(s, pc.main));
    KeyIs(s, t, pc.main, pc.k);
    Keyed(s, s1, t, pc.main, i);
    MainsAt(s, s1, t);
    KeyIs(s1, t, pc.main, pc.k);
    ProbeShort(s, t, pc.main, pc.k);
    assert HomeOk(s1, t) by { KeyedHome(s, s1, t); }
    assert PcOk(s1, t);
    Others(s, s1, t);
    assert Slots(s1) by {
      forall x, j | 0 <= x < |s1.tables| && 0 <= j < |s1.tables[x].keys| ensures SlotOk(s1, x, j) {
        if x == pc.main && j == i { KeyedSlot(s, s1, t, x, i); }
        else { assert SlotOk(s, x, j); KeyedOther(s, s1, t, x, j); }
      }
    }
    assert Growing(s1);
    assert Maps(s1) by { SameMapsAll(s, s1); }
    assert Rets(s1) by { SameRets(s, s1); }
  }

  lemma Keyed(s: State, s1: State, t: nat, x: nat, i: nat)
    requires Mains(s) && t < |s.threads| && x < |s.tables| && i < Cap(s, x) && s.tables[x].keys[i].Empty?
    requires |s1.threads| == |s.threads|
          && (s1.home == s.home || (t !in s.home && t in s1.home && s1.home == s.home[t := s1.home[t]]))
    requires s1 == s.(threads := s.threads[t := s1.threads[t]], home := s1.home, tables := SetKey(s, x, i, t).tables)
    ensures Grows(s, s1, t)
  {
    forall y | 0 <= y < |s.tables| ensures Extends(s.tables[y], s1.tables[y], t) && TableShape(s1.tables[y]) {
      assert TableShape(s.tables[y]);
    }
  }

  lemma KeyedHome(s: State, s1: State, t: nat)
    requires Shape(s) && t < |s.threads| && HomeOk(s, t) && Grows(s, s1, t) && s1.num == s.num && s1.made == s.made
    requires t in s1.home && t in s1.made
          && (s1.home == s.home || (s1.home[t].0 < |s1.tables| && s1.home[t].1 < Cap(s1, s1.home[t].0)
      && KeyAt(s1, t, s1.home[t].0, s1.home[t].1) == Id(t)))
    ensures HomeOk(s1, t)
  {
    hide KeyAt;
    Bigger1(s, s1, t);
    if s1.home == s.home { KeyKept(s, s1, t, t, s.home[t].0, s.home[t].1); }
  }

  lemma KeyedOther(s: State, s1: State, t: nat, x: nat, j: nat)
    requires Shape(s) && Grows(s, s1, t) && x < |s.tables| && j < Cap(s, x) && SlotOk(s, x, j) && t < |s.threads|
          && x < |s1.tables| && j < Cap(s1, x)
    requires s1.tables[x].keys[j] == s.tables[x].keys[j] && s1.tables[x].vals[j] == s.tables[x].vals[j]
    requires s1.num == s.num && s1.made == s.made && (t in s.home ==> t in s1.home) && !s.threads[t].PlaceStore?
    ensures SlotOk(s1, x, j)
  {
    SlotKept(s, s1, t, x, j);
  }

  lemma KeyedSlot(s: State, s1: State, t: nat, x: nat, i: nat)
    requires Inv(s) && Grows(s, s1, t) && x < |s.tables| && t < |s.threads| && s.threads[t].PlaceCas?
          && s.threads[t].main == x
    requires i == Slot(s.hash[t], s.threads[t].k, Cap(s, x)) && s.tables[x].keys[i].Empty?
    requires x < |s1.tables| && i < Cap(s1, x) && s1.tables[x].keys[i] == Id(t) && t in s1.home && s1.num == s.num
          && s1.made == s.made
    requires s1.threads[t] == PlaceStore(x, s.threads[t].k, s.threads[t].p, s.threads[t].made)
    ensures SlotOk(s1, x, i)
  {
    hide Maps, Growing, Rets, Homes, Slots, Limit;
    Here(s, t);
    Bigger1(s, s1, t);
    var k0 := s.threads[t].k;
    ProbeShort(s, t, x, k0);
    forall k | 0 <= k && Slot(s1.hash[t], k, Cap(s1, x)) == i && k < Cap(s1, x) ensures Passed(s1, t, x, k) {
      assert KeyAt(s, t, x, k).Empty?;
      if k > k0 {
        SlotInjective(s.hash[t], k0, k, Cap(s, x));
      }
      PassedKept(s, s1, t, t, x, k);
    }
  }

  lemma SlotInjective(h: nat, j: nat, k: nat, cap: nat)
    requires j < k < cap
    ensures Slot(h, j, cap) != Slot(h, k, cap)
  {
    var a, b := (h + j) / cap, (h + k) / cap;
    assert h + j == a * cap + (h + j) % cap && h + k == b * cap + (h + k) % cap;
    assert (b - a) * cap == k - j + (h + j) % cap - (h + k) % cap;
    assert b - a >= 1 ==> (b - a) * cap >= cap;
    assert b - a <= 0 ==> (b - a) * cap <= 0;
  }

  /** Storing the producer beside the key, and returning it. */
  lemma StepStore(s: State, t: nat)
    requires Inv(s) && t < |s.threads| && Mains(s) && s.threads[t].PlaceStore?
    ensures Inv(Step(s, t))
  {
    hide KeyAt, Passed, Absent, Maps, SlotOk, HomeOk, Limit, Slot, Pcs, Homes;
    Here(s, t);
    var pc := s.threads[t];
    var s1 := Step(s, t);
    var i := Slot(s.hash[t], pc.k, Cap(s, pc.main));
    KeyIs(s, t, pc.main, pc.k);
    Valued(s, s1, t, pc.main, i);
    MainsAt(s, s1, t);
    assert HomeOk(s1, t) by { KeyedHome(s, s1, t); }
    assert PcOk(s1, t);
    Others(s, s1, t);
    assert Slots(s1) by {
      forall x, j | 0 <= x < |s1.tables| && 0 <= j < |s1.tables[x].keys| ensures SlotOk(s1, x, j) {
        assert SlotOk(s, x, j);
        ValuedSlot(s, s1, t, x, j);
      }
    }
    assert Growing(s1);
    assert Maps(s1) by { SameMapsAll(s, s1); }
  }

  lemma Valued(s: State, s1: State, t: nat, x: nat, i: nat)
    requires Mains(s) && t < |s.threads| && x < |s.tables| && i < Cap(s, x) && s.tables[x].keys[i] == Id(t)
          && s.threads[t].PlaceStore?
    requires |s1.threads| == |s.threads|
    requires s1 == s.(threads := s.threads[t := s1.threads[t]], rets := s1.rets,
                      tables := SetVal(s, x, i, s.threads[t].p).tables)
    ensures Grows(s, s1, t)
  {
    forall y | 0 <= y < |s.tables| ensures Extends(s.tables[y], s1.tables[y], t) && TableShape(s1.tables[y]) {
      assert TableShape(s.tables[y]);
    }
  }

  lemma ValuedSlot(s: State, s1: State, t: nat, x: nat, j: nat)
    requires Shape(s) && Grows(s, s1, t) && x < |s.tables| && j < Cap(s, x) && SlotOk(s, x, j) && t < |s.threads|
          && x < |s1.tables| && j < Cap(s1, x)
    requires s.threads[t].PlaceStore? && s.threads[t].main < |s.tables| && t in s.made && s.made[t] == s.threads[t].p
    requires s1.num == s.num && s1.made == s.made && s1.home == s.home
    requires s1.tables == SetVal(s, s.threads[t].main, Slot(s.hash[t], s.threads[t].k, Cap(s, s.threads[t].main)),
                                 s.threads[t].p).tables
    ensures SlotOk(s1, x, j)
  {
    hide Slot, Passed, KeyAt;
    SlotKept(s, s1, t, x, j);
  }

  /** Every access of every thread keeps the invariant. */
  lemma StepInv(s: State, t: nat)
    requires Inv(s) && t < |s.threads|
    ensures Mains(s) && Inv(Step(s, t))
  {
    hide Inv, Mains, KeyAt;
    Here(s, t);
    var pc := s.threads[t];
    assert Shape(s) by { Inside(s, t); }
    if pc.Look? { StepLook(s, t); }
    else if pc.Count? { StepCount(s, t); }
    else if pc.Grow? { StepGrow(s, t); }
    else if pc.PlaceStore? { StepStore(s, t); }
    else if pc.Place? { StepPlace(s, t); }
    else if pc.PlaceCas? { if KeyAt(s, t, pc.main, pc.k).Id? { StepPlace(s, t); } else { StepCas(s, t); } }
    else if pc.Room? { if pc.n < Limit(Cap(s, pc.main)) { StepRoom(s, t); } else { StepPlain(s, t); } }
    else { StepPlain(s, t); }
  }

  /** The state after a run: a list of the threads that move. */
  ghost predicate Reaches(s: State, ts: seq<nat>, s1: State)
    decreases |ts|
  {
    if ts == [] then s1 == s else
    ts[0] < |s.threads| && Mains(s) && Reaches(Step(s, ts[0]), ts[1..], s1)
  }

  lemma {:induction false} RunInv(s: State, ts: seq<nat>, s1: State)
    requires Inv(s) && Reaches(s, ts, s1)
    ensures Inv(s1)
    decreases |ts|
  {
    hide Inv, Mains, Step;
    if ts != [] {
      StepInv(s, ts[0]);
      RunInv(Step(s, ts[0]), ts[1..], s1);
    }
  }

  lemma InitialInv(s: State)
    requires Initial(s)
    ensures Inv(s)
  {
    hide KeyAt, Passed;
    assert Mains(s);
  }

  // ---------------------------------------------------------------- what it gives

  /** In every run each table is either empty or less than three quarters full, and every probe loop is within its
      table: it ends. */
  lemma ProbesEnd(s: State, ts: seq<nat>, s1: State, t: nat, x: nat)
    requires Initial(s) && Reaches(s, ts, s1) && t < |s1.threads| && x < |s1.tables|
    ensures Full(s1.tables[x]) == {} || |Full(s1.tables[x])| < Limit(Cap(s1, x))
    ensures Cap(s1, x) > 0
    ensures var pc := s1.threads[t]; pc.Look? ==> pc.cur < |s1.tables| && pc.k < Cap(s1, pc.cur)
    ensures var pc := s1.threads[t]; pc.Place? || pc.PlaceCas? ==> pc.main < |s1.tables| && pc.k < Cap(s1, pc.main)
  {
    InitialInv(s);
    RunInv(s, ts, s1);
    Fits(s1, x);
    Here(s1, t);
    var pc := s1.threads[t];
    if pc.Look? { ProbeShort(s1, t, pc.cur, pc.k); }
    if pc.Place? || pc.PlaceCas? { ProbeShort(s1, t, pc.main, pc.k); }
    assert TableShape(s1.tables[x]);
  }

  /** In every run a thread is always given the same producer, and two threads never share one. */
  lemma SameProducer(s: State, ts: seq<nat>, s1: State, i: nat, j: nat)
    requires Initial(s) && Reaches(s, ts, s1) && i < |s1.rets| && j < |s1.rets|
    ensures s1.rets[i].1.Producer? && (s1.rets[i].0 == s1.rets[j].0 <==> s1.rets[i].1 == s1.rets[j].1)
  {
    hide Pcs, Slots, Homes, Growing, Mains;
    InitialInv(s);
    RunInv(s, ts, s1);
  }

  // ---------------------------------------------------------------- a call ends

  /** Enough room below three quarters of the table. */
  predicate Roomy(s: State, main: nat, n: nat) {
    main < |s.tables| && n < Limit(Cap(s, main))
  }

  /** How far a call is from its end. */
  ghost function Rank(s: State, t: nat): nat
    requires Mains(s) && t < |s.threads|
  {
    match s.threads[t]
    case Idle => 0
    case Look(_, _, _) => 10
    case Count(_) => 9
    case Unlock(main, n) => if Roomy(s, main, n) then 3 else 8
    case Room(main, n) => if Roomy(s, main, n) then 2 else 7
    case Check(_, _) => 6
    case Locked(_) => 5
    case Grow(_, _) => 4
    case _ => 1
  }

  /** The table probed, and how many of its slots are still to be probed. */
  ghost function Probes(s: State, t: nat): (nat, int)
    requires Mains(s) && t < |s.threads|
  {
    match s.threads[t]
    case Look(_, cur, k) => (cur, Cap(s, cur) - k)
    case Place(main, k, _, _) => (1, 2 * (Cap(s, main) - k) + 1)
    case PlaceCas(main, k, _, _) => (1, 2 * (Cap(s, main) - k))
    case _ => (0, 0)
  }

  /** Nobody else is in the middle of making a bigger table. */
  predicate Unlocked(s: State, t: nat)
    requires t < |s.threads|
  {
    var pc := s.threads[t];
    s.lock.Open? || (s.lock == HeldBy(t) && (pc.Locked? || pc.Grow? || pc.Unlock?))
  }

  /** Each access of a call brings it nearer to its end, or returns the producer; only if another thread is making a
      bigger table may it go round waiting for it. */
  lemma Nearer(s: State, t: nat)
    requires Inv(s) && t < |s.threads| && !s.threads[t].Idle? && Unlocked(s, t)
    ensures var s1 := Step(s, t);
      && Inv(s1) && |s1.threads| == |s.threads| && Unlocked(s1, t)
      && (if s1.threads[t].Idle? then |s1.rets| == |s.rets| + 1 && s1.rets[..|s.rets|] == s.rets
                                      && s1.rets[|s.rets|].0 == t
          else s1.rets == s.rets)
      && (Rank(s1, t) < Rank(s, t)
          || (Rank(s1, t) == Rank(s, t) && Probes(s1, t).0 < Probes(s, t).0)
          || (Rank(s1, t) == Rank(s, t) && Probes(s1, t).0 == Probes(s, t).0 && Probes(s1, t).1 < Probes(s, t).1))
      && Probes(s, t).1 >= 0
  {
    hide Inv, Step, Rank, Probes, Mains, Unlocked;
    StepInv(s, t);
    SameThreads(s, t);
    SameThreads(Step(s, t), t);
    StepFramed(s, t);
    if s.threads[t].Look? { NearerLook(s, t); }
    else if s.threads[t].Place? || s.threads[t].PlaceCas? { NearerPlace(s, t); }
    else if s.threads[t].PlaceStore? { NearerStore(s, t); }
    else if s.threads[t].Locked? || s.threads[t].Grow? || s.threads[t].Unlock? { NearerGrow(s, t); }
    else { NearerRoom(s, t); }
  }

  /** What every access does to the results, the lock and the number of threads. */
  ghost predicate Framed(s: State, s1: State, t: nat)
    requires t < |s.threads|
  {
    && |s1.threads| == |s.threads| && (Unlocked(s, t) ==> Unlocked(s1, t))
    && (if s1.threads[t].Idle? then |s1.rets| == |s.rets| + 1 && s1.rets[..|s.rets|] == s.rets
                                    && s1.rets[|s.rets|].0 == t
        else s1.rets == s.rets)
  }

  lemma StepFramed(s: State, t: nat)
    requires Mains(s) && t < |s.threads|
    ensures Framed(s, Step(s, t), t)
  {
    hide Mains, Step, Framed;
    if s.threads[t].Idle? || s.threads[t].Look? { LookFramed(s, t); }
    else if s.threads[t].PlaceStore? { StoreFramed(s, t); }
    else if s.threads[t].Count? || s.threads[t].Check? || s.threads[t].Room? { RoomFramed(s, t); }
    else if s.threads[t].Place? || s.threads[t].PlaceCas? { PlaceFramed(s, t); }
    else { GrowFramed(s, t); }
  }

  lemma LookFramed(s: State, t: nat)
    requires Mains(s) && t < |s.threads| && (s.threads[t].Idle? || s.threads[t].Look?)
    ensures Framed(s, Step(s, t), t)
  {
    hide Mains, Slot, Cap, MainIn, Shape;
  }

  lemma StoreFramed(s: State, t: nat)
    requires Mains(s) && t < |s.threads| && s.threads[t].PlaceStore?
    ensures Framed(s, Step(s, t), t)
  {
    hide Mains, Slot, Cap, MainIn, Shape;
  }

  lemma RoomFramed(s: State, t: nat)
    requires Mains(s) && t < |s.threads| && (s.threads[t].Count? || s.threads[t].Check? || s.threads[t].Room?)
    ensures Framed(s, Step(s, t), t)
  {
    hide Mains, Cap, Limit, MainIn, Shape;
  }

  lemma PlaceFramed(s: State, t: nat)
    requires Mains(s) && t < |s.threads| && (s.threads[t].Place? || s.threads[t].PlaceCas?)
    ensures Framed(s, Step(s, t), t)
  {
    hide Mains, Slot, Cap, KeyAt, MainIn, Shape;
  }

  lemma GrowFramed(s: State, t: nat)
    requires Mains(s) && t < |s.threads| && (s.threads[t].Locked? || s.threads[t].Grow? || s.threads[t].Unlock?)
    ensures Framed(s, Step(s, t), t)
  {
    hide Mains, Cap, NewTable, Bigger, MainIn, Shape;
  }

  lemma NearerLook(s: State, t: nat)
    requires Inv(s) && Mains(s) && t < |s.threads| && s.threads[t].Look? && Inv(Step(s, t)) && Mains(Step(s, t))
    requires t < |Step(s, t).threads|
    ensures var s1 := Step(s, t);
      && (Rank(s1, t) < Rank(s, t)
          || (Rank(s1, t) == Rank(s, t) && Probes(s1, t).0 < Probes(s, t).0)
          || (Rank(s1, t) == Rank(s, t) && Probes(s1, t).0 == Probes(s, t).0 && Probes(s1, t).1 < Probes(s, t).1))
      && Probes(s, t).1 >= 0
  {
    hide Inv, Mains;
    Here(s, t);
    Inside(s, t);
    ProbeShort(s, t, s.threads[t].cur, s.threads[t].k);
  }

  lemma NearerPlace(s: State, t: nat)
    requires Inv(s) && Mains(s) && t < |s.threads| && (s.threads[t].Place? || s.threads[t].PlaceCas?)
    requires Mains(Step(s, t)) && t < |Step(s, t).threads|
    ensures var s1 := Step(s, t);
      && (Rank(s1, t) < Rank(s, t)
          || (Rank(s1, t) == Rank(s, t) && Probes(s1, t).0 < Probes(s, t).0)
          || (Rank(s1, t) == Rank(s, t) && Probes(s1, t).0 == Probes(s, t).0 && Probes(s1, t).1 < Probes(s, t).1))
      && Probes(s, t).1 >= 0
  {
    hide Inv, Mains, KeyAt, Passed, Absent;
    Here(s, t);
    Inside(s, t);
    ProbeShort(s, t, s.threads[t].main, s.threads[t].k);
  }

  lemma NearerGrow(s: State, t: nat)
    requires Inv(s) && Mains(s) && t < |s.threads| && Unlocked(s, t)
    requires s.threads[t].Locked? || s.threads[t].Grow? || s.threads[t].Unlock?
    requires Mains(Step(s, t)) && t < |Step(s, t).threads|
    ensures Rank(Step(s, t), t) < Rank(s, t) && Probes(s, t).1 >= 0
  {
    hide Inv, Mains, KeyAt, Passed, Absent, Bigger;
    Here(s, t);
    Inside(s, t);
  }

  lemma NearerRoom(s: State, t: nat)
    requires Inv(s) && Mains(s) && t < |s.threads| && Unlocked(s, t)
    requires s.threads[t].Count? || s.threads[t].Check? || s.threads[t].Room?
    requires Mains(Step(s, t)) && t < |Step(s, t).threads|
    ensures Rank(Step(s, t), t) < Rank(s, t) && Probes(s, t).1 >= 0
  {
    hide Inv, Mains, KeyAt, Passed, Absent, Bigger;
    Here(s, t);
    Inside(s, t);
  }

  lemma NearerStore(s: State, t: nat)
    requires Inv(s) && Mains(s) && t < |s.threads| && Unlocked(s, t)
    requires s.threads[t].PlaceStore?
    requires Mains(Step(s, t)) && t < |Step(s, t).threads|
    ensures Rank(Step(s, t), t) < Rank(s, t) && Probes(s, t).1 >= 0
  {
    hide Inv, Mains, KeyAt, Passed, Absent, Bigger;
    Here(s, t);
    Inside(s, t);
  }

  /** The state after `k` accesses of thread `t` alone. */
  ghost function Solo(s: State, t: nat, k: nat): (r: State)
    requires Inv(s) && t < |s.threads|
    ensures Inv(r) && |r.threads| == |s.threads|
  {
    if k == 0 then s
    else
      var r := Solo(s, t, k - 1);
      StepInv(r, t);
      SameThreads(r, t);
      Step(r, t)
  }

  lemma SameThreads(s: State, t: nat)
    requires Inv(s) && t < |s.threads|
    ensures Mains(s) && |Step(s, t).threads| == |s.threads|
  {
    hide Inv;
    Here(s, t);
    StepFramed(s, t);
  }

  lemma {:induction false} SoloFirst(s: State, t: nat, k: nat)
    requires Inv(s) && t < |s.threads| && Inv(Step(s, t)) && t < |Step(s, t).threads|
    ensures Solo(s, t, k + 1) == Solo(Step(s, t), t, k)
  {
    hide Inv, Step;
    if k > 0 { SoloFirst(s, t, k - 1); }
  }

  /** A thread that runs alone while no other makes a bigger table gets its producer: the call ends, growing the table
      where it must. */
  lemma {:induction false} AloneReturns(s: State, t: nat) returns (k: nat)
    requires Inv(s) && t < |s.threads| && !s.threads[t].Idle? && Unlocked(s, t)
    ensures var r := Solo(s, t, k);
      && t < |r.threads| && r.threads[t].Idle? && t in r.made && r.rets == s.rets + [(t, Producer(r.made[t]))]
    decreases Rank(s, t), Probes(s, t).0, if Probes(s, t).1 >= 0 then Probes(s, t).1 else 0
  {
    hide Inv, Solo, Step, Rank, Probes, Mains;
    SameThreads(s, t);
    Nearer(s, t);
    var s1 := Step(s, t);
    if s1.threads[t].Idle? {
      k := 1;
      SoloOne(s, t);
      LastRet(s1);
      assert s1.rets == s.rets + [s1.rets[|s.rets|]];
    } else {
      Nearer(s1, t);
      k := AloneReturns(s1, t);
      SoloFirst(s, t, k);
      k := k + 1;
    }
  }

  lemma SoloOne(s: State, t: nat)
    requires Inv(s) && t < |s.threads|
    ensures Mains(s) && Solo(s, t, 1) == Step(s, t)
  {
    assert Solo(s, t, 0) == s;
  }

  lemma LastRet(s: State)
    requires Inv(s) && s.rets != []
    ensures var r := s.rets[|s.rets| - 1]; r.0 in s.made && r.1 == Producer(s.made[r.0])
  {
    hide Slots, Pcs, Homes, Maps, Growing;
  }
}
