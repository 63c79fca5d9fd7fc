/** The chained hash table of the client library: it agrees with a finite map, and its iterator bears deletions. */
module DictTable {

  datatype Option<T> = None | Some(value: T)

  datatype Entry<K, V> = Entry(key: K, val: V)

  const INITIAL_SIZE: nat := 4

  /** Position of a key in a chain, or the chain's length. */
  function Search<K(==), V>(chain: seq<Entry<K, V>>, key: K): (i: nat)
    ensures i <= |chain| && (i < |chain| ==> chain[i].key == key) && forall j :: 0 <= j < i ==> chain[j].key != key
  {
    if chain == [] then 0 else if chain[0].key == key then 0 else 1 + Search(chain[1..], key)
  }

  /** A chain holds the pairs of the map with this bucket, each once. */
  ghost predicate ChainOk<K, V>(chain: seq<Entry<K, V>>, m: map<K, V>, hash: K -> nat, i: nat, size: nat)
    requires size > 0
  {
    && (forall j :: 0 <= j < |chain| ==> chain[j].key in m && m[chain[j].key] == chain[j].val
                                                         && hash(chain[j].key) % size == i)
    && (forall j, k :: 0 <= j < k < |chain| ==> chain[j].key != chain[k].key)
  }

  ghost predicate Chains<K, V>(table: seq<seq<Entry<K, V>>>, m: map<K, V>, hash: K -> nat) {
    && (table == [] ==> m == map[])
    && (forall i :: 0 <= i < |table| ==> ChainOk(table[i], m, hash, i, |table|))
    && (forall key :: key in m ==> Found(table, key, hash))
  }

  predicate Found<K(==), V>(table: seq<seq<Entry<K, V>>>, key: K, hash: K -> nat) {
    table != [] && var i := hash(key) % |table|; Search(table[i], key) < |table[i]|
  }

  /** Putting a new pair at the head of its chain. */
  function Pushed<K, V>(table: seq<seq<Entry<K, V>>>, e: Entry<K, V>, hash: K -> nat): (r: seq<seq<Entry<K, V>>>)
    requires table != []
    ensures |r| == |table|
  {
    var i := hash(e.key) % |table|;
    table[i := [e] + table[i]]
  }

  lemma PushedChains<K, V>(table: seq<seq<Entry<K, V>>>, m: map<K, V>, hash: K -> nat, e: Entry<K, V>)
    requires Chains(table, m, hash) && table != [] && e.key !in m
    ensures Chains(Pushed(table, e, hash), m[e.key := e.val], hash)
  {
    var t, m1 := Pushed(table, e, hash), m[e.key := e.val];
    forall i | 0 <= i < |t| ensures ChainOk(t[i], m1, hash, i, |t|) { assert ChainOk(table[i], m, hash, i, |table|); }
    forall key | key in m1 ensures Found(t, key, hash) {
      var i := hash(key) % |t|;
      if key != e.key {
        assert Found(table, key, hash);
        var j := Search(table[i], key);
        assert table[i][j].key == key;
        if i == hash(e.key) % |t| { assert t[i][j + 1].key == key; }
      } else {
        assert t[i][0].key == key;
      }
    }
  }

  /** Taking one pair out of its chain. */
  lemma RemovedChains<K, V>(table: seq<seq<Entry<K, V>>>, m: map<K, V>, hash: K -> nat, i: nat, j: nat)
    requires Chains(table, m, hash) && i < |table| && j < |table[i]|
    ensures table[i][j].key in m && Chains(table[i := table[i][..j] + table[i][j + 1..]], m - {table[i][j].key}, hash)
  {
    var key := table[i][j].key;
    assert ChainOk(table[i], m, hash, i, |table|);
    var t, m1 := table[i := table[i][..j] + table[i][j + 1..]], m - {key};
    forall k | 0 <= k < |t| ensures ChainOk(t[k], m1, hash, k, |t|) { assert ChainOk(table[k], m, hash, k, |table|); }
    forall k | k in m1 ensures Found(t, k, hash) {
      assert Found(table, k, hash);
      var b := hash(k) % |t|;
      var p := Search(table[b], k);
      assert table[b][p].key == k;
      if b == i {
        assert p != j;
        assert if p < j then t[b][p].key == k else t[b][p - 1].key == k;
      }
    }
  }

  /** Giving a present key another value. */
  lemma ChangedChains<K, V>(table: seq<seq<Entry<K, V>>>, m: map<K, V>, hash: K -> nat, i: nat, j: nat, v: V)
    requires Chains(table, m, hash) && i < |table| && j < |table[i]|
    ensures var key := table[i][j].key; Chains(table[i := table[i][j := Entry(key, v)]], m[key := v], hash)
  {
    var key := table[i][j].key;
    assert ChainOk(table[i], m, hash, i, |table|);
    var t, m1 := table[i := table[i][j := Entry(key, v)]], m[key := v];
    forall k | 0 <= k < |t| ensures ChainOk(t[k], m1, hash, k, |t|) { assert ChainOk(table[k], m, hash, k, |table|); }
    forall k | k in m1 ensures Found(t, k, hash) {
      if k != key { assert Found(table, k, hash); }
      var b := hash(k) % |t|;
      var p := Search(table[b], k);
      assert k != key ==> table[b][p].key == k;
      assert k != key ==> t[b][p].key == k;
      assert k == key ==> t[i][j].key == k && b == i;
    }
  }

  lemma KeySize<K, V>(m: map<K, V>, key: K)
    requires key in m
    ensures |m - {key}| == |m| - 1
  {
    var m1 := m - {key};
    assert m1.Keys == m.Keys - {key};
    assert |m1| == |m1.Keys| && |m| == |m.Keys|;
  }

  lemma NewSize<K, V>(m: map<K, V>, key: K, v: V)
    requires key !in m
    ensures |m[key := v]| == |m| + 1
  {
    var m1 := m[key := v];
    assert m1.Keys == m.Keys + {key};
    assert |m1| == |m1.Keys| && |m| == |m.Keys|;
  }

  /** Such sizes make masking with `size - 1` the remainder. */
  predicate PowerOfTwo(n: nat) {
    n == 1 || (n > 1 && n % 2 == 0 && PowerOfTwo(n / 2))
  }

  /** `_dictNextPower` (dict.c 307-316), overflow aside: the least power of two that is enough, but not under 4. */
  method NextPower(size: nat) returns (i: nat)
    ensures PowerOfTwo(i) && i >= size && i >= INITIAL_SIZE && (i > INITIAL_SIZE ==> i < 2 * size)
  {
    i := INITIAL_SIZE;
    while i < size
      invariant PowerOfTwo(i) && i >= INITIAL_SIZE && (i > INITIAL_SIZE ==> i < 2 * size)
      decreases size - i
    {
      i := i * 2;
    }
  }

  /** The pairs before position `j` of chain `i` of the old table `t` have moved to the new table `n`. */
  ghost predicate Moving<K, V>(t: seq<seq<Entry<K, V>>>, n: seq<seq<Entry<K, V>>>, rest: map<K, V>, moved: map<K, V>,
          whole: map<K, V>,
                               hash: K -> nat, i: nat, j: nat) {
    && i <= |t| && n != [] && Chains(n, moved, hash) && Parts(rest, moved, whole)
    && (i < |t| ==> j <= |t[i]| && ChainOk(t[i][j..], rest, hash, i, |t|))
    && (forall k :: i < k < |t| ==> ChainOk(t[k], rest, hash, k, |t|))
    && (forall key :: key in rest ==> Later(t, key, hash, i, j))
  }

  ghost predicate Parts<K, V>(rest: map<K, V>, moved: map<K, V>, whole: map<K, V>) {
    && whole.Keys == rest.Keys + moved.Keys
    && (forall key :: key in rest ==> key !in moved && rest[key] == whole[key])
    && (forall key :: key in moved ==> moved[key] == whole[key])
  }

  ghost predicate Later<K, V>(t: seq<seq<Entry<K, V>>>, key: K, hash: K -> nat, i: nat, j: nat) {
    Found(t, key, hash) && var b := hash(key) % |t|; i < b || (b == i && j <= Search(t[b], key))
  }

  lemma MovingStart<K, V>(t: seq<seq<Entry<K, V>>>, n: seq<seq<Entry<K, V>>>, m: map<K, V>, hash: K -> nat)
    requires Chains(t, m, hash) && n != [] && forall i :: 0 <= i < |n| ==> n[i] == []
    ensures Moving(t, n, m, map[], m, hash, 0, 0)
  {
    if t != [] { assert t[0][0..] == t[0]; assert ChainOk(t[0], m, hash, 0, |t|); }
    forall key | key in m ensures Later(t, key, hash, 0, 0) { assert Found(t, key, hash); }
  }

  ghost function Less<K, V>(m: map<K, V>, e: Entry<K, V>): map<K, V> {
    m - {e.key}
  }

  ghost function More<K, V>(m: map<K, V>, e: Entry<K, V>): map<K, V> {
    m[e.key := e.val]
  }

  lemma MoveOne<K, V>(t: seq<seq<Entry<K, V>>>, n: seq<seq<Entry<K, V>>>, rest: map<K, V>, moved: map<K, V>,
          whole: map<K, V>,
                      hash: K -> nat, i: nat, j: nat)
    requires Moving(t, n, rest, moved, whole, hash, i, j) && i < |t| && j < |t[i]|
    ensures var e := t[i][j];
            && e.key in rest && |Less(rest, e)| == |rest| - 1 && n != [] && |Pushed(n, e, hash)| == |n|
            && Moving(t, Pushed(n, e, hash), Less(rest, e), More(moved, e), whole, hash, i, j + 1)
  {
    hide Chains, Pushed, Parts, Later, ChainOk;
    var e := t[i][j];
    HeadOf(t[i], j, rest, hash, i, |t|);
    var rest1, moved1 := rest - {e.key}, moved[e.key := e.val];
    KeySize(rest, e.key);
    MovePart(rest, moved, whole, e);
    PushedChains(n, moved, hash, e);
    PushedSize(n, e, hash);
    forall k | i < k < |t| ensures ChainOk(t[k], rest1, hash, k, |t|) {
      OtherChain(t[k], rest, hash, k, |t|, e.key, i);
    }
    forall key | key in rest1 ensures Later(t, key, hash, i, j + 1) {
      LaterOn(t, key, hash, i, j);
    }
  }

  lemma HeadOf<K, V>(chain: seq<Entry<K, V>>, j: nat, m: map<K, V>, hash: K -> nat, i: nat, size: nat)
    requires size > 0 && j < |chain| && ChainOk(chain[j..], m, hash, i, size)
    ensures var e := chain[j]; e.key in m && m[e.key] == e.val && hash(e.key) % size == i
                                        && ChainOk(chain[j + 1..], m - {e.key}, hash, i, size)
  {
    assert chain[j..][0] == chain[j] && chain[j..][1..] == chain[j + 1..];
    ChainTail(chain[j..], m, hash, i, size);
  }

  lemma MovePart<K, V>(rest: map<K, V>, moved: map<K, V>, whole: map<K, V>, e: Entry<K, V>)
    requires Parts(rest, moved, whole) && e.key in rest && rest[e.key] == e.val
    ensures e.key !in moved && Parts(rest - {e.key}, moved[e.key := e.val], whole)
  {
  }

  lemma LaterOn<K, V>(t: seq<seq<Entry<K, V>>>, key: K, hash: K -> nat, i: nat, j: nat)
    requires Later(t, key, hash, i, j) && i < |t| && j < |t[i]| && t[i][j].key != key
    ensures Later(t, key, hash, i, j + 1)
  {
  }

  lemma PushedSize<K, V>(t: seq<seq<Entry<K, V>>>, e: Entry<K, V>, hash: K -> nat)
    requires t != []
    ensures |Pushed(t, e, hash)| == |t|
  {
  }

  lemma ChainTail<K, V>(chain: seq<Entry<K, V>>, m: map<K, V>, hash: K -> nat, i: nat, size: nat)
    requires size > 0 && ChainOk(chain, m, hash, i, size) && chain != []
    ensures chain[0].key in m && ChainOk(chain[1..], m - {chain[0].key}, hash, i, size)
          && hash(chain[0].key) % size == i
  {
  }

  lemma OtherChain<K, V>(chain: seq<Entry<K, V>>, m: map<K, V>, hash: K -> nat, k: nat, size: nat, key: K, i: nat)
    requires size > 0 && ChainOk(chain, m, hash, k, size) && hash(key) % size == i != k
    ensures ChainOk(chain, m - {key}, hash, k, size)
  {
  }

  lemma NextChain<K, V>(t: seq<seq<Entry<K, V>>>, n: seq<seq<Entry<K, V>>>, rest: map<K, V>, moved: map<K, V>,
          whole: map<K, V>,
                        hash: K -> nat, i: nat)
    requires i < |t| && Moving(t, n, rest, moved, whole, hash, i, |t[i]|)
    ensures Moving(t, n, rest, moved, whole, hash, i + 1, 0)
  {
    hide Chains;
    if i + 1 < |t| { assert t[i + 1][0..] == t[i + 1]; }
    forall key | key in rest ensures Later(t, key, hash, i + 1, 0) {
      assert Later(t, key, hash, i, |t[i]|);
    }
  }

  lemma NoneLeft<K, V>(rest: map<K, V>, moved: map<K, V>, whole: map<K, V>)
    requires Parts(rest, moved, whole) && (|rest| == 0 || rest == map[])
    ensures |rest| == 0 && moved == whole
  {
    assert |rest| == |rest.Keys|;
    assert rest.Keys == {};
  }

  lemma MovingEnd<K, V>(t: seq<seq<Entry<K, V>>>, n: seq<seq<Entry<K, V>>>, rest: map<K, V>, moved: map<K, V>,
          whole: map<K, V>,
                        hash: K -> nat, i: nat, j: nat)
    requires Moving(t, n, rest, moved, whole, hash, i, j) && (i == |t| || |rest| == 0)
    ensures |rest| == 0 && moved == whole && Chains(n, whole, hash)
  {
    hide Chains, Parts, ChainOk;
    if i == |t| {
      if key :| key in rest { assert false; }
    }
    NoneLeft(rest, moved, whole);
  }

  /** The inner loop of `dictExpand`: one chain moves, pair by pair. */
  method MoveChain<K(==), V>(t: seq<seq<Entry<K, V>>>, n0: seq<seq<Entry<K, V>>>, hash: K -> nat, i: nat, left0: nat,
                             ghost rest0: map<K, V>, ghost moved0: map<K, V>, ghost whole: map<K, V>)
    returns (n: seq<seq<Entry<K, V>>>, left: nat, ghost rest: map<K, V>, ghost moved: map<K, V>)
    requires i < |t| && left0 == |rest0| && Moving(t, n0, rest0, moved0, whole, hash, i, 0)
    ensures |n| == |n0| && left == |rest| && Moving(t, n, rest, moved, whole, hash, i + 1, 0)
  {
    hide Moving, Pushed, Less, More;
    n, left, rest, moved := n0, left0, rest0, moved0;
    var j := 0;
    while j < |t[i]|
      invariant j <= |t[i]| && |n| == |n0| && left == |rest| && Moving(t, n, rest, moved, whole, hash, i, j)
    {
      var e := t[i][j];
      MoveOne(t, n, rest, moved, whole, hash, i, j);
      n := Pushed(n, e, hash);
      rest, moved := Less(rest, e), More(moved, e);
      left := left - 1;
      j := j + 1;
    }
    NextChain(t, n, rest, moved, whole, hash, i);
  }

  class Dict<K(==), V> {
    const hash: K -> nat
    var table: seq<seq<Entry<K, V>>>
    var used: nat
    ghost var m: map<K, V>

    ghost predicate Valid()
      reads this
    {
      Chains(table, m, hash) && used == |m| && (table == [] || PowerOfTwo(|table|))
    }

    constructor (h: K -> nat)
      ensures Valid() && m == map[] && hash == h
    {
      hash, table, used, m := h, [], 0, map[];
    }

    /** `dictExpand` (dict.c 89-133): every pair moves to the bigger table; its assertion `used == 0` holds. */
    method Expand(size: nat) returns (ok: bool)
      requires Valid()
      modifies this`table
      ensures Valid() && ok == (used <= size) && (ok ==> |table| >= size && |table| > 0)
            && (!ok ==> table == old(table))
    {
      hide Chains, Moving;
      var wide := NextPower(size);
      if used > size { return false; }
      var n: seq<seq<Entry<K, V>>> := seq(wide, _ => []);
      var t := table;
      var left, i := used, 0;
      ghost var rest, moved: map<K, V> := m, map[];
      MovingStart(t, n, m, hash);
      while i < |t| && left > 0
        invariant i <= |t| && |n| == wide && left == |rest| && Moving(t, n, rest, moved, m, hash, i, 0)
        decreases |t| - i
      {
        n, left, rest, moved := MoveChain(t, n, hash, i, left, rest, moved, m);
        i := i + 1;
      }
      MovingEnd(t, n, rest, moved, m, hash, i, 0);
      table := n;
      return true;
    }

    /** `_dictExpandIfNeeded` (dict.c 296-304). */
    method ExpandIfNeeded()
      requires Valid()
      modifies this`table
      ensures Valid() && table != []
    {
      if table == [] {
        if used > 0 { Empty(); }
        var _ := Expand(INITIAL_SIZE);
      } else if used == |table| {
        var _ := Expand(|table| * 2);
      }
    }

    lemma Empty()
      requires Valid() && table == []
      ensures used == 0
    {
    }

    /** `dictFind` (dict.c 244-257) and the search of `_dictKeyIndex` and `dictDelete`: the key's place in its chain. */
    method Find(key: K) returns (i: nat, j: nat)
      requires Valid()
      ensures key in m ==> i < |table| && j < |table[i]| && table[i][j] == Entry(key, m[key])
                                                         && i == hash(key) % |table|
      ensures key !in m && table != [] ==> i == hash(key) % |table| && j == |table[i]|
    {
      i, j := 0, 0;
      if table == [] { return; }
      i := hash(key) % |table|;
      assert ChainOk(table[i], m, hash, i, |table|);
      assert key in m ==> Found(table, key, hash);
      hide Chains, PowerOfTwo;
      while j < |table[i]|
        invariant j <= |table[i]| && forall k :: 0 <= k < j ==> table[i][k].key != key
      {
        if table[i][j].key == key { return; }
        j := j + 1;
      }
    }

    /** `dictAdd` (dict.c 136-155). */
    method Add(key: K, val: V) returns (ok: bool)
      requires Valid()
      modifies this
      ensures Valid() && ok == (key !in old(m)) && m == if ok then old(m)[key := val] else old(m)
    {
      hide Chains, Pushed;
      ExpandIfNeeded();
      var i, j := Find(key);
      if j < |table[i]| { HasKey(key, i, j); return false; }
      NotKey(key, i, j);
      PushedChains(table, m, hash, Entry(key, val));
      NewSize(m, key, val);
      table := Pushed(table, Entry(key, val), hash);
      used := used + 1;
      m := m[key := val];
      return true;
    }

    lemma HasKey(key: K, i: nat, j: nat)
      requires i < |table| && j < |table[i]| && (key !in m ==> j == |table[i]|)
      ensures key in m
    {
    }

    lemma NotKey(key: K, i: nat, j: nat)
      requires i < |table| && j >= |table[i]| && (key in m ==> j < |table[i]|)
      ensures key !in m
    {
    }

    /** `dictReplace` (dict.c 161-180): true if the key was new. */
    method Replace(key: K, val: V) returns (added: bool)
      requires Valid()
      modifies this
      ensures Valid() && added == (key !in old(m)) && m == old(m)[key := val]
    {
      hide Chains;
      added := Add(key, val);
      if added { return; }
      var i, j := Find(key);
      ChangedChains(table, m, hash, i, j, val);
      SameSize(m, key, val);
      table := table[i := table[i][j := Entry(key, val)]];
      m := m[key := val];
    }

    /** `dictDelete` (dict.c 183-211). */
    method Delete(key: K) returns (ok: bool)
      requires Valid()
      modifies this
      ensures Valid() && ok == (key in old(m)) && m == old(m) - {key}
      ensures if ok then Without(old(table), hash(key), key, table) else table == old(table)
    {
      hide Chains;
      if table == [] { NoKeys(); assert m - {key} == m; return false; }
      var i, j := Find(key);
      if j == |table[i]| {
        assert m - {key} == m;
        return false;
      }
      RemovedChains(table, m, hash, i, j);
      KeySize(m, key);
      SearchIs(table[i], key, j, m, i);
      table := table[i := table[i][..j] + table[i][j + 1..]];
      used := used - 1;
      m := m - {key};
      return true;
    }

    lemma NoKeys()
      requires Valid() && table == []
      ensures m == map[]
    {
    }

    lemma SearchIs(chain: seq<Entry<K, V>>, key: K, j: nat, whole: map<K, V>, i: nat)
      requires Valid() && i < |table| && chain == table[i] && j < |chain| && chain[j].key == key && whole == m
      ensures Search(chain, key) == j
    {
      assert ChainOk(table[i], m, hash, i, |table|);
      var k := Search(chain, key);
      assert chain[k].key == key;
    }
  }

  lemma SameSize<K, V>(m: map<K, V>, key: K, v: V)
    requires key in m
    ensures |m[key := v]| == |m|
  {
    assert m[key := v].Keys == m.Keys;
    assert |m[key := v]| == |m[key := v].Keys| && |m| == |m.Keys|;
  }

  /** The table with one pair taken out of its chain. */
  ghost predicate Without<K, V>(t: seq<seq<Entry<K, V>>>, h: nat, key: K, t1: seq<seq<Entry<K, V>>>) {
    && t != []
    && var i := h % |t|; var j := Search(t[i], key);
       j < |t[i]| && t1 == t[i := t[i][..j] + t[i][j + 1..]]
  }

  // ---------------------------------------------------------------- iteration

  /** Where an iterator stands: a chain, the key returned last, and the one behind it, as remembered then. */
  datatype Iterator<K> = Iterator(index: int, entry: Option<K>, next: Option<K>)

  /** The key behind position `i` of a chain. */
  function After<K, V>(chain: seq<Entry<K, V>>, i: nat): Option<K> {
    if i + 1 < |chain| then Some(chain[i + 1].key) else None
  }

  function Keys<K, V>(chain: seq<Entry<K, V>>): seq<K> {
    seq(|chain|, i requires 0 <= i < |chain| => chain[i].key)
  }

  function KeysFrom<K, V>(table: seq<seq<Entry<K, V>>>, i: nat): seq<K>
    decreases |table| - i
  {
    if i >= |table| then [] else Keys(table[i]) + KeysFrom(table, i + 1)
  }

  ghost predicate Within<K, V>(it: Iterator<K>, table: seq<seq<Entry<K, V>>>) {
    && -1 <= it.index && (it.entry.Some? ==> 0 <= it.index < |table|)
    && (it.entry.Some? && it.next.Some? ==> Search(table[it.index], it.next.value) < |table[it.index]|)
  }

  /** The keys still to come. */
  ghost function Todo<K, V>(it: Iterator<K>, table: seq<seq<Entry<K, V>>>): seq<K>
    requires Within(it, table)
  {
    (if it.entry.Some? && it.next.Some? then Keys(table[it.index][Search(table[it.index], it.next.value)..]) else [])
    + KeysFrom(table, it.index + 1)
  }

  /** No key stands twice in a chain. */
  ghost predicate Apart<K, V>(chain: seq<Entry<K, V>>) {
    forall j, k :: 0 <= j < k < |chain| ==> chain[j].key != chain[k].key
  }

  lemma SearchHit<K, V>(chain: seq<Entry<K, V>>, i: nat)
    requires Apart(chain) && i < |chain|
    ensures Search(chain, chain[i].key) == i
  {
  }

  /** Stepping on within a chain: the head of what is left, and the rest remembered by the key behind it. */
  lemma StepTodo<K, V>(table: seq<seq<Entry<K, V>>>, index: nat, i: nat)
    requires index < |table| && i < |table[index]| && Apart(table[index])
    ensures var it := Iterator(index, Some(table[index][i].key), After(table[index], i));
            Within(it, table) && Keys(table[index][i..]) + KeysFrom(table, index + 1) == [table[index][i].key] +
              Todo(it, table)
  {
    var chain := table[index];
    if i + 1 < |chain| { SearchHit(chain, i + 1); }
    assert chain[i..] == [chain[i]] + chain[i + 1..];
    assert Keys(chain[i..]) == [chain[i].key] + Keys(chain[i + 1..]);
    if i + 1 == |chain| { assert Keys(chain[i + 1..]) == []; }
  }

  lemma NextChainTodo<K, V>(table: seq<seq<Entry<K, V>>>, it: Iterator<K>)
    requires Within(it, table) && it.entry.None? && it.index + 1 < |table|
    ensures Todo(it, table) == Keys(table[it.index + 1][0..]) + KeysFrom(table, it.index + 2)
    ensures table[it.index + 1] == [] ==>
              Within(it.(index := it.index + 1), table) && Todo(it.(index := it.index + 1), table) == Todo(it, table)
  {
    hide Keys, Search;
    var i := it.index + 1;
    assert table[i][0..] == table[i];
    assert KeysFrom(table, i) == Keys(table[i]) + KeysFrom(table, i + 1);
    assert [] + KeysFrom(table, i) == KeysFrom(table, i);
    if table[i] == [] { NoKeys(table[i]); }
  }

  lemma NoKeys<K, V>(chain: seq<Entry<K, V>>)
    requires chain == []
    ensures Keys(chain) == []
  {
  }

  lemma EndTodo<K, V>(table: seq<seq<Entry<K, V>>>, it: Iterator<K>)
    requires Within(it, table) && it.entry.None? && it.index + 1 >= |table|
    ensures var it1 := it.(index := it.index + 1); Todo(it, table) == [] && Within(it1, table) && Todo(it1, table) == []
  {
  }

  lemma ChainEnd<K, V>(table: seq<seq<Entry<K, V>>>, it: Iterator<K>)
    requires Within(it, table) && it.entry.Some?
    ensures it.next.None? ==> Within(it.(entry := None), table) && Todo(it.(entry := None), table) == Todo(it, table)
    ensures it.next.Some? ==> var i := Search(table[it.index], it.next.value);
              i < |table[it.index]| && table[it.index][i].key == it.next.value
              && Todo(it, table) == Keys(table[it.index][i..]) + KeysFrom(table, it.index + 1)
  {
  }

  /** What `dictNext` has done when it returns the key at position `i` of its chain. */
  ghost predicate Returned<K, V>(table: seq<seq<Entry<K, V>>>, it0: Iterator<K>, it: Iterator<K>, r: Option<K>)
    requires Within(it0, table)
  {
    && Within(it, table)
    && (if Todo(it0, table) == [] then r == None && Todo(it, table) == []
        else r == Some(Todo(it0, table)[0]) && it.entry == r && Todo(it, table) == Todo(it0, table)[1..])
    && (r.Some? ==> AtKey(table, it, r.value))
  }

  ghost predicate AtKey<K, V>(table: seq<seq<Entry<K, V>>>, it: Iterator<K>, key: K) {
    && 0 <= it.index < |table| && it.entry == Some(key) && Search(table[it.index], key) < |table[it.index]|
    && it.next == After(table[it.index], Search(table[it.index], key))
  }

  lemma StepReturned<K, V>(table: seq<seq<Entry<K, V>>>, it0: Iterator<K>, index: nat, i: nat)
    requires Within(it0, table) && index < |table| && i < |table[index]| && Apart(table[index])
    requires Todo(it0, table) == Keys(table[index][i..]) + KeysFrom(table, index + 1)
    ensures var key := table[index][i].key; Returned(table, it0, Iterator(index, Some(key), After(table[index], i)),
        Some(key))
  {
    hide Todo, KeysFrom, Keys;
    StepTodo(table, index, i);
    SearchHit(table[index], i);
  }

  /** `dictNext` (dict.c 269-287): the first of the keys still to come. */
  method Next<K(==), V>(table: seq<seq<Entry<K, V>>>, it0: Iterator<K>) returns (it: Iterator<K>, r: Option<K>)
    requires Within(it0, table) && forall i :: 0 <= i < |table| ==> Apart(table[i])
    ensures Returned(table, it0, it, r)
  {
    hide Todo, KeysFrom, Keys, Apart;
    it := it0;
    while true
      invariant Within(it, table) && Todo(it, table) == Todo(it0, table)
      decreases |table| - it.index, it.entry.Some?
    {
      var i: nat := 0;
      if it.entry.None? {
        if it.index + 1 >= |table| {
          EndTodo(table, it);
          return it.(index := it.index + 1), None;
        }
        NextChainTodo(table, it);
        it := it.(index := it.index + 1);
        if table[it.index] != [] { it := it.(entry := Some(table[it.index][0].key)); }
      } else {
        ChainEnd(table, it);
        if it.next.Some? { i := Search(table[it.index], it.next.value); }
        it := it.(entry := it.next);
      }
      if it.entry.Some? {
        StepReturned(table, it0, it.index, i);
        it := it.(next := After(table[it.index], i));
        return it, it.entry;
      }
    }
  }

  /** Deleting the pair just returned leaves what is still to come. */
  lemma DeleteBehind<K, V>(table: seq<seq<Entry<K, V>>>, it: Iterator<K>, t1: seq<seq<Entry<K, V>>>, h: nat)
    requires it.entry.Some? && AtKey(table, it, it.entry.value) && h % |table| == it.index && Apart(table[it.index])
          && Within(it, table)
    requires Without(table, h, it.entry.value, t1)
    ensures Within(it, t1) && Todo(it, t1) == Todo(it, table) && Apart(t1[it.index])
  {
    var chain, j := table[it.index], Search(table[it.index], it.entry.value);
    var c1 := t1[it.index];
    SameFrom(table, t1, it.index + 1);
    if it.next.Some? {
      assert c1[j] == chain[j + 1];
      SearchHit(chain, j + 1);
      SearchHit(c1, j);
      assert c1[j..] == chain[j + 1..];
    }
  }

  lemma {:induction false} SameFrom<K, V>(t: seq<seq<Entry<K, V>>>, t1: seq<seq<Entry<K, V>>>, i: nat)
    requires |t| == |t1| && forall k :: i <= k < |t| ==> t[k] == t1[k]
    ensures KeysFrom(t, i) == KeysFrom(t1, i)
    decreases |t| - i
  {
    if i < |t| { SameFrom(t, t1, i + 1); }
  }

  /** The keys of all chains are those of the map, each once. */
  lemma {:induction false} AllKeys<K, V>(table: seq<seq<Entry<K, V>>>, m: map<K, V>, hash: K -> nat, i: nat)
    requires Chains(table, m, hash) && i <= |table|
    ensures forall j :: 0 <= j < |KeysFrom(table, i)| ==>
              KeysFrom(table, i)[j] in m && hash(KeysFrom(table, i)[j]) % |table| >= i
    ensures forall j, k :: 0 <= j < k < |KeysFrom(table, i)| ==> KeysFrom(table, i)[j] != KeysFrom(table, i)[k]
    ensures forall key :: key in m && hash(key) % |table| >= i ==> key in KeysFrom(table, i)
    decreases |table| - i
  {
    if i < |table| {
      AllKeys(table, m, hash, i + 1);
      assert ChainOk(table[i], m, hash, i, |table|);
      forall key | key in m && hash(key) % |table| >= i ensures key in KeysFrom(table, i) {
        assert Found(table, key, hash);
        if hash(key) % |table| == i {
          var p := Search(table[i], key);
          assert Keys(table[i])[p] == key;
        }
      }
    }
  }

  lemma Distinct<K, V>(table: seq<seq<Entry<K, V>>>, m: map<K, V>, hash: K -> nat, all: seq<K>)
    requires Chains(table, m, hash) && all == KeysFrom(table, 0)
    ensures forall j :: 0 <= j < |all| ==> all[j] in m
    ensures forall j, k :: 0 <= j < k < |all| ==> all[j] != all[k]
    ensures forall key :: key in m ==> key in all
  {
    AllKeys(table, m, hash, 0);
  }

  lemma Begin<K, V>(table: seq<seq<Entry<K, V>>>)
    ensures var it: Iterator<K> := Iterator(-1, None, None); Within(it, table) && Todo(it, table) == KeysFrom(table, 0)
  {
  }

  lemma Separate<K, V>(table: seq<seq<Entry<K, V>>>, m: map<K, V>, hash: K -> nat)
    requires Chains(table, m, hash)
    ensures forall i :: 0 <= i < |table| ==> Apart(table[i])
  {
    forall i | 0 <= i < |table| ensures Apart(table[i]) { assert ChainOk(table[i], m, hash, i, |table|); }
  }

  lemma Bucket<K, V>(table: seq<seq<Entry<K, V>>>, m: map<K, V>, hash: K -> nat, i: nat, key: K)
    requires Chains(table, m, hash) && i < |table| && Search(table[i], key) < |table[i]|
    ensures hash(key) % |table| == i && key in m && Apart(table[i])
  {
    assert ChainOk(table[i], m, hash, i, |table|);
  }

  /** Iterating over the table, deleting the pair just returned whenever its key is in `drop`: every key is returned
      exactly once, and the others remain. */
  method IterateAll<K(==), V>(d: Dict<K, V>, drop: set<K>) returns (visited: seq<K>)
    requires d.Valid()
    modifies d
    ensures d.Valid() && d.m == old(d.m) - drop
    ensures forall j :: 0 <= j < |visited| ==> visited[j] in old(d.m)
    ensures forall j, k :: 0 <= j < k < |visited| ==> visited[j] != visited[k]
    ensures forall key :: key in old(d.m) ==> key in visited
  {
    hide Chains, Todo, Within, Without, AtKey, Remaining, Returned;
    visited := [];
    var it, r := Iterator(-1, None, None), None;
    ghost var all := KeysFrom(d.table, 0);
    Distinct(d.table, d.m, d.hash, all);
    Begin(d.table);
    DropNone(d.m, drop);
    while true
      invariant d.Valid() && Within(it, d.table) && visited + Todo(it, d.table) == all
      invariant d.m == Remaining(old(d.m), drop, visited)
      decreases |all| - |visited|
    {
      Separate(d.table, d.m, d.hash);
      ghost var it0 := it;
      it, r := Next(d.table, it);
      Advance(d.table, it0, it, r, visited, all);
      if r.None? { break; }
      DropNext(old(d.m), drop, visited, r.value);
      visited := visited + [r.value];
      if r.value in drop {
        ghost var before := d.table;
        Here(before, it, r.value);
        Bucket(before, d.m, d.hash, it.index, r.value);
        var _ := d.Delete(r.value);
        DeleteBehind(before, it, d.table, d.hash(r.value));
      }
    }
    assert visited == all;
    DropAll(old(d.m), drop, visited);
  }

  lemma Here<K, V>(table: seq<seq<Entry<K, V>>>, it: Iterator<K>, key: K)
    requires AtKey(table, it, key)
    ensures 0 <= it.index < |table| && Search(table[it.index], key) < |table[it.index]|
  {
  }

  lemma Advance<K, V>(table: seq<seq<Entry<K, V>>>, it0: Iterator<K>, it: Iterator<K>, r: Option<K>, visited: seq<K>,
          all: seq<K>)
    requires Within(it0, table) && Returned(table, it0, it, r) && visited + Todo(it0, table) == all
    ensures Within(it, table)
    ensures r.None? ==> visited == all
    ensures r.Some? ==> it.entry == r && AtKey(table, it, r.value) && visited + [r.value] + Todo(it, table) == all
                        && |visited| < |all|
  {
    hide Todo, Within;
    var todo := Todo(it0, table);
    if todo != [] { assert todo == [todo[0]] + todo[1..]; }
  }

  ghost function Remaining<K, V>(m: map<K, V>, drop: set<K>, visited: seq<K>): map<K, V> {
    m - (drop * set key | key in visited)
  }

  lemma DropNone<K, V>(m: map<K, V>, drop: set<K>)
    ensures Remaining(m, drop, []) == m
  {
  }

  lemma DropNext<K, V>(m: map<K, V>, drop: set<K>, visited: seq<K>, key: K)
    ensures Remaining(m, drop, visited + [key]) == if key in drop then Remaining(m, drop, visited) - {key}
        else Remaining(m, drop, visited)
  {
    var a, b := drop * (set k | k in visited), drop * (set k | k in visited + [key]);
    assert b == if key in drop then a + {key} else a;
  }

  lemma DropAll<K, V>(m: map<K, V>, drop: set<K>, visited: seq<K>)
    requires forall key :: key in m ==> key in visited
    ensures Remaining(m, drop, visited) == m - drop
  {
  }
}
