/** The explicit producer used by one thread: a circular list of blocks and a circular index of their bases hold a
    first-in first-out sequence. */
module BlockRing {

  datatype Option<T> = None | Some(value: T)

  /** A block: its elements, which of them are dequeued, and the next block of the circular list. */
  datatype Block<T> = Block(cells: seq<Option<T>>, done: seq<bool>, next: nat)

  datatype Entry = Entry(base: nat, block: nat)

  predicate AllDone<T>(b: Block<T>) {
    forall i :: 0 <= i < |b.done| ==> b.done[i]
  }

  // ---------------------------------------------------------------- arithmetic

  lemma ModIs(q: int, s: nat, r: nat, n: int)
    requires r < s && n == q * s + r
    ensures n % s == r
  {
    var d := n / s;
    assert n == d * s + n % s;
    assert (q - d) * s == n % s - r;
    assert q - d >= 1 ==> (q - d) * s >= s;
    assert q - d <= -1 ==> (q - d) * s + s <= 0;
  }

  /** A position in a ring of `n` slots. */
  function Wrap(x: int, n: nat): (p: nat)
    requires n > 0
    ensures p < n
  {
    x % n
  }

  /** Subtracting after wrapping is subtracting before. */
  lemma ModMinus(a: int, b: int, s: nat)
    requires s > 0
    ensures Wrap(Wrap(a, s) + b, s) == Wrap(a + b, s)
  {
    var q := (a + b) / s - a / s;
    assert a % s + b == q * s + (a + b) % s by {
      assert a == (a / s) * s + a % s && a + b == ((a + b) / s) * s + (a + b) % s;
      assert q * s == ((a + b) / s) * s - (a / s) * s;
    }
    ModIs(q, s, (a + b) % s, a % s + b);
  }

  /** Positions less than a whole ring apart lie in different slots. */
  lemma ModApart(a: nat, b: nat, s: nat)
    requires a < b < a + s
    ensures Wrap(a, s) != Wrap(b, s)
  {
    var q := b / s - a / s;
    assert q * s == (b - a) - (b % s - a % s) by {
      assert a == (a / s) * s + a % s && b == (b / s) * s + b % s;
      assert q * s == (b / s) * s - (a / s) * s;
    }
    assert q >= 1 ==> q * s >= s;
    assert q <= 0 ==> q * s <= 0;
  }

  lemma ModSmall(a: nat, s: nat)
    requires a < s
    ensures Wrap(a, s) == a
  {
  }

  /** The index of the first element of the i-th block. */
  function Base(first: nat, i: nat, size: nat): nat {
    first + i * size
  }

  lemma BaseNext(first: nat, i: nat, size: nat)
    ensures Base(first, i + 1, size) == Base(first, i, size) + size == Base(first + size, i, size)
          && Base(first, 0, size) == first
  {
  }

  lemma MulPositive(a: nat, b: nat)
    ensures a * b >= 0
  {
  }

  /** The next multiple. */
  lemma NextMultiple(n: nat, q: nat, size: nat)
    requires n * size < q * size
    ensures (n + 1) * size <= q * size
  {
    if q <= n { MulMono(q, n, size); } else { MulMono(n + 1, q, size); }
  }

  lemma MulMono(a: nat, b: nat, size: nat)
    requires a <= b
    ensures a * size <= b * size
  {
    var d: nat := b - a;
    MulPositive(d, size);
    assert b * size == a * size + d * size by { assert b == a + d; }
  }

  lemma BaseOrder(first: nat, i: nat, j: nat, size: nat)
    requires i < j
    ensures Base(first, i, size) + size <= Base(first, j, size)
  {
    var d: nat := j - i - 1;
    assert j * size == i * size + size + d * size by { assert j == i + 1 + d; }
    MulPositive(d, size);
  }

  lemma BaseMod(first: nat, i: nat, size: nat)
    requires size > 0 && first % size == 0
    ensures Base(first, i, size) % size == 0
  {
    var q := first / size;
    assert first == q * size;
    assert (q + i) * size == q * size + i * size;
    ModIs(q + i, size, 0, first + i * size);
  }

  /** A boundary in the i-th block is its beginning. */
  lemma BaseAt(first: nat, i: nat, size: nat, x: nat)
    requires size > 0 && first % size == 0 && Base(first, i, size) <= x < Base(first, i, size) + size
    ensures x % size == x - Base(first, i, size)
  {
    BaseMod(first, i, size);
    var q := Base(first, i, size) / size;
    ModIs(q, size, x - Base(first, i, size), x);
  }

  /** The block that holds index `x`. */
  lemma {:induction false} Where(first: nat, n: nat, size: nat, x: nat) returns (i: nat)
    requires size > 0 && first <= x < Base(first, n, size)
    ensures i < n && Base(first, i, size) <= x < Base(first, i, size) + size
  {
    BaseNext(first, n - 1, size);
    if Base(first, n - 1, size) <= x { i := n - 1; } else { i := Where(first, n - 1, size, x); }
  }

  /** Two bases divided by the block size differ by their distance in blocks. */
  lemma BaseOffset(first: nat, i: nat, j: nat, size: nat)
    requires size > 0
    ensures (Base(first, i, size) - Base(first, j, size)) / size == i - j
  {
    var d := i - j;
    assert i * size - j * size == d * size;
    var q := (d * size) / size;
    ModIs(d, size, 0, d * size);
    assert d * size == q * size + (d * size) % size;
    assert (d - q) * size == 0;
  }

  // ---------------------------------------------------------------- state

  /** The fields of an explicit producer: `front` is the current slot of the published index, `prFront` the next one;
      the index is missing if its first allocation failed. */
  datatype State<T> = State(size: nat, limit: Option<nat>, tail: nat, head: nat, blocks: seq<Block<T>>,
          tailBlock: Option<nat>,
                            entries: Option<seq<Entry>>, front: int, prFront: nat, prUsed: nat, prSize: nat)

  /** What the fields stand for: the listed blocks, oldest first; the base of the oldest; how many slots of the index
      have been filled in turn; and the elements of the queue. */
  datatype View<T> = View(order: seq<nat>, first: nat, pushes: nat, contents: seq<T>)

  /** The circular list: every block leads to the next younger one, the youngest to the oldest. */
  ghost predicate ListOk<T>(s: State<T>, v: View<T>) {
    && |v.order| == s.prUsed && (s.tailBlock.None? <==> v.order == [])
    && (v.order != [] ==> s.tailBlock == Some(v.order[|v.order| - 1]))
    && (forall i :: 0 <= i < |v.order| ==> v.order[i] < |s.blocks|)
    && (forall i, j :: 0 <= i < j < |v.order| ==> v.order[i] != v.order[j])
    && (forall i :: 0 <= i < |v.order| ==> s.blocks[v.order[i]].next == v.order[if i + 1 < |v.order| then i + 1 else 0])
  }

  /** Slot and entry of the i-th listed block. */
  ghost predicate EntryOk<T>(s: State<T>, v: View<T>, index: seq<Entry>, i: nat)
    requires i < |v.order| <= v.pushes && s.prSize > 0
  {
    var p := Wrap(v.pushes - |v.order| + i, s.prSize);
    p < |index| && index[p] == Entry(Base(v.first, i, s.size), v.order[i])
  }

  ghost predicate IndexOk<T>(s: State<T>, v: View<T>) {
    && s.prUsed == |v.order| <= v.pushes && s.prSize > 0
    && (s.entries.None? ==> s.prUsed == 0 && s.prFront == 0)
    && (s.entries.Some? ==> IndexHolds(s, v))
  }

  ghost predicate IndexHolds<T>(s: State<T>, v: View<T>)
    requires |v.order| <= v.pushes && s.prSize > 0 && s.entries.Some?
  {
    && |s.entries.value| == s.prSize && s.prUsed <= s.prSize && s.prFront == Wrap(v.pushes, s.prSize)
    && (v.order != [] ==> s.front == Wrap(v.pushes - 1, s.prSize))
    && forall i :: 0 <= i < |v.order| ==> EntryOk(s, v, s.entries.value, i)
  }

  function End<T>(s: State<T>, v: View<T>): nat {
    Base(v.first, |v.order|, s.size)
  }

  /** The blocks' bases reach the tail; the head has left the blocks before the first. */
  ghost predicate RangeOk<T>(s: State<T>, v: View<T>) {
    && s.size > 0 && v.first % s.size == 0 && v.first <= s.head <= s.tail <= End(s, v) && End(s, v) <= s.tail + s.size
    && |v.contents| == s.tail - s.head
    && (s.limit.Some? ==> s.limit.value % s.size == 0 && |v.order| * s.size <= s.limit.value)
  }

  /** The cell at offset `r` of the i-th block: marked exactly if dequeued; its element in place until then. */
  ghost predicate CellOk<T>(s: State<T>, v: View<T>, i: nat, r: nat)
    requires i < |v.order| && v.order[i] < |s.blocks| && |v.contents| == s.tail - s.head
  {
    var b, x := s.blocks[v.order[i]], Base(v.first, i, s.size) + r;
    && |b.cells| == |b.done| == s.size && r < s.size
    && (b.done[r] <==> x < s.head)
    && (s.head <= x < s.tail ==> b.cells[r] == Some(v.contents[x - s.head]))
  }

  ghost predicate CellsOk<T>(s: State<T>, v: View<T>)
    requires (forall i :: 0 <= i < |v.order| ==> v.order[i] < |s.blocks|) && |v.contents| == s.tail - s.head
  {
    forall i, r :: 0 <= i < |v.order| && 0 <= r < s.size ==> CellOk(s, v, i, r)
  }

  ghost predicate Inv<T>(s: State<T>, v: View<T>) {
    ListOk(s, v) && IndexOk(s, v) && RangeOk(s, v) && CellsOk(s, v)
  }

  /** Between operations the youngest block is not still unused. */
  ghost predicate Settled<T>(s: State<T>, v: View<T>) {
    Inv(s, v) && (v.order != [] ==> End(s, v) < s.tail + s.size)
  }

  /** At a block boundary all listed blocks are full. */
  lemma Boundary<T>(s: State<T>, v: View<T>)
    requires RangeOk(s, v) && s.tail % s.size == 0 && (v.order != [] ==> End(s, v) < s.tail + s.size)
    ensures s.tail == End(s, v)
  {
    BaseNext(v.first, 0, s.size);
    if v.order != [] && s.tail < End(s, v) {
      var n := |v.order| - 1;
      BaseNext(v.first, n, s.size);
      BaseAt(v.first, n, s.size, s.tail);
    }
  }

  // ---------------------------------------------------------------- steps

  /** The block goes on the index, in the next slot. */
  function Published<T>(s: State<T>, b: nat): State<T>
    requires s.entries.Some? && s.prFront < |s.entries.value| && s.prSize > 0
  {
    s.(entries := Some(s.entries.value[s.prFront := Entry(s.tail, b)]), front := s.prFront,
       prFront := Wrap(s.prFront + 1, s.prSize))
  }

  /** The index after the oldest of its `drop` blocks (none or one) gave way to the block that starts at the tail. */
  lemma PublishedIndex<T>(s: State<T>, v: View<T>, b: nat, drop: nat, s1: State<T>, v1: View<T>)
    requires IndexOk(s, v) && s.entries.Some? && s.tail == End(s, v) && drop <= 1 && drop <= |v.order|
    requires |v.order| < s.prSize + drop && (drop == 1 ==> |v.order| > 0)
    requires s1 == Published(s, b).(blocks := s1.blocks, tailBlock := s1.tailBlock, prUsed := |v1.order|)
    requires v1.order == v.order[drop..] + [b] && v1.first == Base(v.first, drop, s.size) && v1.pushes == v.pushes + 1
    ensures IndexOk(s1, v1)
  {
    hide Base, Wrap;
    var n, m := |v.order|, |v1.order|;
    var e, e1 := s.entries.value, s1.entries.value;
    ModMinus(v.pushes, 1, s.prSize);
    BaseNext(v.first, 0, s.size);
    forall i | 0 <= i < m ensures EntryOk(s1, v1, e1, i) {
      BaseNext(v.first, i, s.size);
      if i + drop < n {
        assert EntryOk(s, v, e, i + drop);
        ModApart(v.pushes - n + i + drop, v.pushes, s.prSize);
      }
    }
  }

  /** The oldest block, empty by now, becomes the youngest. */
  function Reused<T>(s: State<T>, b: nat): State<T>
    requires s.entries.Some? && s.prFront < |s.entries.value| && s.prSize > 0 && b < |s.blocks|
  {
    var s1 := Published(s, b);
    s1.(tailBlock := Some(b), blocks := s.blocks[b := s.blocks[b].(done := seq(|s.blocks[b].done|, _ => false))])
  }

  lemma ReuseKeeps<T>(s: State<T>, v: View<T>)
    requires Settled(s, v) && s.tail % s.size == 0 && v.order != [] && AllDone(s.blocks[v.order[0]])
    ensures s.entries.Some? && s.prFront < |s.entries.value|
    ensures var s1, v1 := Reused(s, v.order[0]),
        View(v.order[1..] + [v.order[0]], v.first + s.size, v.pushes + 1, v.contents);
            Inv(s1, v1) && s1.tail + s1.size == End(s1, v1)
  {
    hide Base;
    var b := v.order[0];
    var s1, v1 := Reused(s, b), View(v.order[1..] + [b], v.first + s.size, v.pushes + 1, v.contents);
    Boundary(s, v);
    BaseNext(v.first, 0, s.size);
    BaseNext(v.first, |v.order|, s.size);
    PublishedIndex(s, v, b, 1, s1, v1);
    assert CellOk(s, v, 0, s.size - 1);
    assert s.blocks[b].done[s.size - 1];
    assert v1.first % s.size == 0 by { BaseMod(v.first, 1, s.size); }
    assert RangeOk(s1, v1);
    forall i, r | 0 <= i < |v1.order| && 0 <= r < s1.size ensures CellOk(s1, v1, i, r) {
      BaseNext(v.first, i, s.size);
      if i + 1 < |v.order| {
        assert v1.order[i] == v.order[i + 1];
        assert CellOk(s, v, i + 1, r);
      } else {
        assert CellOk(s, v, 0, r);
      }
    }
    RotatedList(s, v, s1, v1);
  }

  lemma RotatedList<T>(s: State<T>, v: View<T>, s1: State<T>, v1: View<T>)
    requires ListOk(s, v) && v.order != [] && v1.order == v.order[1..] + [v.order[0]] && s1.prUsed == s.prUsed
    requires s1.tailBlock == Some(v.order[0]) && |s1.blocks| == |s.blocks|
    requires forall b :: 0 <= b < |s.blocks| ==> s1.blocks[b].next == s.blocks[b].next
    ensures ListOk(s1, v1)
  {
    var n := |v.order|;
    forall i | 0 <= i < n ensures v1.order[i] == v.order[if i + 1 < n then i + 1 else 0] {
    }
  }

  /** A new block, linked in behind the youngest. */
  function Inserted<T>(s: State<T>): State<T>
    requires s.entries.Some? && s.prFront < |s.entries.value| && s.prSize > 0
          && (s.tailBlock.Some? ==> s.tailBlock.value < |s.blocks|)
  {
    var b := |s.blocks|;
    var s1 := Published(s, b).(tailBlock := Some(b), prUsed := s.prUsed + 1);
    if s.tailBlock.None? then
      s1.(blocks := s.blocks + [Block(seq(s.size, _ => None), seq(s.size, _ => false), b)])
    else
      var t := s.tailBlock.value;
      s1.(blocks := s.blocks[t := s.blocks[t].(next := b)] +
          [Block(seq(s.size, _ => None), seq(s.size, _ => false), s.blocks[t].next)])
  }

  lemma InsertKeeps<T>(s: State<T>, v: View<T>)
    requires Settled(s, v) && s.tail % s.size == 0 && s.entries.Some? && s.prUsed < s.prSize
    requires s.limit.Some? ==> (|v.order| + 1) * s.size <= s.limit.value
    ensures s.prFront < |s.entries.value|
    ensures var s1, v1 := Inserted(s), View(v.order + [|s.blocks|], v.first, v.pushes + 1, v.contents);
            Inv(s1, v1) && s1.tail + s1.size == End(s1, v1)
  {
    hide Base, CellOk;
    var b := |s.blocks|;
    var s1, v1 := Inserted(s), View(v.order + [b], v.first, v.pushes + 1, v.contents);
    Boundary(s, v);
    BaseNext(v.first, 0, s.size);
    BaseNext(v.first, |v.order|, s.size);
    assert v.order[0..] == v.order;
    PublishedIndex(s, v, b, 0, s1, v1);
    assert RangeOk(s1, v1);
    InsertedList(s, v);
    InsertedCells(s, v);
  }

  lemma InsertedList<T>(s: State<T>, v: View<T>)
    requires ListOk(s, v) && s.entries.Some? && s.prFront < |s.entries.value| && s.prSize > 0
    ensures s.tailBlock.Some? ==> s.tailBlock.value < |s.blocks|
    ensures ListOk(Inserted(s), View(v.order + [|s.blocks|], v.first, v.pushes + 1, v.contents))
  {
  }

  lemma InsertedCells<T>(s: State<T>, v: View<T>)
    requires ListOk(s, v) && s.entries.Some? && s.prFront < |s.entries.value| && s.prSize > 0
    requires RangeOk(s, v) && CellsOk(s, v) && s.tail == End(s, v)
    ensures ListOk(Inserted(s), View(v.order + [|s.blocks|], v.first, v.pushes + 1, v.contents))
    ensures CellsOk(Inserted(s), View(v.order + [|s.blocks|], v.first, v.pushes + 1, v.contents))
  {
    InsertedList(s, v);
    hide Base, ListOk;
    var s1, v1 := Inserted(s), View(v.order + [|s.blocks|], v.first, v.pushes + 1, v.contents);
    InsertedParts(s, v);
    forall i, r | 0 <= i < |v1.order| && 0 <= r < s1.size ensures CellOk(s1, v1, i, r) {
      if i < |v.order| { assert CellOk(s, v, i, r); }
    }
  }

  lemma InsertedParts<T>(s: State<T>, v: View<T>)
    requires ListOk(s, v) && s.entries.Some? && s.prFront < |s.entries.value| && s.prSize > 0
    ensures var s1 := Inserted(s);
            && |s1.blocks| == |s.blocks| + 1 && s1.size == s.size && s1.tail == s.tail && s1.head == s.head
            && s1.blocks[|s.blocks|].cells == seq(s.size, _ => None)
            && s1.blocks[|s.blocks|].done == seq(s.size, _ => false)
            && (forall b :: 0 <= b < |s.blocks| ==>
                s1.blocks[b].cells == s.blocks[b].cells && s1.blocks[b].done == s.blocks[b].done)
            && forall i :: 0 <= i < |v.order| ==> v.order[i] < |s.blocks|
  {
  }

  /** The oldest block still holds something, and the limit leaves room for a block of elements: it leaves room for
      one more block. */
  lemma RoomLeft<T>(s: State<T>, v: View<T>, limit: nat)
    requires Settled(s, v) && s.tail % s.size == 0 && (v.order != [] ==> !AllDone(s.blocks[v.order[0]]))
    requires s.limit == Some(limit) && 0 < limit && s.tail - s.head <= limit - s.size
    ensures (|v.order| + 1) * s.size <= limit
  {
    var q := limit / s.size;
    assert limit == q * s.size;
    LiveSpan(s, v);
    NextMultiple(|v.order|, q, s.size);
  }

  lemma LiveSpan<T>(s: State<T>, v: View<T>)
    requires Settled(s, v) && s.tail % s.size == 0 && (v.order != [] ==> !AllDone(s.blocks[v.order[0]]))
    ensures |v.order| * s.size < s.tail - s.head + s.size
  {
    hide Base;
    Boundary(s, v);
    assert End(s, v) == v.first + |v.order| * s.size by { BaseIs(v.first, |v.order|, s.size); }
    BaseNext(v.first, 0, s.size);
    if v.order != [] {
      var b := s.blocks[v.order[0]];
      assert CellOk(s, v, 0, 0);
      var r :| 0 <= r < |b.done| && !b.done[r];
      assert CellOk(s, v, 0, r);
    }
  }

  lemma BaseIs(first: nat, i: nat, size: nat)
    ensures Base(first, i, size) == first + i * size
  {
  }

  /** The element goes into the youngest block. */
  function Put<T>(s: State<T>, e: T): State<T>
    requires s.size > 0 && s.tailBlock.Some? && s.tailBlock.value < |s.blocks|
          && |s.blocks[s.tailBlock.value].cells| == s.size
  {
    var t := s.tailBlock.value;
    s.(blocks := s.blocks[t := s.blocks[t].(cells := s.blocks[t].cells[s.tail % s.size := Some(e)])],
       tail := s.tail + 1)
  }

  lemma PutReady<T>(s: State<T>, v: View<T>)
    requires Inv(s, v) && v.order != []
    ensures s.size > 0 && s.tailBlock.Some? && s.tailBlock.value < |s.blocks|
          && |s.blocks[s.tailBlock.value].cells| == s.size
  {
    assert CellOk(s, v, |v.order| - 1, 0);
  }

  lemma PutKeeps<T>(s: State<T>, v: View<T>, e: T)
    requires Inv(s, v) && v.order != [] && s.tail < End(s, v)
    ensures s.size > 0 && s.tailBlock.Some? && s.tailBlock.value < |s.blocks|
          && |s.blocks[s.tailBlock.value].cells| == s.size
    ensures Settled(Put(s, e), v.(contents := v.contents + [e])) && Put(s, e).size == s.size
          && Put(s, e).limit == s.limit
  {
    hide Base, EntryOk;
    PutReady(s, v);
    var s1, v1 := Put(s, e), v.(contents := v.contents + [e]);
    var n := |v.order| - 1;
    BaseNext(v.first, n, s.size);
    BaseAt(v.first, n, s.size, s.tail);
    forall i, r | 0 <= i < |v1.order| && 0 <= r < s1.size ensures CellOk(s1, v1, i, r) {
      assert CellOk(s, v, i, r);
      if i < n { BaseOrder(v.first, i, n, s.size); }
    }
    SameIndex(s, v, s1, v1);
  }

  lemma SameIndex<T>(s: State<T>, v: View<T>, s1: State<T>, v1: View<T>)
    requires IndexOk(s, v) && s1 == s.(tail := s1.tail, head := s1.head, blocks := s1.blocks)
          && v1 == v.(contents := v1.contents)
    ensures IndexOk(s1, v1)
  {
    hide Base;
    if s.entries.Some? {
      forall i | 0 <= i < |v1.order| ensures EntryOk(s1, v1, s1.entries.value, i) {
        assert EntryOk(s, v, s.entries.value, i);
      }
    }
  }

  /** The element at the head is taken out of block `b`. */
  function Taken<T>(s: State<T>, b: nat): State<T>
    requires s.size > 0 && b < |s.blocks| && |s.blocks[b].done| == s.size
  {
    s.(head := s.head + 1, blocks := s.blocks[b := s.blocks[b].(done := s.blocks[b].done[s.head % s.size := true])])
  }

  lemma TakeKeeps<T>(s: State<T>, v: View<T>, i: nat)
    requires Settled(s, v) && s.head < s.tail && i < |v.order|
    requires Base(v.first, i, s.size) <= s.head < Base(v.first, i, s.size) + s.size
    ensures v.order[i] < |s.blocks| && |s.blocks[v.order[i]].cells| == |s.blocks[v.order[i]].done| ==
        s.size > s.head % s.size
    ensures s.blocks[v.order[i]].cells[s.head % s.size] == Some(v.contents[0])
    ensures Settled(Taken(s, v.order[i]), v.(contents := v.contents[1..]))
  {
    hide Base, EntryOk;
    BaseAt(v.first, i, s.size, s.head);
    assert CellOk(s, v, i, s.head % s.size);
    var s1, v1 := Taken(s, v.order[i]), v.(contents := v.contents[1..]);
    forall j, r | 0 <= j < |v1.order| && 0 <= r < s1.size ensures CellOk(s1, v1, j, r) {
      assert CellOk(s, v, j, r);
      if j < i { BaseOrder(v.first, j, i, s.size); } else if i < j { BaseOrder(v.first, i, j, s.size); }
    }
    SameIndex(s, v, s1, v1);
  }

  lemma EntryAt<T>(s: State<T>, v: View<T>, i: nat)
    requires IndexOk(s, v) && i < |v.order|
    ensures s.prSize > 0 && s.entries.Some? && |s.entries.value| == s.prSize && |v.order| <= v.pushes
    ensures s.front == Wrap(v.pushes - 1, s.prSize)
    ensures var p := Wrap(v.pushes - |v.order| + i, s.prSize);
            p < |s.entries.value| && s.entries.value[p] == Entry(Base(v.first, i, s.size), v.order[i])
  {
    hide Base, Wrap;
    assert EntryOk(s, v, s.entries.value, i);
  }

  lemma OffsetSlot(pushes: nat, n: nat, i: nat, size: nat)
    requires size > 0 && 0 < n <= pushes
    ensures Wrap(Wrap(pushes - 1, size) + (i - (n - 1)), size) == Wrap(pushes - n + i, size)
  {
    hide Wrap;
    ModMinus(pushes - 1, i - (n - 1), size);
    assert pushes - 1 + (i - (n - 1)) == pushes - n + i;
  }

  /** The offset between two bases, in blocks, leads from the front to the block's slot. */
  lemma Lookup<T>(s: State<T>, v: View<T>, i: nat)
    requires Settled(s, v) && i < |v.order|
    ensures s.entries.Some? && 0 <= s.front < |s.entries.value| && s.size > 0 && s.prSize > 0
    ensures var offset := (Base(v.first, i, s.size) - s.entries.value[s.front].base) / s.size;
            Wrap(s.front + offset, s.prSize) < |s.entries.value|
              && s.entries.value[Wrap(s.front + offset, s.prSize)].block == v.order[i]
  {
    hide Base, Wrap, CellsOk, ListOk, IndexOk;
    var n := |v.order|;
    EntryAt(s, v, n - 1);
    EntryAt(s, v, i);
    BaseOffset(v.first, i, n - 1, s.size);
    OffsetSlot(v.pushes, n, i, s.prSize);
  }

  // ---------------------------------------------------------------- the producer

  class ExplicitProducer<T> {
    var s: State<T>
    ghost var v: View<T>

    ghost predicate Valid()
      reads this
    {
      Settled(s, v)
    }

    ghost function Contents(): seq<T>
      reads this
    {
      v.contents
    }

    constructor (size: nat, limit: Option<nat>, initial: nat, alloc: bool)
      requires size > 0 && initial > 0 && (limit.Some? ==> limit.value % size == 0)
      ensures Valid() && Contents() == [] && s.size == size && s.limit == limit
    {
      s := State(size, limit, 0, 0, [], None, None, -1, 0, 0, initial);
      v := View([], 0, 0, []);
      new;
      var _ := NewBlockIndex(alloc);
    }

    /** The copying loop of `new_block_index`. */
    method CopyIndex(size: nat) returns (bigger: array<Entry>, j: nat)
      requires Valid() && s.prUsed <= size
      ensures fresh(bigger) && bigger.Length == size && j == s.prUsed == |v.order|
      ensures forall k :: 0 <= k < j ==> bigger[k] == Entry(Base(v.first, k, s.size), v.order[k])
    {
      hide Base, CellsOk, ListOk;
      bigger := new Entry[size];
      j := 0;
      if s.prUsed != 0 {
        var i := Wrap(s.prFront - s.prUsed, s.prSize);
        ModMinus(v.pushes, 0 - s.prUsed, s.prSize);
        while true
          invariant j < s.prUsed && i == Wrap(v.pushes - s.prUsed + j, s.prSize)
          invariant forall k :: 0 <= k < j ==> bigger[k] == Entry(Base(v.first, k, s.size), v.order[k])
          decreases s.prUsed - j
        {
          assert EntryOk(s, v, s.entries.value, j);
          bigger[j] := s.entries.value[i];
          ModMinus(v.pushes - s.prUsed + j, 1, s.prSize);
          i := Wrap(i + 1, s.prSize);
          j := j + 1;
          if j < s.prUsed { ModApart(v.pushes - s.prUsed + j, v.pushes, s.prSize); }
          if i == s.prFront { break; }
        }
      }
    }

    /** `new_block_index` (concurrentqueue.h 2341-2378): a bigger index in which every block is found as before. */
    method NewBlockIndex(alloc: bool) returns (ok: bool)
      requires Valid()
      modifies this
      ensures Valid() && ok == alloc
      ensures if ok then
                && s == old(s).(entries := s.entries, front := s.front, prFront := s.prFront,
                                prSize := 2 * old(s).prSize)
                && v == old(v).(pushes := v.pushes) && s.entries.Some? && s.prUsed < s.prSize
              else s == old(s) && v == old(v)
    {
      hide Base, Settled;
      if !alloc { return false; }
      EnqueueReady(s, v);
      var bigger, j := CopyIndex(2 * s.prSize);
      ghost var s0, v0 := s, v;
      s := s.(prSize := 2 * s.prSize, front := s.prUsed - 1, prFront := j, entries := Some(bigger[..]));
      v := v.(pushes := s.prUsed);
      Renumbered(s0, v0, s, v);
      return true;
    }

    /** The block ahead is empty: use it again. */
    method Reuse()
      requires Valid() && s.tail % s.size == 0 && s.tailBlock.Some? && s.tailBlock.value < |s.blocks|
      requires s.blocks[s.tailBlock.value].next < |s.blocks| && AllDone(s.blocks[s.blocks[s.tailBlock.value].next])
      modifies this
      ensures Inv(s, v) && s.tail + s.size == End(s, v) && s.size > 0 && Kept(old(s), old(v), s, v)
    {
      hide Inv, Base, Reused, AllDone;
      EnqueueReady(s, v);
      ReuseKeeps(s, v);
      ReusedKept(s, v);
      var b := s.blocks[s.tailBlock.value].next;
      s, v := Reused(s, b), View(v.order[1..] + [b], v.first + s.size, v.pushes + 1, v.contents);
    }

    /** A new block, if the limit and the allocator let it be. */
    method Insert(allocIndex: bool, allocBlock: bool) returns (ok: bool)
      requires Valid() && s.tail % s.size == 0
            && (v.order != [] ==> v.order[0] < |s.blocks| && !AllDone(s.blocks[v.order[0]]))
      modifies this
      ensures Kept(old(s), old(v), s, v)
      ensures if ok then Inv(s, v) && s.tail + s.size == End(s, v) && s.size > 0 else Valid()
      ensures allocIndex && allocBlock && (s.limit.Some? ==> s.tail - s.head + s.size <= s.limit.value) ==> ok
    {
      hide Settled, Inv, Base, Inserted, AllDone;
      EnqueueReady(s, v);
      if s.limit.Some? && (s.limit.value == 0 || s.limit.value - s.size < s.tail - s.head) { return false; }
      if s.limit.Some? { RoomLeft(s, v, s.limit.value); }
      if s.entries.None? || s.prUsed == s.prSize {
        var r := NewBlockIndex(allocIndex);
        if !r { return false; }
        EnqueueReady(s, v);
      }
      if !allocBlock { return false; }
      InsertKeeps(s, v);
      InsertedKept(s);
      s, v := Inserted(s), View(v.order + [|s.blocks|], v.first, v.pushes + 1, v.contents);
      return true;
    }

    /** `enqueue` (concurrentqueue.h 1834-1937). */
    method Enqueue(e: T, allocIndex: bool, allocBlock: bool) returns (ok: bool)
      requires Valid()
      modifies this
      ensures Valid() && s.size == old(s).size && s.limit == old(s).limit
      ensures Contents() == if ok then old(Contents()) + [e] else old(Contents())
      ensures allocIndex && allocBlock && (s.limit.Some? ==> |old(Contents())| + s.size <= s.limit.value) ==> ok
    {
      hide Settled, Inv, Base, Put, AllDone, End;
      EnqueueReady(s, v);
      if s.tail % s.size == 0 {
        if s.tailBlock.Some? && AllDone(s.blocks[s.blocks[s.tailBlock.value].next]) {
          Reuse();
        } else {
          var r := Insert(allocIndex, allocBlock);
          if !r { return false; }
        }
        HasBlock(s, v);
      } else {
        NotFull(s, v);
      }
      PutKeeps(s, v, e);
      s, v := Put(s, e), v.(contents := v.contents + [e]);
      return true;
    }

    /** `dequeue` (concurrentqueue.h 1988-2026) of one thread: the counters hand out the head if there is something. */
    method Dequeue() returns (r: Option<T>)
      requires Valid()
      modifies this
      ensures Valid() && s.size == old(s).size && s.limit == old(s).limit
      ensures if old(Contents()) == [] then r == None && Contents() == []
              else r == Some(old(Contents())[0]) && Contents() == old(Contents())[1..]
    {
      if s.head >= s.tail { return None; }
      hide Base, ListOk, IndexHolds, CellsOk;
      var index := s.head;
      ghost var i := Where(v.first, |v.order|, s.size, index);
      BaseAt(v.first, i, s.size, index);
      Lookup(s, v, i);
      var headBase := s.entries.value[s.front].base;
      var offset := (index - index % s.size - headBase) / s.size;
      var b := s.entries.value[Wrap(s.front + offset, s.prSize)].block;
      TakeKeeps(s, v, i);
      r := s.blocks[b].cells[index % s.size];
      s, v := Taken(s, b), v.(contents := v.contents[1..]);
    }
  }

  ghost predicate Kept<T>(s: State<T>, v: View<T>, s1: State<T>, v1: View<T>) {
    s1.size == s.size && s1.limit == s.limit && s1.tail == s.tail && s1.head == s.head && v1.contents == v.contents
  }

  lemma ReusedKept<T>(s: State<T>, v: View<T>)
    requires v.order != [] && s.entries.Some? && s.prFront < |s.entries.value| && s.prSize > 0
          && v.order[0] < |s.blocks|
    ensures var s1 := Reused(s, v.order[0]); s1.size == s.size && s1.limit == s.limit && s1.tail == s.tail
                                             && s1.head == s.head
  {
  }

  lemma InsertedKept<T>(s: State<T>)
    requires s.entries.Some? && s.prFront < |s.entries.value| && s.prSize > 0
          && (s.tailBlock.Some? ==> s.tailBlock.value < |s.blocks|)
    ensures var s1 := Inserted(s); s1.size == s.size && s1.limit == s.limit && s1.tail == s.tail && s1.head == s.head
  {
  }

  lemma HasBlock<T>(s: State<T>, v: View<T>)
    requires Inv(s, v) && s.tail + s.size == End(s, v) && s.size > 0
    ensures v.order != [] && s.tail < End(s, v)
  {
  }

  lemma Renumbered<T>(s0: State<T>, v0: View<T>, s: State<T>, v: View<T>)
    requires Settled(s0, v0) && s.entries.Some? && v == v0.(pushes := s.prUsed)
    requires s == s0.(prSize := 2 * s0.prSize, front := s0.prUsed - 1, prFront := s0.prUsed, entries := s.entries)
    requires |s.entries.value| == s.prSize
          && forall k :: 0 <= k < s.prUsed ==> s.entries.value[k] == Entry(Base(v.first, k, s.size), v.order[k])
    ensures Settled(s, v) && s.prUsed < s.prSize
  {
    hide Base;
    ModSmall(s.prUsed, s.prSize);
    if s.prUsed > 0 { ModSmall(s.prUsed - 1, s.prSize); }
    forall i | 0 <= i < |v.order| ensures EntryOk(s, v, s.entries.value, i) {
      ModSmall(i, s.prSize);
    }
    forall i, r | 0 <= i < |v.order| && 0 <= r < s.size ensures CellOk(s, v, i, r) { assert CellOk(s0, v0, i, r); }
  }

  lemma EnqueueReady<T>(s: State<T>, v: View<T>)
    requires Settled(s, v)
    ensures s.size > 0 && s.prSize > 0 && s.prUsed <= s.prSize && |v.contents| == s.tail - s.head
          && |v.order| == s.prUsed
    ensures s.entries.Some? ==> s.prFront < |s.entries.value|
    ensures s.tailBlock.None? <==> v.order == []
    ensures s.tailBlock.Some? ==> s.tailBlock.value < |s.blocks|
                                  && s.blocks[s.tailBlock.value].next == v.order[0] < |s.blocks|
  {
  }

  lemma NotFull<T>(s: State<T>, v: View<T>)
    requires Settled(s, v) && s.tail % s.size != 0
    ensures Inv(s, v) && v.order != [] && s.tail < End(s, v)
  {
    hide Base;
    BaseNext(v.first, 0, s.size);
    BaseMod(v.first, |v.order|, s.size);
  }
}
