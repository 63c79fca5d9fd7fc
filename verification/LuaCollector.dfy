/** The incremental collector: marking, visiting gray objects, the atomic phase and the sweep. */
module LuaCollector {
  import opened LuaHeap
  import opened LuaMarkSteps
  import opened LuaVisit
  import opened LuaAtomicSteps
  import opened LuaReach
  import opened LuaExact

  class Collector {
    var g: Global

    constructor (g0: Global)
      ensures g == g0
    {
      g := g0;
    }

    /** `markvalue`: mark the object in a slot, if there is one and it is white. */
    method MarkRef(v: Ref, ghost pend: set<Id>, ghost S: set<Id>)
      requires Marking(g, pend, S) && Markable(g, S, v)
      modifies this
      ensures Marking(g, pend, S) && MarkedMore(old(g), g) && RefMarked(g, v)
      ensures v.Obj? && v.id in old(g).color && old(g).color[v.id].White? ==> v.id !in Whites(g)
      ensures Listed(old(g).heap, v) ==> g == GrayRef(old(g), v)
      decreases Whites(g), 2
    {
      hide Marking, Lists;
      if v.Obj? && g.color[v.id].White? {
        ReallyMark(v.id, pend, S);
      }
    }

    /** `reallymarkobject` (lgc.c 268-299): strings, closed upvalues and userdata without user
        values become black here; other objects go to the gray list; open upvalues stay gray. */
    method ReallyMark(o: Id, ghost pend: set<Id>, ghost S: set<Id>)
      requires Marking(g, pend, S) && o in g.heap && o in g.color && g.color[o].White? && o in S
      modifies this
      ensures Marking(g, pend, S) && MarkedMore(old(g), g) && NonWhite(g, o)
      ensures g.heap[o].Str? ==> g == old(g).(color := old(g).color[o := Black])
      ensures HasGclist(g.heap[o]) ==> g == old(g).(color := old(g).color[o := Gray], gray := [o] + old(g).gray)
      decreases Whites(g), 1
    {
      hide MarkInv, Bounded, Lists, Points, Marking, MarkedMore, Done;
      ghost var g0 := g;
      Grayed(g, pend, S, o, Gray);
      Grayed(g, pend, S, o, Black);
      FirstMark(g, o, Gray);
      FirstMark(g, o, Black);
      g := g.(color := g.color[o := Gray]);  // white2gray
      SameLists(g0, g);
      match g.heap[o] {
        case Str =>
          g := g.(color := g.color[o := Black]);
          assert g == g0.(color := g0.color[o := Black]);
          StringDone(g, o);
          SettledBlack(g, pend, S, o);
        case ClosedUp(v) =>
          g := g.(color := g.color[o := Black]);
          assert g == g0.(color := g0.color[o := Black]);
          SameLists(g0, g);
          MarkContent(v, o, Black, g0, pend, S);
          SettledBlack(g, pend, S, o);
        case OpenUp(th, slot) =>
          UpvalHome(g, pend + {o}, S, o);
          MarkContent(g.heap[th].stack[slot], o, Gray, g0, pend, S);
          SettledUpval(g, pend, S, o);
        case Udata(mt) =>
          MarkContent(mt, o, Gray, g0, pend, S);
          Recolored(g, pend, S, o, Black);
          RecolorMarked(g0, g, o);
          g := g.(color := g.color[o := Black]);
          SettledBlack(g, pend, S, o);
        case _ =>
          Linked(g, pend, S, InGray, o);
          PutGrayMarks(g0, g, o);
          g := g.(gray := [o] + g.gray);
      }
    }

    /** Mark the one slot of an upvalue or of a userdata without user values. */
    method MarkContent(v: Ref, o: Id, c: Color, ghost g0: Global, ghost pend: set<Id>, ghost S: set<Id>)
      requires Marking(g, pend + {o}, S) && o in g.heap && o in S && o !in Lists(g) && v == Content(g.heap, o)
      requires g.heap[o].Udata? || g.heap[o].ClosedUp? || g.heap[o].OpenUp?
      requires o in g0.color && g == g0.(color := g0.color[o := c]) && MarkedMore(g0, g) && NonWhite(g, o)
      requires Whites(g) < Whites(g0)
      modifies this
      ensures Marking(g, pend + {o}, S) && MarkedMore(g0, g) && g.heap == old(g).heap && Done(g, o) && o !in Lists(g)
      ensures o in g.color && g.color[o] == c
      decreases Whites(g), 3
    {
      hide Marking, Lists, Points;
      ContentMarkable(g, pend + {o}, S, o);
      ghost var g1 := g;
      MarkRef(v, pend + {o}, S);
      MarksChain(g0, g1, g);
      ContentDone(g, o);
    }

    /** Mark every object in a row of slots. */
    method MarkRefs(refs: seq<Ref>, ghost pend: set<Id>, ghost S: set<Id>)
      requires Marking(g, pend, S) && AllMarkable(g, S, refs)
      modifies this
      ensures Marking(g, pend, S) && MarkedMore(old(g), g)
      ensures forall v :: v in refs ==> RefMarked(g, v)
      ensures AllListed(old(g).heap, refs) ==> g == GrayRefs(old(g), refs)
    {
      hide Marking, Lists, GrayRefs, Listed;
      assert MarkedMore(g, g);
      GrayRefsNone(g);
      for i := 0 to |refs|
        invariant Marking(g, pend, S) && MarkedMore(old(g), g)
        invariant forall v :: v in refs[..i] ==> RefMarked(g, v)
        invariant AllListed(old(g).heap, refs) ==> g == GrayRefs(old(g), refs[..i])
      {
        ghost var g1 := g;
        GrayRefsMore(old(g), refs, i);
        assert Markable(old(g), S, refs[i]);
        MarkRef(refs[i], pend, S);
        MarkGrows(g1, g);
        MarksChain(old(g), g1, g);
        assert refs[..i + 1] == refs[..i] + [refs[i]];
      }
      assert refs[..|refs|] == refs;
    }

    /** `iscleared`: may a weak table drop this reference? Strings are values and are marked instead. */
    method IsCleared(v: Ref, ghost pend: set<Id>, ghost S: set<Id>) returns (cleared: bool)
      requires Marking(g, pend, S) && (v.Obj? ==> v.id in g.heap && v.id in g.color)
      modifies this
      ensures Marking(g, pend, S) && MarkedMore(old(g), g) && OnlyStrings(old(g), g) && ClearedMore(old(g), g)
      ensures cleared <==> v.Obj? && !g.heap[v.id].Str? && g.color[v.id].White?
      ensures cleared ==> g == old(g)
      ensures !cleared ==> RefMarked(g, v)
    {
      hide Marking, Lists;
      assert MarkedMore(g, g);
      if v.NoRef? {
        cleared := false;
      } else if g.heap[v.id].Str? {
        StringsBounded(g, pend, S, v.id);
        if g.color[v.id].White? {
          ReallyMark(v.id, pend, S);
        }
        cleared := false;
      } else {
        cleared := g.color[v.id].White?;
      }
    }

    /** `clearkey`: an empty entry whose key is not marked loses its key. */
    method ClearKey(cur: Id, i: nat, ghost pend: set<Id>, ghost S: set<Id>)
      requires AtVisit(g, pend, S, cur) && g.heap[cur].Table? && i < |g.heap[cur].nodes|
      requires g.heap[cur].nodes[i].val.Empty?
      modifies this
      ensures AtVisit(g, pend, S, cur) && VisitMore(old(g), g, cur) && g.color == old(g).color && g.gray == old(g).gray
      ensures g.heap[cur].Table? && i < |g.heap[cur].nodes| && RefMarked(g, g.heap[cur].nodes[i].key)
      ensures g.heap[cur] == old(g).heap[cur].(nodes := old(g).heap[cur].nodes[i := g.heap[cur].nodes[i]])
      ensures g.heap[cur].nodes[i].val.Empty?
    {
      hide Marking, Lists;
      VisitStart(g, cur);
      var t := g.heap[cur];
      var key := t.nodes[i].key;
      NodeAllocated(g, pend, S, cur, i);
      if key.Obj? && g.color[key.id].White? {
        ghost var g0 := g;
        var b := t.(nodes := t.nodes[i := Node(NoRef, Empty)]);
        Reworked(g, pend, S, cur, g.color[cur], b);
        g := g.(heap := g.heap[cur := b]);
        assert g == g0.(heap := g0.heap[cur := b], color := g0.color[cur := g0.color[cur]]);
        SameLists(g0, g);
      }
    }

    /** `traverseLclosure`, `traverseCclosure`, `traverseproto`, `traverseudata`: mark every slot. */
    method TraversePlain(cur: Id, ghost pend: set<Id>, ghost S: set<Id>)
      requires AtVisit(g, pend, S, cur) && g.heap[cur].Plain?
      modifies this
      ensures AtVisit(g, pend, S, cur) && VisitMore(old(g), g, cur) && Done(g, cur)
    {
      hide Marking, Lists;
      RefsMarkable(g, pend, S, cur, g.heap[cur].refs);
      VisitStart(g, cur);
      MarkRefs(g.heap[cur].refs, pend + {cur}, S);
      VisitChain(old(g), old(g), g, cur);
      VisitKeeps(old(g), g, pend, S, cur);
      assert forall r :: Obj(r) in g.heap[cur].refs ==> RefMarked(g, Obj(r));
    }

    method VisitStrongNode(cur: Id, i: nat, ghost pend: set<Id>, ghost S: set<Id>)
      requires AtVisit(g, pend, S, cur) && g.heap[cur].Table? && g.heap[cur].mode.StrongT?
      requires i < |g.heap[cur].nodes| && g.heap[cur].nodes[i].val.Val?
      modifies this
      ensures AtVisit(g, pend, S, cur) && VisitMore(old(g), g, cur) && g.heap == old(g).heap
      ensures NodeMarked(g, g.heap[cur].nodes[i])
    {
      hide Marking, Lists, Points, VisitMore, MarkedMore;
      ghost var g1 := g;
      VisitStart(g, cur);
      StrongNode(g, pend, S, cur, i);
      MarkRef(g.heap[cur].nodes[i].key, pend + {cur}, S);  // markkey
      ghost var g2 := g;
      MarkedHeap(g1, g2);
      VisitChain(g1, g1, g2, cur);
      VisitKeeps(g1, g2, pend, S, cur);
      StrongNode(g, pend, S, cur, i);
      MarkRef(g.heap[cur].nodes[i].val.ref, pend + {cur}, S);  // markvalue
      MarkedHeap(g2, g);
      VisitChain(g1, g2, g, cur);
      MarkGrows(g2, g);
      VisitKeeps(g2, g, pend, S, cur);
    }

    /** `traversestrongtable`: mark the array part, the keys and the values. */
    method TraverseStrongTable(cur: Id, ghost pend: set<Id>, ghost S: set<Id>)
      requires AtVisit(g, pend, S, cur) && g.heap[cur].Table? && g.heap[cur].mode.StrongT?
      requires RefMarked(g, g.heap[cur].mt)
      modifies this
      ensures AtVisit(g, pend, S, cur) && VisitMore(old(g), g, cur) && Done(g, cur)
      ensures old(g).heap[cur].nodes == [] && AllListed(old(g).heap, old(g).heap[cur].arr) ==>
                g == GrayRefs(old(g), old(g).heap[cur].arr)
    {
      hide Marking, Lists, Points, VisitMore, MarkedMore, NodesMarked, NodeMarked, AllListed, GrayRefs;
      var arr := g.heap[cur].arr;
      RefsMarkable(g, pend, S, cur, arr);
      VisitStart(g, cur);
      MarkRefs(arr, pend + {cur}, S);
      MarkedHeap(old(g), g);
      VisitChain(old(g), old(g), g, cur);
      VisitKeeps(old(g), g, pend, S, cur);
      TableKept(old(g), g, cur);
      NothingMarked(g, cur);
      var n := |g.heap[cur].nodes|;
      ghost var marked := g;
      for i := 0 to n
        invariant i == 0 ==> g == marked
        invariant AtVisit(g, pend, S, cur) && VisitMore(old(g), g, cur)
        invariant g.heap[cur].Table? && g.heap[cur].mode.StrongT? && |g.heap[cur].nodes| == n
        invariant ArrMarked(g, cur) && RefMarked(g, g.heap[cur].mt)
        invariant NodesMarked(g, cur, i)
      {
        ghost var g1 := g;
        if g.heap[cur].nodes[i].val.Empty? {
          ClearKey(cur, i, pend, S);
          EmptySettled(g, cur, i);
        } else {
          VisitStrongNode(cur, i, pend, S);
        }
        TableKept(g1, g, cur);
        OneMoreNode(g, cur, i);
        VisitChain(old(g), g1, g, cur);
      }
      AllNodesMarked(g, cur);
      TableDone(g, cur);
    }

    /** `traversethread`: mark the live stack slots and the open upvalues; in the atomic phase put
        the thread back into `twups` if it holds open upvalues. */
    method TraverseThread(cur: Id, ghost pend: set<Id>, ghost S: set<Id>)
      requires Marking(g, pend + {cur}, S) && cur in g.heap && cur in g.color && g.heap[cur].Thread?
      requires !g.color[cur].White? && cur !in g.allweak && cur in S
      modifies this
      ensures Marking(g, pend + {cur}, S) && ThreadMore(old(g), g, cur)
      ensures EasyThread(old(g).heap[cur], old(g).heap) ==> g == GrayRefs(old(g), old(g).heap[cur].stack)
    {
      hide Marking, Lists, Points, AllListed, GrayRefs;
      ghost var g0 := g;
      ThreadRefs(g, pend + {cur}, S, cur);
      var stack, open := g.heap[cur].stack, g.heap[cur].open;
      MarkRefs(stack, pend + {cur}, S);
      ghost var marked := g;
      for i := 0 to |open|
        invariant i == 0 ==> g == marked
        invariant Marking(g, pend + {cur}, S) && MarkedMore(g0, g)
        invariant forall v :: v in stack ==> RefMarked(g, v)
        invariant forall j :: 0 <= j < i ==> NonWhite(g, open[j])
      {
        ghost var g1 := g;
        assert Markable(g0, S, Obj(open[i]));
        MarkRef(Obj(open[i]), pend + {cur}, S);  // markobject
        MarkGrows(g1, g);
        MarksChain(g0, g1, g);
      }
      ThreadDone(g, cur);
      if g.phase.Atomic? && cur !in g.twups && open != [] {
        ghost var g1 := g;
        Retwupped(g, pend + {cur}, S, cur);
        g := g.(twups := [cur] + g.twups);
        assert MarkedMore(g0.(twups := [cur] + g0.twups), g) by {
          SameLists(g1, g);
          SameLists(g0, g0.(twups := [cur] + g0.twups));
        }
        DoneKept(g1, g, cur);
      } else {
        assert g0.(twups := g0.twups) == g0;
      }
    }

    /** One non-empty node of a table with weak values: mark its key, and look at its value
        as long as nothing to clear has been found. */
    method VisitWeakNode(cur: Id, i: nat, hasclears: bool, ghost pend: set<Id>, ghost S: set<Id>) returns (clears: bool)
      requires AtVisit(g, pend, S, cur) && g.heap[cur].Table? && g.heap[cur].mode.WeakValues?
      requires i < |g.heap[cur].nodes| && g.heap[cur].nodes[i].val.Val?
      modifies this
      ensures AtVisit(g, pend, S, cur) && VisitMore(old(g), g, cur)
      ensures g.heap == old(g).heap && RefMarked(g, g.heap[cur].nodes[i].key)
      ensures hasclears ==> clears
      ensures !clears ==> NodeMarked(g, g.heap[cur].nodes[i])
    {
      hide Marking, Lists, Points;
      clears := hasclears;
      VisitStart(g, cur);
      StrongNode(g, pend, S, cur, i);
      MarkRef(g.heap[cur].nodes[i].key, pend + {cur}, S);  // markkey
      VisitChain(old(g), old(g), g, cur);
      VisitKeeps(old(g), g, pend, S, cur);
      if !clears {
        ghost var g1 := g;
        NodeAllocated(g, pend, S, cur, i);
        clears := IsCleared(g.heap[cur].nodes[i].val.ref, pend + {cur}, S);
        VisitChain(old(g), g1, g, cur);
        MarkGrows(g1, g);
        VisitKeeps(g1, g, pend, S, cur);
      }
    }

    /** `traverseweakvalue`: keys are strong; the table is revisited in the atomic phase, and there
        it goes to `weak` if it may hold values to clear. */
    method TraverseWeakValue(cur: Id, ghost pend: set<Id>, ghost S: set<Id>)
      requires AtVisit(g, pend, S, cur) && g.heap[cur].Table? && g.heap[cur].mode.WeakValues?
      requires RefMarked(g, g.heap[cur].mt) && g.color[cur].Gray? && VisitPhase(g, pend, cur)
      modifies this
      ensures Marking(g, pend, S) && Visited(old(g), g, {cur}) && GrayKept(old(g), g)
      ensures g.phase == old(g).phase && (g.phase.Propagate? ==> cur in g.grayagain)
    {
      hide Marking, Lists, Points, VisitMore, RefMarked, NodesMarked, KeysMarkedTo;
      VisitStart(g, cur);
      var n := |g.heap[cur].nodes|;
      var hasclears := |g.heap[cur].arr| > 0;
      NothingMarked(g, cur);
      for i := 0 to n
        invariant AtVisit(g, pend, S, cur) && VisitMore(old(g), g, cur) && g.color[cur].Gray? && g.phase == old(g).phase
        invariant g.heap[cur].Table? && g.heap[cur].mode.WeakValues? && |g.heap[cur].nodes| == n
        invariant RefMarked(g, g.heap[cur].mt) && KeysMarkedTo(g, cur, i)
        invariant !hasclears ==> g.heap[cur].arr == [] && NodesMarked(g, cur, i)
      {
        ghost var g1 := g;
        if g.heap[cur].nodes[i].val.Empty? {
          ClearKey(cur, i, pend, S);
          assert NodeMarked(g, g.heap[cur].nodes[i]);
        } else {
          hasclears := VisitWeakNode(cur, i, hasclears, pend, S);
        }
        TableKept(g1, g, cur);
        OneMoreNode(g, cur, i);
        VisitChain(old(g), g1, g, cur);
      }
      LinkWeakValue(cur, hasclears, old(g), pend, S);
    }

    method LinkWeakValue(cur: Id, hasclears: bool, ghost g0: Global, ghost pend: set<Id>, ghost S: set<Id>)
      requires AtVisit(g, pend, S, cur) && VisitMore(g0, g, cur) && g.color[cur].Gray? && g.heap[cur].Table?
      requires g.heap[cur].mode.WeakValues?
      requires RefMarked(g, g.heap[cur].mt) && KeysMarkedTo(g, cur, |g.heap[cur].nodes|)
      requires !hasclears ==> g.heap[cur].arr == [] && NodesMarked(g, cur, |g.heap[cur].nodes|)
      requires VisitPhase(g, pend, cur)
      modifies this
      ensures Marking(g, pend, S) && Visited(g0, g, {cur}) && GrayKept(g0, g)
      ensures g.phase == old(g).phase && (g.phase.Propagate? ==> cur in g.grayagain)
    {
      hide Marking, Lists, Points, VisitMore;
      PhaseKept(g0, g, cur);
      if g.phase.Atomic? && hasclears {
        Linked(g, pend, S, InWeak, cur);
        PutVisited(g0, g, InWeak, cur);
        g := g.(weak := [cur] + g.weak);
      } else {
        if !hasclears { TableDone(g, cur); }
        Linked(g, pend, S, InGrayAgain, cur);
        PutVisited(g0, g, InGrayAgain, cur);
        g := g.(grayagain := [cur] + g.grayagain);
      }
    }

    /** One non-empty node of an ephemeron table: a marked key marks the value; otherwise the entry
        may have to be cleared, and is white to white if the value is not marked either. */
    method VisitEphemeronNode(cur: Id, k: nat, ghost pend: set<Id>, ghost S: set<Id>)
        returns (marked: bool, clears: bool, ww: bool)
      requires AtVisit(g, pend, S, cur) && g.heap[cur].Table? && g.heap[cur].mode.Ephemerons?
      requires k < |g.heap[cur].nodes| && g.heap[cur].nodes[k].val.Val?
      modifies this
      ensures AtVisit(g, pend, S, cur) && VisitMore(old(g), g, cur) && g.heap == old(g).heap
      ensures !marked ==> OnlyStrings(old(g), g) && EntrySettled(g, g.heap[cur].nodes[k])
      ensures marked ==> Whites(g) < Whites(old(g))
      ensures !clears ==> NodeMarked(g, g.heap[cur].nodes[k])
      ensures !ww ==> RefMarked(g, g.heap[cur].nodes[k].val.ref)
    {
      hide Marking, Lists, Points;
      marked, clears, ww := false, false, false;
      VisitStart(g, cur);
      NodeAllocated(g, pend, S, cur, k);
      var n := g.heap[cur].nodes[k];
      var cleared := IsCleared(n.key, pend + {cur}, S);
      VisitChain(old(g), old(g), g, cur);
      VisitKeeps(old(g), g, pend, S, cur);
      var white := n.val.ref.Obj? && g.color[n.val.ref.id].White?;  // valiswhite
      if cleared {
        clears, ww := true, white;
      } else if white {
        ghost var g1 := g;
        EphemeronValue(g, pend, S, cur, k);
        ReallyMark(n.val.ref.id, pend + {cur}, S);
        marked := true;
        assert n.val.ref.id in Whites(old(g)) && n.val.ref.id !in Whites(g);
        VisitChain(old(g), g1, g, cur);
        MarkGrows(g1, g);
        VisitKeeps(g1, g, pend, S, cur);
      }
    }

    /** The array part of an ephemeron table is strong. */
    method VisitArray(cur: Id, ghost pend: set<Id>, ghost S: set<Id>) returns (marked: bool)
      requires AtVisit(g, pend, S, cur) && g.heap[cur].Table? && g.heap[cur].mode.Ephemerons?
      modifies this
      ensures AtVisit(g, pend, S, cur) && VisitMore(old(g), g, cur) && g.heap == old(g).heap && ArrMarked(g, cur)
      ensures if marked then Whites(g) < Whites(old(g)) else g == old(g)
    {
      hide Marking, Lists, Points;
      marked := false;
      var arr := g.heap[cur].arr;
      VisitStart(g, cur);
      for i := 0 to |arr|
        invariant AtVisit(g, pend, S, cur) && VisitMore(old(g), g, cur) && g.heap == old(g).heap
        invariant forall j :: 0 <= j < i ==> RefMarked(g, arr[j])
        invariant if marked then Whites(g) < Whites(old(g)) else g == old(g)
      {
        ghost var g1 := g;
        RefsMarkable(g, pend, S, cur, arr);
        assert Markable(g, S, arr[i]);
        if arr[i].Obj? && g.color[arr[i].id].White? {
          marked := true;
          ReallyMark(arr[i].id, pend + {cur}, S);
          assert arr[i].id in Whites(g1) && arr[i].id !in Whites(g);
          MarkGrows(g1, g);
          VisitChain(old(g), g1, g, cur);
          VisitKeeps(g1, g, pend, S, cur);
        }
      }
    }

    /** `traverseephemeron` (lgc.c 416-458). */
    method TraverseEphemeron(cur: Id, inv: bool, ghost pend: set<Id>, ghost S: set<Id>) returns (marked: bool)
      requires AtVisit(g, pend, S, cur) && g.heap[cur].Table? && g.heap[cur].mode.Ephemerons?
      requires RefMarked(g, g.heap[cur].mt) && g.color[cur].Gray? && VisitPhase(g, pend, cur)
      modifies this
      ensures Marking(g, pend, S) && Visited(old(g), g, {cur}) && GrayKept(old(g), g)
      ensures marked ==> Whites(g) < Whites(old(g))
      ensures !marked ==> g.gray == old(g).gray && EphemeronQuiet(old(g), g, cur)
      ensures g.phase == old(g).phase && (g.phase.Propagate? ==> cur in g.grayagain)
    {
      hide Marking, Lists, Points, VisitMore, RefMarked, EntrySettled, NodeMarked, OnlyStrings, EphemeronSoFar;
      ghost var g0 := g;
      VisitStart(g, cur);
      QuietStart(g, cur);
      var hasclears, hasww := false, false;
      marked := VisitArray(cur, pend, S);
      TableKept(g0, g, cur);
      var n := |g.heap[cur].nodes|;
      QuietStart(g, cur);
      assert EphemeronSoFar(g, cur, inv, 0, marked, hasclears, hasww) by { SoFarStart(g, cur, inv, marked); }
      for i := 0 to n
        invariant AtVisit(g, pend, S, cur) && VisitMore(g0, g, cur) && g.color[cur].Gray? && g.phase == g0.phase
        invariant g.heap[cur].Table? && g.heap[cur].mode.Ephemerons? && |g.heap[cur].nodes| == n
        invariant RefMarked(g, g.heap[cur].mt) && ArrMarked(g, cur)
        invariant EphemeronSoFar(g, cur, inv, i, marked, hasclears, hasww)
        invariant if marked then Whites(g) < Whites(g0) else Quiet(g0, g)
      {
        ghost var g1, m1, c1, w1 := g, marked, hasclears, hasww;
        var k := if inv then n - 1 - i else i;
        if g.heap[cur].nodes[k].val.Empty? {
          ClearKey(cur, k, pend, S);
          EmptySettled(g, cur, k);
          QuietColors(g1, g, cur);
        } else {
          var m, c, w := VisitEphemeronNode(cur, k, pend, S);
          if m { marked := true; }
          if c { hasclears := true; }
          if w { hasww := true; }
          if !m { QuietStrings(g1, g); }
        }
        TableKept(g1, g, cur);
        WhitesShrink(g0, g1, cur);
        EphemeronStep(g1, g, cur, inv, i, k, m1, c1, w1, marked, hasclears, hasww);
        VisitChain(g0, g1, g, cur);
        WhitesShrink(g1, g, cur);
        if !marked { QuietChain(g0, g1, g); }
      }
      LinkEphemeron(cur, inv, marked, hasclears, hasww, g0, pend, S);
    }

    method LinkEphemeron(cur: Id, inv: bool, marked: bool, hasclears: bool, hasww: bool,
        ghost g0: Global, ghost pend: set<Id>, ghost S: set<Id>)
      requires AtVisit(g, pend, S, cur) && VisitMore(g0, g, cur) && g.color[cur].Gray? && g.heap[cur].Table?
      requires g.heap[cur].mode.Ephemerons? && RefMarked(g, g.heap[cur].mt) && ArrMarked(g, cur)
            && VisitPhase(g, pend, cur)
      requires EphemeronSoFar(g, cur, inv, |g.heap[cur].nodes|, marked, hasclears, hasww)
      requires !marked ==> Quiet(g0, g)
      modifies this
      ensures Marking(g, pend, S) && Visited(g0, g, {cur}) && GrayKept(g0, g) && g.color.Keys == old(g).color.Keys
      ensures Whites(g) == Whites(old(g))
      ensures !marked ==> g.gray == old(g).gray && EphemeronQuiet(g0, g, cur)
      ensures g.phase == old(g).phase && (g.phase.Propagate? ==> cur in g.grayagain)
    {
      hide Marking, Lists, Points, VisitMore, RefMarked, EntrySettled, OnlyStrings, Visited, EphemeronQuiet,
        ArrMarked, ValsMarked, NodeMarked, EphemeronSoFar, EphemeronSettled, Quiet, Done;
      SoFarAll(g, cur, inv, marked, hasclears, hasww);
      NotListed(g, cur);
      if !marked { QuietLinked(g0, g, cur); }
      PhaseKept(g0, g, cur);
      if g.phase.Propagate? {
        Linked(g, pend, S, InGrayAgain, cur);
        PutVisited(g0, g, InGrayAgain, cur);
        g := g.(grayagain := [cur] + g.grayagain);
      } else if hasww {
        Linked(g, pend, S, InEphemeron, cur);
        PutVisited(g0, g, InEphemeron, cur);
        g := g.(ephemeron := [cur] + g.ephemeron);
      } else if hasclears {
        Linked(g, pend, S, InAllWeak, cur);
        PutVisited(g0, g, InAllWeak, cur);
        g := g.(allweak := [cur] + g.allweak);
      } else {
        TableDone(g, cur);
        Recolored(g, pend, S, cur, Black);
        RecolorVisited(g0, g, cur);
        g := g.(color := g.color[cur := Black]);  // gray2black
        SettledBlack(g, pend, S, cur);
      }
    }

    /** `traversetable`: the metatable is always marked; the weak mode decides about the rest. */
    method TraverseTable(cur: Id, ghost pend: set<Id>, ghost S: set<Id>)
      requires AtVisit(g, pend, S, cur) && g.heap[cur].Table? && g.color[cur].Black?
            && (g.phase.Propagate? || g.phase.Atomic?)
      modifies this
      ensures Marking(g, PutOff(g, pend, cur), S) && Visited(old(g), g, {cur}) && GrayKept(old(g), g)
      ensures EasyTable(old(g).heap[cur], old(g).heap) ==> g == TableVisit(old(g), cur)
    {
      hide Marking, Lists, Points, VisitMore, Visited, Done, Whites, AllListed, Listed, GrayRefs, GrayRef;
      ghost var g0 := g;
      VisitStart(g, cur);
      GrayRefHeap(g, g.heap[cur].mt);
      MetatableMarkable(g, pend, S, cur);
      MarkRef(g.heap[cur].mt, pend + {cur}, S);
      VisitChain(g0, g0, g, cur);
      VisitKeeps(g0, g, pend, S, cur);
      ghost var g1 := g;
      if g.heap[cur].mode.StrongT? {
        TraverseStrongTable(cur, pend, S);
        TableKept(g1, g, cur);
        VisitChain(g0, g1, g, cur);
        VisitVisited(g0, g, cur);
        SettledBlack(g, pend, S, cur);
        Widened(g, pend, PutOff(g, pend, cur), S);
      } else {
        Recolored(g, pend, S, cur, Gray);
        BlackToGray(g0, g, cur);
        g := g.(color := g.color[cur := Gray]);  // black2gray: keep table gray
        ghost var g2 := g;
        ghost var p1 := if g.phase.Propagate? then pend + {cur} else pend;
        VisitWidened(g, pend, S, cur);
        match g.heap[cur].mode {
          case WeakValues =>
            TraverseWeakValue(cur, p1, S);
            assert p1 == PutOff(g, pend, cur);
          case Ephemerons =>
            var _ := TraverseEphemeron(cur, false, p1, S);
            assert p1 == PutOff(g, pend, cur);
          case AllWeak =>
            Linked(g, pend, S, InAllWeak, cur);
            Widened(Put(g, InAllWeak, cur), pend, PutOff(g, pend, cur), S);
            VisitStart(g, cur);
            PutVisited(g, g, InAllWeak, cur);
            g := g.(allweak := [cur] + g.allweak);  // nothing to traverse now
            assert PutOff(g, pend, cur) == PutOff(g2, pend, cur);
        }
        VisitedChain(g0, g2, g, {cur});
        GrayKeptChain(g0, g2, g, {cur});
      }
    }

    /** `propagatemark` (lgc.c 596-614): visit the first gray object. */
    method PropagateMark(ghost pend: set<Id>, ghost S: set<Id>)
      requires Marking(g, pend, S) && g.gray != [] && (g.phase.Propagate? || g.phase.Atomic?)
      modifies this
      ensures Marking(g, PutOff(g, pend, old(g).gray[0]), S) && Visited(old(g), g, {})
      ensures Whites(g) < Whites(old(g)) || (Whites(g) == Whites(old(g)) && |g.gray| < |old(g).gray|)
      ensures EasyVisit(old(g)) ==> g == VisitFirst(old(g))
    {
      hide Marking, Lists, Points, VisitMore, Visited, Done, AtVisit, Whites, ThreadMore, MarkedMore, EasyTable,
        EasyThread,
        TableVisit, ThreadVisit;
      ghost var g0 := g;
      var o := g.gray[0];
      if EasyVisit(g) { EasyParts(g); }
      GrayHead(g, pend, S);
      Popped(g, pend, S);
      PopVisited(g, pend, S);
      g := g.(gray := g.gray[1..], color := g.color[o := Black]);  // gray2black
      StartVisit(g0, g, pend, S, o);
      ghost var g1 := g;
      VisitStart(g, o);
      match g.heap[o] {
        case Table(_, _, _, _) =>
          TraverseTable(o, pend, S);
        case Plain(_) =>
          TraversePlain(o, pend, S);
          VisitVisited(g1, g, o);
          PlainKept(g1, g, o);
          EndVisit(g, pend, S, o);
          SettledBlack(g, pend, S, o);
          Widened(g, pend, PutOff(g, pend, o), S);
        case Thread(_, _) =>
          PopThread(o, pend, S);
        case _ =>
          assert false;
      }
      VisitedChain(g0, g1, g, {o});
      VisitedInside(g0, g, o);
      PropagateShrinks(g0, g1, g, {o});
    }

    /** A thread goes back to gray, into `grayagain`, before its stack is marked. */
    method PopThread(o: Id, ghost pend: set<Id>, ghost S: set<Id>)
      requires AtVisit(g, pend, S, o) && g.heap[o].Thread? && g.color[o].Black?
            && (g.phase.Propagate? || g.phase.Atomic?)
      modifies this
      ensures Marking(g, PutOff(g, pend, o), S) && Visited(old(g), g, {o}) && GrayKept(old(g), g)
      ensures EasyThread(old(g).heap[o], old(g).heap) ==> g == ThreadVisit(old(g), o)
    {
      hide Marking, Lists, Points, Done, Whites, VisitMore, Visited, EasyThread, GrayRefs;
      ghost var g0 := g;
      VisitStart(g, o);
      Recolored(g, pend, S, o, Gray);
      BlackToGray(g, g, o);
      g := g.(color := g.color[o := Gray]);  // black2gray
      AgainPend(g, pend, S, o);
      Linked(g, pend + {o}, S, InGrayAgain, o);
      VisitStart(g, o);
      PutVisited(g, g, InGrayAgain, o);
      NotListed(g, o);
      ghost var g1 := g;
      g := g.(grayagain := [o] + g.grayagain);
      ghost var g2 := g;
      TraverseThread(o, pend, S);
      ThreadVisited(g2, g, o);
      VisitedChain(g1, g2, g, {o});
      VisitedChain(g0, g1, g, {o});
      GrayKeptChain(g1, g2, g, {o});
      GrayKeptChain(g0, g1, g, {o});
      ThreadAgain(g2, g, o);
      if g.phase.Atomic? {
        SettledThread(g, pend, S, o);
      }
    }

    /** `propagateall`. */
    method PropagateAll(ghost pend: set<Id>, ghost S: set<Id>)
      requires Marking(g, pend, S) && g.phase.Atomic?
      modifies this
      ensures Marking(g, pend, S) && g.gray == [] && Visited(old(g), g, {}) && SameFields(old(g), g)
    {
      hide Marking, Lists, Visited, Whites;
      VisitedStart(g);
      while g.gray != []
        invariant Marking(g, pend, S) && Visited(old(g), g, {}) && g.phase.Atomic?
        decreases Whites(g), |g.gray|
      {
        ghost var g1 := g;
        PropagateMark(pend, S);
        VisitedPhase(g1, g, {});
        assert PutOff(g, pend, g1.gray[0]) == pend;
        VisitedChain(old(g), g1, g, {});
      }
      VisitedFields(old(g), g, {});
    }

    /** `convergeephemerons` (lgc.c 632-649): revisit the ephemeron tables until nothing new is
        marked, in alternating directions. Afterwards no entry has a marked key and an unmarked value. */
    method ConvergeEphemerons(ghost S: set<Id>)
      requires Marking(g, {}, S) && g.phase.Atomic? && g.gray == []
      modifies this
      ensures Marking(g, {}, S) && g.gray == [] && Visited(old(g), g, {})
      ensures AllSettled(g, g.ephemeron) && SameFields(old(g), g)
      ensures Bounded(old(g), MarkedOrString(g))
      ensures S == LeastMarks(old(g)) ==> MarkedOrString(g) == LeastMarks(old(g))
    {
      hide Marking, Lists, Visited, Whites, AllSettled, Bounded, LeastMarks, MarkedOrString;
      VisitedStart(g);
      var dir := false;
      var changed := true;
      while changed
        invariant Marking(g, {}, S) && g.gray == [] && Visited(old(g), g, {}) && g.phase.Atomic?
        invariant !changed ==> AllSettled(g, g.ephemeron)
        decreases Whites(g), changed
      {
        ghost var g1 := g;
        changed := EphemeronPass(dir, S);
        VisitedPhase(g1, g, {});
        VisitedChain(old(g), g1, g, {});
        VisitedWhites(g1, g, {});
        dir := !dir;  // invert direction next time
      }
      MarkingParts(g, {}, S);
      VisitedFields(old(g), g, {});
      VisitedTrail(old(g), g, {});
      Converged(old(g), g);
      if S == LeastMarks(old(g)) {
        VisitedKeys(old(g), g, {});
        LeastReached(old(g), g);
      }
    }

    /** One pass over the ephemeron list, which is rebuilt meanwhile. */
    method EphemeronPass(dir: bool, ghost S: set<Id>) returns (changed: bool)
      requires Marking(g, {}, S) && g.phase.Atomic? && g.gray == []
      modifies this
      ensures Marking(g, {}, S) && g.gray == [] && Visited(old(g), g, {})
      ensures changed ==> Whites(g) < Whites(old(g))
      ensures !changed ==> AllSettled(g, g.ephemeron)
    {
      hide Marking, Lists, Visited, Whites, AllSettled, Quiet, EphemeronQuiet, Waiting;
      ghost var g0 := g;
      var next := g.ephemeron;
      Unlisted(g, S);
      UnlistVisited(g);
      g := g.(ephemeron := []);  // tables may return to this list when traversed
      changed := false;
      NoneSettled(g);
      assert forall o :: o in next ==> o in Lists(g0) by { UnlistLists(g0); }
      while next != []
        invariant Marking(g, Elems(next), S) && g.gray == [] && Visited(g0, g, {}) && g.phase.Atomic?
        invariant Waiting(g, next) && forall o :: o in next ==> o in Lists(g0)
        invariant changed ==> Whites(g) < Whites(g0)
        invariant !changed ==> AllSettled(g, g.ephemeron)
        decreases |next|
      {
        ghost var g1 := g;
        var w := next[0];
        NextTable(g, S, next);
        next := next[1..];
        var marked := TraverseEphemeron(w, dir, Elems(next), S);
        WaitingKept(g1, g, w, next);
        VisitedPhase(g1, g, {w});
        VisitedWhites(g1, g, {w});
        VisitedWhites(g0, g1, {});
        if marked {
          ghost var g2 := g;
          PropagateAll(Elems(next), S);
          WaitingStays(g2, g, next);
          VisitedWhites(g2, g, {});
          PassVisited(g0, g1, g2, w);
          VisitedChain(g0, g2, g, {});
          changed := true;
        } else {
          PassVisited(g0, g1, g, w);
          if !changed { PassSettled(g1, g, w); }
        }
        VisitedPhase(g0, g, {});
      }
      NothingPending(g, S);
    }

    /** `remarkupvals` (lgc.c 332-353): for each thread in `twups` that is not marked or holds no
        upvalue, mark the values of its marked upvalues and take it out of the list. */
    method RemarkUpvals(ghost P: set<Id>, ghost U: set<Id>, ghost S: set<Id>)
      requires Marking(g, P + U, S) && UpsGray(g, U) && TwupsAll(g)
      modifies this
      ensures Marking(g, P, S) && MarkedMore(old(g).(twups := g.twups), g)
      ensures forall th :: th in g.twups ==> th in old(g).twups && NonWhite(g, th)
      ensures SameFields(old(g), g)
    {
      hide Marking, Lists, Points, MarkedMore, UpsGray, UpSeen, TwupsAll;
      ghost var g0 := g;
      assert g0.(twups := g0.twups) == g0;
      RemarkStart(g, P + U, S, U);
      var kept: seq<Id> := [];
      var rest := g.twups;
      while rest != []
        invariant g.twups == kept + rest && Marking(g, P + U, S) && UpsGray(g, U)
              && MarkedMore(g0.(twups := g.twups), g)
        invariant forall th :: th in kept ==> th in g0.twups && NonWhite(g, th)
        invariant forall th :: th in rest ==> th in g0.twups && th in g.heap && th in g.color && g.heap[th].Thread?
        invariant forall uv :: uv in U ==> uv in g.heap && g.heap[uv].OpenUp?
                                                 && (g.heap[uv].th in rest || UpSeen(g, uv))
        decreases |rest|
      {
        var th := rest[0];
        var later := rest[1..];
        ghost var g1 := g;
        assert rest == [th] + later;
        if !g.color[th].White? && g.heap[th].open != [] {
          kept := kept + [th];  // keep marked thread with upvalues in the list
          assert kept + later == g.twups;
          MarkedThread(g, U, th);
        } else {
          DropThread(kept, th, later, g0, P + U, U, S);
        }
        rest := later;
      }
      assert kept + [] == kept;
      RemarkFields(g0, g);
      UpsSettled(g, P, U, S);
    }

    /** A thread leaves `twups`; the values of its marked upvalues are marked. */
    method DropThread(kept: seq<Id>, th: Id, later: seq<Id>, ghost g0: Global, ghost pend: set<Id>, ghost U: set<Id>,
            ghost S: set<Id>)
      requires Marking(g, pend, S) && UpsGray(g, U) && MarkedMore(g0.(twups := g.twups), g)
            && g.twups == kept + ([th] + later)
      requires th in g.heap && th in g.color && g.heap[th].Thread? && (g.color[th].White? || g.heap[th].open == [])
      requires forall t :: t in kept ==> NonWhite(g, t)
      requires forall t :: t in [th] + later ==> t in g.heap && t in g.color && g.heap[t].Thread?
      requires forall uv :: uv in U ==> uv in g.heap && g.heap[uv].OpenUp?
                                              && (g.heap[uv].th in [th] + later || UpSeen(g, uv))
      modifies this
      ensures Marking(g, pend, S) && UpsGray(g, U) && MarkedMore(g0.(twups := g.twups), g) && g.twups == kept + later
      ensures forall t :: t in kept ==> NonWhite(g, t)
      ensures forall t :: t in later ==> t in g.heap && t in g.color && g.heap[t].Thread?
      ensures forall uv :: uv in U ==> uv in g.heap && g.heap[uv].OpenUp? && (g.heap[uv].th in later || UpSeen(g, uv))
    {
      hide Marking, Lists, Points, MarkedMore, UpsGray, UpSeen, Done;
      ghost var g1 := g;
      Untwupped(g, pend, S, kept, th, later);
      g := g.(twups := kept + later);  // remove thread from the list
      SameTwups(g0, g1, g);
      TwupUps(g1, g, U);
      ghost var g2 := g;
      MarkingUpvals(g, pend, S);
      RemarkThread(th, g0, pend, U, S);
      assert g2 == g1.(twups := g.twups);
      RemarkKept(g1, g, U, th, kept, [th] + later, later);
    }

    method RemarkThread(th: Id, ghost g0: Global, ghost pend: set<Id>, ghost U: set<Id>, ghost S: set<Id>)
      requires Marking(g, pend, S) && UpsGray(g, U) && th in g.heap && g.heap[th].Thread?
      requires MarkedMore(g0.(twups := g.twups), g)
      modifies this
      ensures Marking(g, pend, S) && UpsGray(g, U) && MarkedMore(g0.(twups := g.twups), g) && MarkedMore(old(g), g)
      ensures g.twups == old(g).twups && g.heap == old(g).heap
      ensures forall uv :: uv in U && uv in g.heap[th].open && uv in g.heap && g.heap[uv].OpenUp? ==> Done(g, uv)
    {
      hide Marking, Lists, Points, MarkedMore, UpsGray, Done;
      ghost var g1 := g;
      var open := g.heap[th].open;
      MarkNothing(g);
      for i := 0 to |open|
        invariant Marking(g, pend, S) && UpsGray(g, U) && MarkedMore(g0.(twups := g.twups), g) && MarkedMore(g1, g)
        invariant g.twups == g1.twups && g.heap == g1.heap
        invariant forall j :: 0 <= j < i && open[j] in U && open[j] in g.heap && g.heap[open[j]].OpenUp? ==>
                  Done(g, open[j])
      {
        var uv := open[i];
        ghost var g2 := g;
        OpenUpvalue(g, pend, S, th, uv);
        if !g.color[uv].White? {  // upvalue already visited?
          MarkedUpvalue(g, pend, S, uv);
          MarkRef(g.heap[th].stack[g.heap[uv].slot], pend, S);  // mark its value
          ContentDone(g, uv) by { hide Points; MarkedHeap(g2, g); }
          MarksChain(g1, g2, g);
          MarkedHeap(g2, g);
          MarkedTwups(g2, g);
          MarksChain(g0.(twups := g.twups), g2, g);
          UpsMarked(g2, g, U, g2.twups) by { assert g2.(twups := g2.twups) == g2; }
          DonesKept(g2, g);
        } else {
          WhiteNotGray(g, U, uv);
        }
      }
    }

    /** `clearbyvalues`: empty the array slots and entries whose value was not marked. */
    method ClearByValues(l: seq<Id>, ghost S: set<Id>, ghost M: set<Id>)
      requires Marking(g, {}, S) && AreTables(g, l)
      requires Kept(g, M)
      modifies this
      ensures Marking(g, {}, S) && ClearedMore(old(g), g)
      ensures forall h :: h in l ==> h in g.heap && g.heap[h].Table? && ValsMarked(g, h)
      ensures LostOnly(old(g).heap, g.heap, M) && Kept(g, M) && OnlyIn(old(g).heap, g.heap, l)
    {
      hide Marking, Lists, ClearedMore, ValsMarked, AreTables, LostOnly, Kept, OnlyIn;
      ClearNothing(g);
      LostNothing(g.heap, M);
      OnlyStart(g.heap, l);
      for i := 0 to |l|
        invariant Marking(g, {}, S) && ClearedMore(old(g), g) && AreTables(g, l)
        invariant LostOnly(old(g).heap, g.heap, M) && Kept(g, M) && OnlyIn(old(g).heap, g.heap, l)
        invariant forall j :: 0 <= j < i ==> l[j] in g.heap && g.heap[l[j]].Table? && ValsMarked(g, l[j])
      {
        ghost var g1 := g;
        TableIn(g, l, i);
        ClearArray(l[i], S, M);
        ghost var g2 := g;
        ClearValueNodes(l[i], S, M);
        OnlyChain(g1.heap, g2.heap, g.heap, [l[i]]);
        OnlyWider(g1.heap, g.heap, l, i);
        OnlyChain(old(g).heap, g1.heap, g.heap, l);
        LostChain(g1.heap, g2.heap, g.heap, M);
        LostChain(old(g).heap, g1.heap, g.heap, M);
        ClearedChain(g1, g2, g);
        ClearedChain(old(g), g1, g);
        StillTables(g1, g, {}, S, l);
        forall j | 0 <= j < i ensures l[j] in g.heap && g.heap[l[j]].Table? && ValsMarked(g, l[j]) {
          TableIn(g, l, j);
          assert l[j] in l && ValsMarked(g1, l[j]);
        }
      }
    }

    method ClearArray(h: Id, ghost S: set<Id>, ghost M: set<Id>)
      requires Marking(g, {}, S) && h in g.heap && g.heap[h].Table? && Kept(g, M)
      modifies this
      ensures Clearing(old(g), g, S, M) && h in g.heap && g.heap[h].Table? && ArrMarked(g, h)
      ensures OnlyIn(old(g).heap, g.heap, [h])
    {
      hide Clearing, RefMarked, OnlyIn;
      ClearingStart(g, S, M);
      OnlyStart(g.heap, [h]);
      var n := |g.heap[h].arr|;
      for i := 0 to n
        invariant Clearing(old(g), g, S, M) && h in g.heap && g.heap[h].Table? && |g.heap[h].arr| == n
        invariant OnlyIn(old(g).heap, g.heap, [h])
        invariant forall j :: 0 <= j < i ==> RefMarked(g, g.heap[h].arr[j])
      {
        ghost var g1 := g;
        ClearingParts(old(g), g, S, M);
        ClearSlot(h, i, S, M);
        OnlyChain(old(g).heap, g1.heap, g.heap, [h]);
        ClearingRefs(g1, g, S, M);
        ClearingChain(old(g), g1, g, S, M);
      }
    }

    /** `iscleared` in the clearing passes: what may be dropped is not of the set kept. */
    method TestRef(v: Ref, ghost S: set<Id>, ghost M: set<Id>) returns (cleared: bool)
      requires Marking(g, {}, S) && Kept(g, M) && (v.Obj? ==> v.id in g.heap && v.id in g.color)
      modifies this
      ensures Clearing(old(g), g, S, M) && g.heap == old(g).heap
      ensures if cleared then v.Obj? && v.id !in M else RefMarked(g, v)
    {
      hide Marking, Lists, ClearedMore, RefMarked, LostOnly, Kept, OnlyStrings;
      ghost var g0 := g;
      MarkingUpvals(g, {}, S);
      LostNothing(g.heap, M);
      cleared := IsCleared(v, {}, S);
      KeptCleared(g0, g, M);
      if cleared { NotKept(g, M, v); }
    }

    method ClearSlot(h: Id, i: nat, ghost S: set<Id>, ghost M: set<Id>)
      requires Marking(g, {}, S) && h in g.heap && g.heap[h].Table? && Kept(g, M) && i < |g.heap[h].arr|
      modifies this
      ensures Clearing(old(g), g, S, M) && h in g.heap && g.heap[h].Table? && |g.heap[h].arr| == |old(g).heap[h].arr|
      ensures RefMarked(g, g.heap[h].arr[i]) && OnlyIn(old(g).heap, g.heap, [h])
      ensures forall j :: 0 <= j < |g.heap[h].arr| && j != i ==> g.heap[h].arr[j] == old(g).heap[h].arr[j]
    {
      hide Clearing, RefMarked, Kept, OnlyIn;
      ghost var g0 := g;
      var t := g.heap[h];
      OnlyStart(g.heap, [h]);
      OnlyPut(g.heap, h, t.(arr := t.arr[i := NoRef]));
      SlotAllocated(g, S, h, t.arr[i]);
      var cleared := TestRef(t.arr[i], S, M);  // value was collected?
      if cleared {
        ghost var g1 := g;
        ClearingParts(g0, g, S, M);
        EmptySlot(h, i, S, M);
        ClearingChain(g0, g1, g, S, M);
      }
    }

    /** Set an array slot nil (`setempty`) whose object was not marked. */
    method EmptySlot(h: Id, i: nat, ghost S: set<Id>, ghost M: set<Id>)
      requires Marking(g, {}, S) && Kept(g, M) && h in g.heap && g.heap[h].Table? && i < |g.heap[h].arr|
      requires g.heap[h].arr[i].Obj? && g.heap[h].arr[i].id !in M
      modifies this
      ensures Clearing(old(g), g, S, M) && RefMarked(g, NoRef)
      ensures g.heap == old(g).heap[h := old(g).heap[h].(arr := old(g).heap[h].arr[i := NoRef])]
    {
      hide Marking, Lists, ClearedMore, LostOnly, Kept;
      ghost var g0 := g;
      var t := g.heap[h];
      var b := t.(arr := t.arr[i := NoRef]);
      MarkingUpvals(g, {}, S);
      TableCleared(g, S, h, b);
      LostAt(g.heap, h, b, M);
      g := g.(heap := g.heap[h := b]);
      KeptCleared(g0, g, M);
      NoRefMarked(g);
    }

    method ClearValueNodes(h: Id, ghost S: set<Id>, ghost M: set<Id>)
      requires Marking(g, {}, S) && h in g.heap && g.heap[h].Table? && ArrMarked(g, h) && Kept(g, M)
      modifies this
      ensures Clearing(old(g), g, S, M) && h in g.heap && g.heap[h].Table? && ValsMarked(g, h)
      ensures OnlyIn(old(g).heap, g.heap, [h])
    {
      hide Clearing, RefMarked, ArrMarked, OnlyIn;
      ClearingStart(g, S, M);
      OnlyStart(g.heap, [h]);
      var n := |g.heap[h].nodes|;
      for i := 0 to n
        invariant OnlyIn(old(g).heap, g.heap, [h])
        invariant Clearing(old(g), g, S, M) && h in g.heap && g.heap[h].Table? && |g.heap[h].nodes| == n
              && ArrMarked(g, h)
        invariant forall j :: 0 <= j < i ==> NodeValMarked(g, g.heap[h].nodes[j])
      {
        ghost var g1 := g;
        ClearingParts(old(g), g, S, M);
        ClearNode(h, i, false, S, M);
        OnlyChain(old(g).heap, g1.heap, g.heap, [h]);
        ClearingRefs(g1, g, S, M);
        ClearingChain(old(g), g1, g, S, M);
      }
    }

    /** One hash node: empty the entry if its key (or its value) may be cleared, and drop the key of
        an empty entry. */
    method ClearNode(h: Id, i: nat, byKey: bool, ghost S: set<Id>, ghost M: set<Id>)
      requires Marking(g, {}, S) && h in g.heap && g.heap[h].Table? && Kept(g, M) && i < |g.heap[h].nodes|
      modifies this
      ensures Clearing(old(g), g, S, M) && h in g.heap && g.heap[h].Table?
            && |g.heap[h].nodes| == |old(g).heap[h].nodes|
      ensures if byKey then RefMarked(g, g.heap[h].nodes[i].key) else NodeValMarked(g, g.heap[h].nodes[i])
      ensures OnlyIn(old(g).heap, g.heap, [h])
      ensures forall j :: 0 <= j < |g.heap[h].nodes| && j != i ==> g.heap[h].nodes[j] == old(g).heap[h].nodes[j]
    {
      hide Clearing, RefMarked, Kept, OnlyIn;
      ghost var g0 := g;
      OnlyStart(g.heap, [h]);
      var node := g.heap[h].nodes[i];
      NodeSlots(g, S, h, node);
      var r := if byKey then node.key else if node.val.Val? then node.val.ref else NoRef;
      var cleared := TestRef(r, S, M);
      if cleared || node.val.Empty? {
        ghost var g1 := g;
        ClearingParts(g0, g, S, M);
        EmptyNode(h, i, S, M);
        OnlyPut(g1.heap, h, g.heap[h]);
        ClearingChain(g0, g1, g, S, M);
      }
    }

    /** Set an entry empty, and drop its key if it is not marked (`setempty`, `clearkey`). */
    method EmptyNode(h: Id, i: nat, ghost S: set<Id>, ghost M: set<Id>)
      requires Marking(g, {}, S) && Kept(g, M) && h in g.heap && g.heap[h].Table? && i < |g.heap[h].nodes|
      requires var n := g.heap[h].nodes[i];
        n.val.Val? ==> (n.key.Obj? && n.key.id !in M) || (n.val.ref.Obj? && n.val.ref.id !in M)
      modifies this
      ensures Clearing(old(g), g, S, M)
      ensures h in g.heap && g.heap[h].Table? && i < |g.heap[h].nodes|
      ensures g.heap == old(g).heap[h := old(g).heap[h].(nodes := old(g).heap[h].nodes[i := g.heap[h].nodes[i]])]
      ensures g.heap[h].nodes[i].val.Empty? && RefMarked(g, g.heap[h].nodes[i].key)
    {
      hide Marking, Lists, ClearedMore, LostOnly, Kept, BodyCleared, AllAllocated, UpvalsOk;
      ghost var g0 := g;
      var t := g.heap[h];
      MarkingUpvals(g, {}, S);
      NodeSlots(g, S, h, t.nodes[i]);
      var key := t.nodes[i].key;
      var n := Node(if key.Obj? && g.color[key.id].White? then NoRef else key, Empty);
      var b := t.(nodes := t.nodes[i := n]);
      NodeEmptied(t, i, n);
      TableCleared(g, S, h, b);
      g := g.(heap := g.heap[h := b]);
      EmptyLost(g0, g, h, i, M);
      KeptCleared(g0, g, M);
    }

    /** `clearbykeys`: empty the entries whose key was not marked. */
    method ClearByKeys(l: seq<Id>, ghost S: set<Id>, ghost M: set<Id>)
      requires Marking(g, {}, S) && AreTables(g, l)
      requires Kept(g, M)
      modifies this
      ensures Marking(g, {}, S) && ClearedMore(old(g), g)
      ensures forall h :: h in l ==> h in g.heap && g.heap[h].Table? && KeysMarked(g, h)
      ensures LostOnly(old(g).heap, g.heap, M) && Kept(g, M)
    {
      hide Marking, Lists, ClearedMore, KeysMarked, AreTables, LostOnly, Kept;
      ClearNothing(g);
      LostNothing(g.heap, M);
      for i := 0 to |l|
        invariant Marking(g, {}, S) && ClearedMore(old(g), g) && AreTables(g, l)
        invariant LostOnly(old(g).heap, g.heap, M) && Kept(g, M)
        invariant forall j :: 0 <= j < i ==> l[j] in g.heap && g.heap[l[j]].Table? && KeysMarked(g, l[j])
      {
        ghost var g1 := g;
        TableIn(g, l, i);
        ClearKeyNodes(l[i], S, M);
        LostChain(old(g).heap, g1.heap, g.heap, M);
        ClearedChain(old(g), g1, g);
        StillTables(g1, g, {}, S, l);
        forall j | 0 <= j < i ensures l[j] in g.heap && g.heap[l[j]].Table? && KeysMarked(g, l[j]) {
          TableIn(g, l, j);
          assert l[j] in l && KeysMarked(g1, l[j]);
        }
      }
    }

    method ClearKeyNodes(h: Id, ghost S: set<Id>, ghost M: set<Id>)
      requires Marking(g, {}, S) && h in g.heap && g.heap[h].Table? && Kept(g, M)
      modifies this
      ensures Clearing(old(g), g, S, M) && h in g.heap && g.heap[h].Table? && KeysMarked(g, h)
    {
      hide Clearing, RefMarked;
      ClearingStart(g, S, M);
      var n := |g.heap[h].nodes|;
      for i := 0 to n
        invariant Clearing(old(g), g, S, M) && h in g.heap && g.heap[h].Table? && |g.heap[h].nodes| == n
        invariant forall j :: 0 <= j < i ==> RefMarked(g, g.heap[h].nodes[j].key)
      {
        ghost var g1 := g;
        ClearingParts(old(g), g, S, M);
        ClearNode(h, i, true, S, M);
        ClearingRefs(g1, g, S, M);
        ClearingChain(old(g), g1, g, S, M);
      }
    }

    /** `separatetobefnz`: white objects with finalizers move from `finobj` to the end of `tobefnz`. */
    method SeparateToBeFnz()
      requires forall o :: o in g.finobj ==> o in g.color
      modifies this
      ensures g == old(g).(finobj := g.finobj, tobefnz := g.tobefnz)
      ensures g.tobefnz == old(g).tobefnz + Picked(old(g).finobj, Whites(old(g)))
      ensures g.finobj == Unpicked(old(g).finobj, Whites(old(g)))
    {
      hide Picked, Unpicked;
      var kept: seq<Id> := [];
      var l := g.finobj;
      ghost var W := Whites(g);
      PickedNone(W);
      for i := 0 to |l|
        invariant g == old(g).(tobefnz := g.tobefnz)
        invariant g.tobefnz == old(g).tobefnz + Picked(l[..i], W) && kept == Unpicked(l[..i], W)
      {
        PickedNext(l, i, W);
        if g.color[l[i]].White? {  // being collected?
          g := g.(tobefnz := g.tobefnz + [l[i]]);
        } else {
          kept := kept + [l[i]];
        }
      }
      assert l[..|l|] == l;
      g := g.(finobj := kept);
    }

    /** First part of `atomic` (lgc.c 1416-1432): put the revisit list aside, mark the running thread
        and the roots again, and remark upvalues of unmarked threads. */
    method AtomicRoots(L: Id, ghost S: set<Id>) returns (saved: seq<Id>)
      requires Marking(g, Again(g), S) && TwupsAll(g) && AllMarkable(g, S, [Obj(L)] + g.roots)
      modifies this
      ensures Marking(g, Elems(saved), S) && Parked(g, saved) && TwupsMarked(g)
      ensures AtomicFrame(old(g), g) && g.phase.Atomic? && g.finobj == old(g).finobj && g.tobefnz == old(g).tobefnz
      ensures NewMetatables(old(g), g) && MarkTrail(old(g), g)
      ensures forall v :: v in [Obj(L)] + old(g).roots ==> RefMarked(g, v)
    {
      hide Marking, Lists, Points, Visited, Parked, UpsGray, TwupsAll, AtomicFrame, MarkedMore, RefMarked,
        NewMetatables, MarkTrail;
      ghost var g0 := g;
      ghost var P, U := Elems(g.grayagain), GrayUps(g);
      saved := g.grayagain;  // save original list
      GrayUpsFree(g, Again(g), S);
      ParkAgain(g, Again(g), S);
      ParkFrame(g, U);
      g := g.(grayagain := [], phase := Atomic);
      ghost var g1 := g;
      MarkRefs([Obj(L)] + g.roots, P + U, S);  // mark running thread, registry and global metatables
      MarkedVisited(g1, g, {});
      ghost var g2 := g;
      VisitedFields(g1, g2, {});
      PropagateAll(P + U, S);
      VisitedChain(g1, g2, g, {});
      ParkedStays(g1, g, saved);
      UpsStay(g1, g, U);
      TwupsStay(g1, g);
      VisitedFrame(g2, g, {});
      VisitedFrame(g1, g, {});
      FrameChain(g0, g1, g);
      FrameRefs(g2, g, [Obj(L)] + g0.roots);
      ghost var g3 := g;
      RemarkUpvals(P, U, S);
      RemarkFrame(g3, g);
      RemarkParked(g3, g, saved);
      FrameChain(g0, g3, g);
      FrameRefs(g3, g, [Obj(L)] + g0.roots);
      TwupsThreads(g3, g);
      NewMetaVisited(g1, g3);
      RemarkMeta(g3, g);
      TrailSame(g0, g1);
      TrailVisited(g1, g3);
      TrailRemark(g3, g);
      TrailChain(g1, g3, g);
      TrailChain(g0, g1, g);
      FrameChain(g1, g3, g);
      NewMetaSame(g0, g1);
      NewMetaChain(g1, g3, g);
      NewMetaChain(g0, g1, g);
    }

    /** Second part (lgc.c 1433-1436): visit everything put off during propagation, and converge. */
    method AtomicMark(L: Id, ghost S: set<Id>)
      requires Marking(g, Again(g), S) && TwupsAll(g) && AllMarkable(g, S, [Obj(L)] + g.roots)
      modifies this
      ensures Marking(g, {}, S) && g.gray == [] && g.phase.Atomic? && AtomicFrame(old(g), g) && TwupsMarked(g)
      ensures AllSettled(g, g.ephemeron) && g.finobj == old(g).finobj && g.tobefnz == old(g).tobefnz
      ensures NewMetatables(old(g), g) && MarkTrail(old(g), g) && KeysDropped(old(g).heap, g.heap)
      ensures Bounded(old(g), MarkedOrString(g))
      ensures forall o :: o in Marked(g) && o !in old(g).allweak ==>
                o in old(g).heap && ClosedAt(old(g).heap, Marked(g), o)
      ensures forall v :: v in [Obj(L)] + old(g).roots ==> RefMarked(g, v)
    {
      hide Marking, Lists, Points, Visited, Parked, AtomicFrame, RefMarked, TwupsMarked, AllSettled, NewMetatables,
        MarkTrail, Marked, ClosedAt, MarkedOrString, Bounded;
      ghost var g0 := g;
      var saved := AtomicRoots(L, S);
      ghost var g1 := g;
      PropagateAll(Elems(saved), S);  // propagate changes
      ParkedStays(g1, g, saved);
      VisitedFrame(g1, g, {});
      FrameChain(g0, g1, g);
      FrameRefs(g1, g, [Obj(L)] + g0.roots);
      TwupsMarkedStay(g1, g);
      Resumed(g, saved, S);
      ResumeFrame(g, saved, g0);
      ghost var gp := g;
      g := g.(gray := saved);
      ghost var g2 := g;
      PropagateAll({}, S);  // traverse 'grayagain' list
      VisitedFrame(g2, g, {});
      FrameChain(g0, g2, g);
      FrameRefs(g2, g, [Obj(L)] + g0.roots);
      TwupsMarkedStay(g2, g);
      ghost var g3 := g;
      ConvergeEphemerons(S);
      VisitedFrame(g3, g, {});
      FrameChain(g0, g3, g);
      FrameRefs(g3, g, [Obj(L)] + g0.roots);
      TwupsMarkedStay(g3, g);
      TrailVisited(g1, gp);
      TrailSame(gp, g2);
      TrailVisited(g2, g3);
      TrailVisited(g3, g);
      TrailChain(g0, g1, gp);
      TrailChain(g0, gp, g2);
      TrailChain(g0, g2, g3);
      TrailChain(g0, g3, g);
      StrongClosure(g0, g, S);
      FirstConverged(g0, g, S);
      NewMetaVisited(g1, gp);
      NewMetaSame(gp, g2);
      NewMetaVisited(g2, g3);
      NewMetaVisited(g3, g);
      FrameChain(g2, g3, g);
      NewMetaChain(g2, g3, g);
      FrameChain(gp, g2, g);
      NewMetaChain(gp, g2, g);
      FrameChain(g1, gp, g);
      NewMetaChain(g1, gp, g);
      NewMetaChain(g0, g1, g);
    }

    /** Third part (lgc.c 1437-1452): clear weak values, resurrect objects to be finalized, converge
        again, and clear what is left. */
    method AtomicClear(ghost S: set<Id>, ghost M: set<Id>) returns (ghost W: set<Id>)
      requires Marking(g, {}, S) && g.gray == [] && g.phase.Atomic? && TwupsMarked(g)
      requires forall o :: o in g.finobj || o in g.tobefnz ==> Markable(g, S, Obj(o))
      requires Kept(g, M)
      modifies this
      ensures Marking(g, {}, S) && AtomicFrame(old(g), g) && TwupsMarked(g) && g.gray == []
      ensures (MarkedClosed(g) <==> MetatablesMarked(g, g.allweak)) && NewMetatables(old(g), g)
      ensures ClosedBut(g, g.allweak) && RestClosed(old(g), g)
      ensures multiset(g.tobefnz) + multiset(g.finobj) == multiset(old(g).tobefnz) + multiset(old(g).finobj)
      ensures forall o :: o in g.finobj || o in g.tobefnz ==> NonWhite(g, o)
      ensures LostOnly(old(g).heap, g.heap, M)
      ensures g.tobefnz == old(g).tobefnz + Picked(old(g).finobj, W) && g.finobj == Unpicked(old(g).finobj, W)
      ensures forall o :: o in old(g).heap && !old(g).heap[o].Str? ==> (o in W <==> !NonWhite(old(g), o))
    {
      hide Marking, Lists, Points, Visited, AtomicFrame, TwupsMarked, AllSettled, AllValsMarked, AllKeysMarked,
        ClearedMore, Whites,
        MarkedClosed, AreTables, ValsMarked, KeysMarked, NewMetatables, MetatablesMarked, LostOnly, Kept, KeysDropped,
        ClosedBut, RestClosed, OnlyIn, Bounded, MarkedOrString, UpvalsOk;
      MarkingUpvals(g, {}, S);
      ghost var g0 := g;
      var origweak, origall := g.weak, g.allweak;
      ClearWeakValues(S, M);
      ghost var g1 := g;
      ClearedFields(g0, g1);
      FrameMarkable(g0, g1, S);
      W := Whites(g1);
      ClearedWhites(g0, g1);
      Resurrect(S);
      ghost var g2 := g;
      FrameChain(g0, g1, g2);
      KeptStays(g1, g2, M);
      DroppedLost(g1.heap, g2.heap, M);
      LostChain(g0.heap, g1.heap, g2.heap, M);
      ClearLeft(origweak, origall, S, M);
      LostChain(g0.heap, g2.heap, g.heap, M);
      FrameChain(g0, g2, g);
      FrameMarks(g2, g);
      NewMetaSame(g0, g1);
      FrameChain(g1, g2, g);
      NewMetaSame(g2, g);
      NewMetaChain(g1, g2, g);
      NewMetaChain(g0, g1, g);
      RestIsClosed(g0, g1, g2, g);
    }

    /** Clear values from weak tables, before checking finalizers. */
    method ClearWeakValues(ghost S: set<Id>, ghost M: set<Id>)
      requires Marking(g, {}, S) && TwupsMarked(g)
      requires Kept(g, M)
      modifies this
      ensures Marking(g, {}, S) && AtomicFrame(old(g), g) && ClearedMore(old(g), g) && TwupsMarked(g)
      ensures AllValsMarked(g, g.weak) && AllValsMarked(g, g.allweak)
      ensures LostOnly(old(g).heap, g.heap, M) && Kept(g, M)
            && OnlyIn(old(g).heap, g.heap, old(g).weak + old(g).allweak)
    {
      hide Marking, Lists, Points, AtomicFrame, TwupsMarked, ClearedMore, AreTables, ValsMarked, LostOnly, Kept, OnlyIn;
      ghost var g0 := g;
      ListTables(g, S);
      MarkingUpvals(g, {}, S);
      ClearByValues(g.weak, S, M);
      ghost var g1 := g;
      ClearedFields(g0, g1);
      ListTables(g, S);
      ClearByValues(g.allweak, S, M);
      OnlyBoth(g0.heap, g1.heap, g.heap, g0.weak, g0.allweak);
      LostChain(g0.heap, g1.heap, g.heap, M);
      ClearedFields(g1, g);
      ClearKeeps(g1, g, S, g.weak);
      ClearedChain(g0, g1, g);
      ClearedFrame(g0, g);
      TwupsMarkedClear(g0, g);
    }

    /** Objects with finalizers that were not marked are moved, marked, and visited. */
    method Resurrect(ghost S: set<Id>)
      requires Marking(g, {}, S) && g.gray == [] && g.phase.Atomic? && TwupsMarked(g)
      requires forall o :: o in g.finobj || o in g.tobefnz ==> Markable(g, S, Obj(o))
      requires AllValsMarked(g, g.weak) && AllValsMarked(g, g.allweak)
      modifies this
      ensures Marking(g, {}, S) && g.gray == [] && AtomicFrame(old(g), g) && TwupsMarked(g)
            && AllSettled(g, g.ephemeron)
      ensures multiset(g.tobefnz) + multiset(g.finobj) == multiset(old(g).tobefnz) + multiset(old(g).finobj)
      ensures forall o :: o in g.finobj || o in g.tobefnz ==> NonWhite(g, o)
      ensures g.tobefnz == old(g).tobefnz + Picked(old(g).finobj, Whites(old(g)))
            && g.finobj == Unpicked(old(g).finobj, Whites(old(g)))
      ensures Ext(old(g).weak, g.weak) && Ext(old(g).allweak, g.allweak) && NewMetatables(old(g), g)
      ensures KeysDropped(old(g).heap, g.heap) && Bounded(old(g), MarkedOrString(g))
      ensures AllValsMarked(g, old(g).weak) && AllValsMarked(g, old(g).allweak)
    {
      hide Marking, Lists, Points, Visited, AtomicFrame, TwupsMarked, AllSettled, AllValsMarked, NewMetatables,
        Bounded, MarkedOrString, Whites, Picked, Unpicked;
      ghost var g0 := g;
      SeparateToBeFnz();
      UnpickedMarked(g0, g0.finobj);
      PickedAll(g0.finobj, Whites(g0));
      MovedAll(g0.tobefnz, Picked(g0.finobj, Whites(g0)), Unpicked(g0.finobj, Whites(g0)), g0.finobj);
      SeparatedFrame(g0, g, S);
      FnzMoved(g0, S, g.finobj, g.tobefnz);
      ghost var g1 := g;
      MarkBeingFnz({}, S);
      MarkedVisited(g1, g, {});
      ghost var g2 := g;
      VisitedFields(g1, g2, {});
      PropagateAll({}, S);  // remark, to propagate 'resurrection'
      VisitedChain(g1, g2, g, {});
      VisitedFrame(g2, g, {});
      FrameMarks(g2, g);
      ghost var g3 := g;
      ConvergeEphemerons(S);
      VisitedChain(g1, g3, g, {});
      VisitedFrame(g3, g, {});
      FrameMarks(g3, g);
      VisitedFrame(g1, g, {});
      FrameMarks(g1, g);
      FrameChain(g0, g1, g);
      TwupsMarkedStay(g1, g);
      ValsStay(g1, g, {}, g0.weak);
      ValsStay(g1, g, {}, g0.allweak);
      VisitedExt(g1, g);
      VisitedTrail(g1, g, {});
      ResurrectBound(g0, g1, g, S);
      NewMetaVisited(g1, g);
      NewMetaSame(g0, g1);
      NewMetaChain(g0, g1, g);
    }

    /** `markbeingfnz`: mark every object that waits for its finalizer. */
    method MarkBeingFnz(ghost pend: set<Id>, ghost S: set<Id>)
      requires Marking(g, pend, S) && forall o :: o in g.tobefnz ==> Markable(g, S, Obj(o))
      modifies this
      ensures Marking(g, pend, S) && MarkedMore(old(g), g) && forall o :: o in g.tobefnz ==> NonWhite(g, o)
      ensures old(g).tobefnz == [] ==> g == old(g)
    {
      hide Marking, Lists;
      MarkNothing(g);
      var l := g.tobefnz;
      for i := 0 to |l|
        invariant i == 0 ==> g == old(g)
        invariant Marking(g, pend, S) && MarkedMore(old(g), g)
        invariant forall j :: 0 <= j < i ==> NonWhite(g, l[j])
      {
        ghost var g1 := g;
        assert Markable(old(g), S, Obj(l[i]));
        MarkRef(Obj(l[i]), pend, S);
        MarkGrows(g1, g);
        MarksChain(old(g), g1, g);
      }
    }

    /** Remove dead objects from weak tables, and values from resurrected ones. */
    method ClearLeft(origweak: seq<Id>, origall: seq<Id>, ghost S: set<Id>, ghost M: set<Id>)
      requires Marking(g, {}, S) && g.gray == [] && TwupsMarked(g) && AllSettled(g, g.ephemeron)
      requires Ext(origweak, g.weak) && Ext(origall, g.allweak) && AllValsMarked(g, origweak)
            && AllValsMarked(g, origall)
      requires Kept(g, M)
      modifies this
      ensures Marking(g, {}, S) && AtomicFrame(old(g), g) && TwupsMarked(g) && g.gray == []
      ensures (MarkedClosed(g) <==> MetatablesMarked(g, g.allweak)) && g.allweak == old(g).allweak
      ensures ClosedBut(g, g.allweak) && ClearedMore(old(g), g)
      ensures g.finobj == old(g).finobj && g.tobefnz == old(g).tobefnz
      ensures LostOnly(old(g).heap, g.heap, M)
    {
      hide Marking, Lists, Points, AtomicFrame, TwupsMarked, AllSettled, AllValsMarked, AllKeysMarked, ClearedMore,
        MarkedClosed, AreTables,
        LostOnly, Kept, ClosedBut, MetatablesMarked, Ext;
      ghost var g0 := g;
      MarkingUpvals(g, {}, S);
      ListTables(g, S);
      ClearLeftKeys(S, M);
      ghost var g1 := g;
      ClearedFields(g0, g1);
      ClearKeeps(g0, g1, S, origweak);
      ClearKeeps(g0, g1, S, origall);
      ClearKeeps(g0, g1, S, g.weak);
      ClearKeeps(g0, g1, S, g.allweak);
      ClearLeftValues(g.weak, origweak, S, M);
      LostChain(g0.heap, g1.heap, g.heap, M);
      ClearedChain(g0, g1, g);
      ghost var g2 := g;
      ClearedFields(g1, g2);
      ClearKeeps(g1, g2, S, origall);
      ClearKeeps(g1, g2, S, g.ephemeron);
      ClearKeeps(g1, g2, S, g.allweak);
      ClearLeftValues(g.allweak, origall, S, M);
      LostChain(g0.heap, g2.heap, g.heap, M);
      ClearedChain(g0, g2, g);
      ClearedFields(g2, g);
      ClearKeeps(g2, g, S, g.weak);
      ClearKeeps(g2, g, S, g.ephemeron);
      ClearKeeps(g2, g, S, g.allweak);
      ClearedFrame(g0, g);
      TwupsMarkedClear(g0, g);
      AtomicClosed(g, S);
    }

    /** Clear keys from all ephemeron and all-weak tables. */
    method ClearLeftKeys(ghost S: set<Id>, ghost M: set<Id>)
      requires Marking(g, {}, S) && AllSettled(g, g.ephemeron) && Kept(g, M)
      modifies this
      ensures Marking(g, {}, S) && ClearedMore(old(g), g) && LostOnly(old(g).heap, g.heap, M) && Kept(g, M)
      ensures AllKeysMarked(g, g.ephemeron) && AllKeysMarked(g, g.allweak) && AllSettled(g, g.ephemeron)
    {
      hide Marking, Lists, Points, AllSettled, ClearedMore, AreTables, KeysMarked, AllKeysMarked, LostOnly, Kept,
        AllValsMarked;
      ghost var g0 := g;
      ListTables(g, S);
      ClearByKeys(g.ephemeron, S, M);
      ClearedFields(g0, g);
      KeysDone(g, g.ephemeron);
      ClearKeeps(g0, g, S, g.ephemeron);
      ClearKeeps(g0, g, S, g.allweak);
      ghost var g1 := g;
      ClearByKeys(g.allweak, S, M);
      ClearedFields(g1, g);
      KeysDone(g, g.allweak);
      ClearKeeps(g1, g, S, g.ephemeron);
      ClearedChain(g0, g1, g);
      LostChain(g0.heap, g1.heap, g.heap, M);
    }

    /** Clear values from the tables that joined a weak list in front of `orig`. */
    method ClearLeftValues(l: seq<Id>, orig: seq<Id>, ghost S: set<Id>, ghost M: set<Id>)
      requires Marking(g, {}, S) && AreTables(g, l) && Ext(orig, l) && AllValsMarked(g, orig) && Kept(g, M)
      modifies this
      ensures Marking(g, {}, S) && ClearedMore(old(g), g) && LostOnly(old(g).heap, g.heap, M) && Kept(g, M)
      ensures AllValsMarked(g, l)
    {
      assert |orig| <= |l|;
      hide Marking, Lists, ClearedMore, AreTables, ValsMarked, AllValsMarked, LostOnly, Kept, Ext;
      ghost var g0 := g;
      var front := l[..|l| - |orig|];
      ClearNothing(g);
      FrontTables(g, g, S, l, |l| - |orig|);
      ClearByValues(front, S, M);
      ValsDone(g, front);
      ClearKeeps(g0, g, S, orig);
      SplitList(l, orig, g);
    }

    /** `atomic` (lgc.c 1416-1456). When it ends, the old white is the dead one. Marks are closed under
        every reference that is left in the heap, weak ones included, if and only if the tables that
        were in `allweak` before have marked metatables: those tables are not visited again. */
    method AtomicPhase(L: Id, ghost S: set<Id>) returns (ghost M: set<Id>)
      requires Marking(g, Again(g), S) && TwupsAll(g) && AllMarkable(g, S, [Obj(L)] + g.roots)
      requires forall o :: o in g.finobj || o in g.tobefnz ==> Markable(g, S, Obj(o))
      requires Covers(NoFinalizers(g), L, FirstMarks(g, L))
      modifies this
      ensures Separated(old(g), L, g)
      ensures AtomicFrame(old(g), g.(cw := old(g).cw)) && g.cw == !old(g).cw && TwupsMarked(g)
      ensures MarkedClosed(g) <==> MetatablesMarked(g, old(g).allweak)
      ensures ClosedBut(g, old(g).allweak) && Bounded(old(g), MarkedOrString(g))
      ensures MarkInv(g.(cw := old(g).cw), {}) && g.gray == []
      ensures multiset(g.tobefnz) + multiset(g.finobj) == multiset(old(g).tobefnz) + multiset(old(g).finobj)
      ensures forall o :: o in g.finobj || o in g.tobefnz ==> NonWhite(g, o)
      ensures forall v :: v in [Obj(L)] + old(g).roots ==> RefMarked(g, v)
      ensures forall o :: o in g.heap && NonWhite(g, o) ==> o in S
      ensures LostOnly(old(g).heap, g.heap, M) && Kept(g, M)
      ensures forall o :: o in M && o !in old(g).allweak ==> o in old(g).heap && ClosedAt(old(g).heap, M, o)
      ensures forall v :: v in [Obj(L)] + old(g).roots && v.Obj? ==> v.id in M
      ensures forall o :: o in old(g).heap && NonWhite(old(g), o) ==> o in M
    {
      hide Marking, Lists, Points, AtomicFrame, TwupsMarked, MarkedClosed, AllSettled, NewMetatables,
        MetatablesMarked, LostOnly, Kept, KeysDropped,
        Marked, ClosedAt, ClosedBut, Bounded, MarkedOrString, RestClosed, MarkTrail, Covers, FirstMarks, Separated,
        AllMarkable, Picked, Unpicked;
      ghost var g0 := g;
      ghost var F := FirstMarks(g, L);
      MarkingParts(g, Again(g), S);
      FirstIn(g, L, S);
      FirstBound(g, L);
      MarkingOn(g, Again(g), F);
      AtomicMark(L, F);
      FirstExactly(g0, g, L);
      MetaKept(g0, g);
      WiderMarking(g0, g, F, S);
      MarkingParts(g, {}, S);
      M := Marked(g);
      KeptStart(g);
      RootsKept(g, S, [Obj(L)] + g0.roots);
      MarksKept(g0, g);
      ghost var g1 := g;
      FrameMarkable(g0, g1, S);
      ghost var W := AtomicClear(S, M);
      ghost var g2 := g;
      SeparatedBy(g0, g1, g2, L, W);
      DroppedLost(g0.heap, g1.heap, M);
      LostChain(g0.heap, g1.heap, g2.heap, M);
      FrameChain(g0, g1, g2);
      KeptStays(g1, g2, M);
      FrameChain(g0, g1, g2);
      FrameRefs(g1, g2, [Obj(L)] + g0.roots);
      FrameSame(g0, g2);
      NewMetaChain(g0, g1, g2);
      NewMetaEnough(g0, g2);
      ClosedButNew(g0, g2);
      BoundedThrough(g0, g1, g2);
      MarksInside(g2, S);
      g := g.(cw := !g.cw);  // flip current white
      Flipped(g2, g);
      KeptFlipped(g2, g, M);
      assert g.(cw := g0.cw) == g2;
      SeparatedFlipped(g0, g2, g, L);
    }
  }
}
