/** Half-open time windows, in whole seconds, and the algebra of subtracting and merging them. */
module Intervals {
  import opened Prelude
  import opened Sorting

  datatype RawWindow = Window(start: int, end: int)

  /** A window never ends before it starts, nor at the same moment. */
  type Window = w: RawWindow | w.start < w.end witness Window(0, 1)

  predicate Overlap(a: Window, b: Window) {
    a.start < b.end && b.start < a.end
  }

  predicate Within(inner: Window, outer: Window) {
    outer.start <= inner.start && inner.end <= outer.end
  }

  predicate Holds(w: Window, t: int) {
    w.start <= t < w.end
  }

  /** The instant t lies in one of the windows. */
  ghost predicate Covers(ws: seq<Window>, t: int) {
    exists w :: w in ws && Holds(w, t)
  }

  /** The two lists stand for the same set of instants. */
  ghost predicate SamePoints(a: seq<Window>, b: seq<Window>) {
    forall t :: Covers(a, t) <==> Covers(b, t)
  }

  /** Ordered, with a real gap between any two consecutive windows. */
  predicate Separated(ws: seq<Window>) {
    forall i, j :: 0 <= i < j < |ws| ==> ws[i].end < ws[j].start
  }

  predicate WindowLeq(a: Window, b: Window) {
    a.start < b.start || (a.start == b.start && a.end <= b.end)
  }

  lemma WindowOrder()
    ensures Preorder(WindowLeq)
    ensures forall ws :: Separates(WindowLeq, ws)
  {
  }

  // ---------------------------------------------------------------- canonical lists

  lemma CoversCons(ws: seq<Window>, t: int)
    requires ws != []
    ensures Covers(ws, t) <==> Holds(ws[0], t) || Covers(ws[1..], t)
  {
    assert ws == [ws[0]] + ws[1..];
  }

  lemma CoversConcat(a: seq<Window>, b: seq<Window>, t: int)
    ensures Covers(a + b, t) <==> Covers(a, t) || Covers(b, t)
  {
    if Covers(a, t) {
      var w :| w in a && Holds(w, t);
      assert w in a + b;
    }
    if Covers(b, t) {
      var w :| w in b && Holds(w, t);
      assert w in a + b;
    }
  }

  lemma CoversSnoc(ws: seq<Window>)
    requires ws != []
    ensures forall t :: Covers(ws, t) <==> Covers(ws[..|ws|-1], t) || Holds(ws[|ws|-1], t)
  {
    var init, last := ws[..|ws|-1], ws[|ws|-1];
    assert ws == init + [last];
    OneWindow(last);
    forall t ensures Covers(ws, t) <==> Covers(init, t) || Holds(last, t) {
      CoversConcat(init, [last], t);
    }
  }

  lemma Inhabited(ws: seq<Window>)
    ensures ws != [] ==> Covers(ws, ws[0].start)
  {
    if ws != [] {
      assert ws[0] in ws && Holds(ws[0], ws[0].start);
    }
  }

  lemma SeparatedStartsFirst(ws: seq<Window>, t: int)
    requires Separated(ws) && ws != [] && Covers(ws, t)
    ensures ws[0].start <= t
    ensures ws[0].end <= t ==> |ws| > 1 && ws[1].start <= t
  {
    var w :| w in ws && Holds(w, t);
    var i :| 0 <= i < |ws| && ws[i] == w;
    assert i > 0 ==> ws[0].end < ws[i].start;
    assert i > 1 ==> ws[1].end < ws[i].start;
  }

  lemma SeparatedHeads(a: seq<Window>, b: seq<Window>)
    requires Separated(a) && Separated(b) && SamePoints(a, b) && a != [] && b != []
    ensures a[0].start >= b[0].start && a[0].end <= b[0].end
  {
    assert Holds(a[0], a[0].start) && Covers(a, a[0].start);
    SeparatedStartsFirst(b, a[0].start);
    if b[0].end < a[0].end {
      // b stops at b[0].end, yet a still holds that instant
      if b[0].end >= a[0].start {
        assert Holds(a[0], b[0].end) && Covers(a, b[0].end);
        SeparatedStartsFirst(b, b[0].end);
      } else {
        assert Holds(b[0], b[0].start) && Covers(b, b[0].start);
        SeparatedStartsFirst(a, b[0].start);
      }
      assert false;
    }
  }

  /** A set of instants has one separated list, so separated lists are canonical. */
  lemma {:induction false} CanonicalIsUnique(a: seq<Window>, b: seq<Window>)
    requires Separated(a) && Separated(b) && SamePoints(a, b)
    ensures a == b
  {
    Inhabited(a);
    Inhabited(b);
    if a != [] && b != [] {
      SeparatedHeads(a, b);
      SeparatedHeads(b, a);
      assert a[0] == b[0];
      forall t ensures Covers(a[1..], t) <==> Covers(b[1..], t) {
        CoversCons(a, t);
        CoversCons(b, t);
        TailMissesHead(a, t);
        TailMissesHead(b, t);
      }
      CanonicalIsUnique(a[1..], b[1..]);
      assert a == [a[0]] + a[1..] && b == [b[0]] + b[1..];
    }
  }

  lemma TailMissesHead(ws: seq<Window>, t: int)
    requires Separated(ws) && ws != []
    ensures Holds(ws[0], t) ==> !Covers(ws[1..], t)
  {
  }

  /** Overlap and containment are about instants; windows that only touch do not overlap. */
  lemma WindowsAreInstants(a: Window, b: Window)
    ensures Overlap(a, b) <==> exists t :: Holds(a, t) && Holds(b, t)
    ensures Within(a, b) <==> forall t :: Holds(a, t) ==> Holds(b, t)
  {
    var t := if a.start >= b.start then a.start else b.start;
    assert Overlap(a, b) ==> Holds(a, t) && Holds(b, t);
    assert Holds(a, a.start) && Holds(a, a.end - 1);
  }

  // ---------------------------------------------------------------- subtraction

  function Intersection(a: Window, b: Window): (r: Option<Window>)
    ensures r.Some? <==> Overlap(a, b)
    ensures r.Some? ==> forall t :: Holds(r.value, t) <==> Holds(a, t) && Holds(b, t)
  {
    var start := if a.start >= b.start then a.start else b.start;
    var end := if a.end <= b.end then a.end else b.end;
    if start < end then Some(Window(start, end)) else None
  }

  /** What is left of one window when one block is taken out of it. */
  function Carve(w: Window, block: Window): (r: seq<Window>)
    ensures Separated(r)
    ensures forall p :: p in r ==> Within(p, w)
    ensures forall t :: Covers(r, t) <==> Holds(w, t) && !Holds(block, t)
  {
    if !Overlap(w, block) then
      assert Covers([w], w.start) by { assert w in [w]; }
      assert forall t :: Covers([w], t) <==> Holds(w, t) by { OneWindow(w); }
      [w]
    else
      var left: seq<Window> := if w.start < block.start then [Window(w.start, block.start)] else [];
      var right: seq<Window> := if block.end < w.end then [Window(block.end, w.end)] else [];
      assert forall t :: Covers(left + right, t) <==> Holds(w, t) && !Holds(block, t) by {
        forall t ensures Covers(left + right, t) <==> Holds(w, t) && !Holds(block, t) {
          CoversConcat(left, right, t);
          if left != [] { OneWindow(left[0]); }
          if right != [] { OneWindow(right[0]); }
        }
      }
      left + right
  }

  lemma OneWindow(w: Window)
    ensures forall t :: Covers([w], t) <==> Holds(w, t)
  {
    forall t ensures Covers([w], t) <==> Holds(w, t) {
      assert w in [w];
    }
  }

  /** Carve one block out of every window of a list. */
  function CarveAll(ws: seq<Window>, block: Window): seq<Window> {
    FlatMap(ws, w => Carve(w, block))
  }

  lemma {:induction false} CarveAllPoints(ws: seq<Window>, block: Window)
    ensures forall t :: Covers(CarveAll(ws, block), t) <==> Covers(ws, t) && !Holds(block, t)
    ensures forall p :: p in CarveAll(ws, block) ==> exists w :: w in ws && Within(p, w)
    ensures Separated(ws) ==> Separated(CarveAll(ws, block))
  {
    if ws != [] {
      var last := |ws| - 1;
      var init := ws[..last];
      CarveAllPoints(init, block);
      assert ws == init + [ws[last]];
      OneWindow(ws[last]);
      forall t ensures Covers(CarveAll(ws, block), t) <==> Covers(ws, t) && !Holds(block, t) {
        CoversConcat(CarveAll(init, block), Carve(ws[last], block), t);
        CoversConcat(init, [ws[last]], t);
      }
      var a, b := CarveAll(init, block), Carve(ws[last], block);
      assert CarveAll(ws, block) == a + b;
      forall p | p in a + b ensures exists w :: w in ws && Within(p, w) {
        if p in a {
          var w :| w in init && Within(p, w);
          assert w in ws;
        } else {
          assert ws[last] in ws;
        }
      }
      if Separated(ws) {
        forall i, j | 0 <= i < j < |a + b| ensures (a + b)[i].end < (a + b)[j].start {
          if i < |a| <= j {
            assert a[i] in a;
            var w :| w in init && Within(a[i], w);
            var k :| 0 <= k < last && ws[k] == w;
            assert ws[k].end < ws[last].start;
            assert b[j - |a|] in b;
          }
        }
      }
    }
  }

  /** The window with every block taken out, one after the other. */
  function Subtract(w: Window, blocks: seq<Window>): seq<Window> {
    if blocks == [] then [w] else CarveAll(Subtract(w, blocks[..|blocks|-1]), blocks[|blocks|-1])
  }

  /** Subtraction yields the ordered maximal pieces of the set difference. */
  lemma {:induction false} SubtractMeaning(w: Window, blocks: seq<Window>)
    ensures Separated(Subtract(w, blocks))
    ensures forall t :: Covers(Subtract(w, blocks), t) <==> Holds(w, t) && !Covers(blocks, t)
    ensures forall p :: p in Subtract(w, blocks) ==> Within(p, w)
    ensures forall p, b :: p in Subtract(w, blocks) && b in blocks ==> !Overlap(p, b)
  {
    OneWindow(w);
    if blocks != [] {
      var last := |blocks| - 1;
      SubtractMeaning(w, blocks[..last]);
      CarveAllPoints(Subtract(w, blocks[..last]), blocks[last]);
      CoversSnoc(blocks);
    }
    var r := Subtract(w, blocks);
    forall p, b | p in r && b in blocks ensures !Overlap(p, b) {
      var t := if p.start >= b.start then p.start else b.start;
      if Overlap(p, b) {
        assert Holds(p, t) && Holds(b, t);
        assert Covers(r, t) && Covers(blocks, t);
      }
    }
  }

  /** The order, and the repetition, of the blocks does not matter. */
  lemma SubtractIgnoresOrder(w: Window, a: seq<Window>, b: seq<Window>)
    requires SamePoints(a, b)
    ensures Subtract(w, a) == Subtract(w, b)
  {
    SubtractMeaning(w, a);
    SubtractMeaning(w, b);
    CanonicalIsUnique(Subtract(w, a), Subtract(w, b));
  }

  lemma SamePointsIfSameElements(a: seq<Window>, b: seq<Window>)
    requires forall w :: w in a <==> w in b
    ensures SamePoints(a, b)
  {
  }

  /** One round of the planner's loop: rebuild the remaining pieces around one block. */
  method CarveEach(remaining: seq<Window>, block: Window) returns (next: seq<Window>)
    ensures next == CarveAll(remaining, block)
  {
    next := [];
    for i := 0 to |remaining|
      invariant next == CarveAll(remaining[..i], block)
    {
      var candidate := remaining[i];
      FlatMapStep(remaining, i, w => Carve(w, block));
      if block.end <= candidate.start || block.start >= candidate.end {
        next := next + [candidate];
      } else {
        if candidate.start < block.start {
          next := next + [Window(candidate.start, block.start)];
        }
        if block.end < candidate.end {
          next := next + [Window(block.end, candidate.end)];
        }
      }
    }
    assert remaining[..|remaining|] == remaining;
  }

  /** The planner's loop: blocks in order of start and end, whatever order they came in. */
  method SubtractWindows(window: Window, blocked: seq<Window>) returns (remaining: seq<Window>)
    ensures remaining == Subtract(window, blocked)
    ensures Separated(remaining)
    ensures forall t :: Covers(remaining, t) <==> Holds(window, t) && !Covers(blocked, t)
  {
    SubtractNothing(window);
    hide Subtract, CarveAll, Separated, Covers, Sort;
    remaining := [window];
    var ordered := Sort(WindowLeq, blocked);
    for k := 0 to |ordered|
      invariant remaining == Subtract(window, ordered[..k])
    {
      SubtractStep(window, ordered, k);
      remaining := CarveEach(remaining, ordered[k]);
    }
    assert ordered[..|ordered|] == ordered;
    SortedBlocks(window, blocked);
  }

  lemma SubtractNothing(window: Window)
    ensures Subtract(window, []) == [window]
  {
  }

  lemma SubtractStep(window: Window, blocks: seq<Window>, k: nat)
    requires k < |blocks|
    ensures Subtract(window, blocks[..k+1]) == CarveAll(Subtract(window, blocks[..k]), blocks[k])
  {
    assert blocks[..k+1][..k] == blocks[..k];
  }

  lemma SortedBlocks(window: Window, blocked: seq<Window>)
    ensures Subtract(window, Sort(WindowLeq, blocked)) == Subtract(window, blocked)
    ensures Separated(Subtract(window, blocked))
    ensures forall t :: Covers(Subtract(window, blocked), t) <==> Holds(window, t) && !Covers(blocked, t)
  {
    SortPermutes(WindowLeq, blocked);
    hide Subtract, Sort, Covers, Separated;
    SamePointsIfSameElements(Sort(WindowLeq, blocked), blocked);
    SubtractIgnoresOrder(window, Sort(WindowLeq, blocked), blocked);
    SubtractMeaning(window, blocked);
  }

  /** Two carvings of the same list commute: the pieces of each window are canonical. */
  lemma {:induction false} CarvingsCommute(ws: seq<Window>, a: Window, b: Window)
    ensures CarveAll(CarveAll(ws, a), b) == CarveAll(CarveAll(ws, b), a)
  {
    if ws != [] {
      var init, last := ws[..|ws|-1], ws[|ws|-1];
      CarvingsCommute(init, a, b);
      CarveTwice(last, a, b);
      CarveTwice(last, b, a);
      SamePointsIfSameElements([a, b], [b, a]);
      SubtractIgnoresOrder(last, [a, b], [b, a]);
      FlatMapConcat(CarveAll(init, a), Carve(last, a), w => Carve(w, b));
      FlatMapConcat(CarveAll(init, b), Carve(last, b), w => Carve(w, a));
    }
  }

  lemma CarveTwice(w: Window, a: Window, b: Window)
    ensures CarveAll(Carve(w, a), b) == Subtract(w, [a, b])
  {
    assert [a, b][..1] == [a] && [a][..0] == [];
    assert Subtract(w, [a]) == CarveAll(Subtract(w, [a][..0]), a) == CarveAll([w], a);
    assert Subtract(w, [a, b]) == CarveAll(Subtract(w, [a, b][..1]), b);
    assert CarveAll([w], a) == CarveAll([w][..0], a) + Carve(w, a);
    assert CarveAll([w][..0], a) == [];
    assert CarveAll([w], a) == Carve(w, a);
  }

  // ---------------------------------------------------------------- merging

  /** Append a window that starts no earlier than the last one, joining it if they touch. */
  function Join(merged: seq<Window>, w: Window): seq<Window> {
    if merged == [] || w.start > merged[|merged|-1].end then merged + [w]
    else
      var last := merged[|merged|-1];
      merged[..|merged|-1] + [Window(last.start, if last.end >= w.end then last.end else w.end)]
  }

  function JoinAll(ordered: seq<Window>): seq<Window> {
    if ordered == [] then [] else Join(JoinAll(ordered[..|ordered|-1]), ordered[|ordered|-1])
  }

  lemma JoinMeaning(merged: seq<Window>, w: Window)
    requires Separated(merged)
    requires merged != [] ==> merged[|merged|-1].start <= w.start
    ensures Separated(Join(merged, w))
    ensures forall t :: Covers(Join(merged, w), t) <==> Covers(merged, t) || Holds(w, t)
    ensures Join(merged, w)[|Join(merged, w)|-1].start <= w.start
  {
    OneWindow(w);
    if merged == [] || w.start > merged[|merged|-1].end {
      forall t ensures Covers(Join(merged, w), t) <==> Covers(merged, t) || Holds(w, t) {
        CoversConcat(merged, [w], t);
      }
    } else {
      var init, last := merged[..|merged|-1], merged[|merged|-1];
      var joined := Window(last.start, if last.end >= w.end then last.end else w.end);
      OneWindow(last);
      OneWindow(joined);
      forall t ensures Covers(Join(merged, w), t) <==> Covers(merged, t) || Holds(w, t) {
        CoversConcat(init, [joined], t);
        CoversConcat(init, [last], t);
        assert merged == init + [last];
      }
    }
  }

  predicate StartsAscend(ws: seq<Window>) {
    forall i, j :: 0 <= i < j < |ws| ==> ws[i].start <= ws[j].start
  }

  /** Merging windows given in order of start keeps their instants and separates them. */
  lemma {:induction false} JoinAllMeaning(ordered: seq<Window>)
    requires StartsAscend(ordered)
    ensures Separated(JoinAll(ordered))
    ensures SamePoints(JoinAll(ordered), ordered)
    ensures ordered == [] <==> JoinAll(ordered) == []
    ensures ordered != [] ==> JoinAll(ordered)[|JoinAll(ordered)|-1].start <= ordered[|ordered|-1].start
  {
    if ordered != [] {
      var last := |ordered| - 1;
      JoinAllMeaning(ordered[..last]);
      JoinMeaning(JoinAll(ordered[..last]), ordered[last]);
      CoversSnoc(ordered);
    }
  }

  function Merge(windows: seq<Window>): seq<Window> {
    JoinAll(Sort(WindowLeq, windows))
  }

  /** Merging yields the ordered, strictly separated windows with the same instants. */
  lemma MergeMeaning(windows: seq<Window>)
    ensures Separated(Merge(windows)) && SamePoints(Merge(windows), windows)
  {
    WindowOrder();
    SortOrders(WindowLeq, windows);
    SortPermutes(WindowLeq, windows);
    JoinAllMeaning(Sort(WindowLeq, windows));
    SamePointsIfSameElements(Sort(WindowLeq, windows), windows);
  }

  /** The impact analysis' loop: extend the last merged window or start a new one. */
  method MergeWindows(windows: seq<Window>) returns (merged: seq<Window>)
    ensures merged == Merge(windows)
    ensures Separated(merged) && SamePoints(merged, windows)
  {
    hide Separated, SamePoints, Sort, JoinAll, Merge;
    MergeJoinsInOrder(windows);
    var ordered := Sort(WindowLeq, windows);
    merged := [];
    for k := 0 to |ordered|
      invariant merged == JoinAll(ordered[..k])
    {
      var window := ordered[k];
      JoinStep(ordered, k);
      if merged == [] || window.start > merged[|merged|-1].end {
        merged := merged + [window];
      } else {
        var end := if merged[|merged|-1].end >= window.end then merged[|merged|-1].end else window.end;
        assert merged[|merged|-1].start < end;
        merged := merged[|merged|-1 := Window(merged[|merged|-1].start, end)];
      }
    }
    assert ordered[..|ordered|] == ordered;
    MergeMeaning(windows);
  }

  lemma MergeJoinsInOrder(windows: seq<Window>)
    ensures Merge(windows) == JoinAll(Sort(WindowLeq, windows)) && JoinAll([]) == []
  {
  }

  lemma JoinStep(ordered: seq<Window>, k: nat)
    requires k < |ordered|
    ensures JoinAll(ordered[..k+1]) == Join(JoinAll(ordered[..k]), ordered[k])
  {
    assert ordered[..k+1][..k] == ordered[..k];
  }

  lemma OneMerged(w: Window)
    ensures Merge([w]) == [w]
  {
    var ws: seq<Window> := [w];
    MergeMeaning(ws);
    hide Merge;
    CanonicalIsUnique(Merge(ws), ws);
  }
}
