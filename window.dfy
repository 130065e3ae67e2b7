/** The context-window boundary selector shared by the three copies of the
    line-expansion loop (backlog/common.ts, src/common.ts, src/codeCompleter.ts).

    The loop starts with `lineAbove` just above and `lineBelow` just below the
    anchor. In each round it adds the weight of the line above (if there is
    one), then of the line below (if there is one), and stops at the first
    addition that makes the running total exceed the limit, when both sides
    have run out of lines, or after `cap` rounds. The boundaries are then
    clamped to the document.

    `Expand` is the loop as a tail-recursive function; it gives the state the
    loop stops in. `Order` and `Consumed` are an independent description of
    the same scan: the order in which lines are visited, and how many of them
    a greedy scan against the limit takes. `ExpandIsGreedy` connects the two. */
module Window {

  datatype StopReason = Exhausted | Overflow | CapReached

  /** The loop's variables when it stops, before clamping. */
  datatype Stop = Stop(lineAbove: int, lineBelow: int, total: nat, reason: StopReason)

  /** What the boundary functions return: clamped boundaries and the total weight counted. */
  datatype Bounds = Bounds(lineAbove: int, lineBelow: int, total: nat)

  /** The weight of line `i`; indexes outside the document weigh nothing (the
      loop never reads them under its callers' preconditions). */
  function LineWeight(doc: seq<string>, weight: string -> nat, i: int): nat {
    if 0 <= i < |doc| then weight(doc[i]) else 0
  }

  /** The loop from state (above, below, total) with `rounds` iterations left. */
  function Expand(doc: seq<string>, weight: string -> nat, limit: int, rounds: nat,
                  above: int, below: int, total: nat): Stop
    decreases rounds
  {
    if rounds == 0 then Stop(above, below, total, CapReached)
    else if above < 0 && below >= |doc| then Stop(above, below, total, Exhausted)
    else
      var t1 := if above >= 0 then total + LineWeight(doc, weight, above) else total;
      if above >= 0 && t1 > limit then Stop(above, below, t1, Overflow)
      else
        var t2 := if below < |doc| then t1 + LineWeight(doc, weight, below) else t1;
        if below < |doc| && t2 > limit then Stop(above, below, t2, Overflow)
        else Expand(doc, weight, limit, rounds - 1, above - 1, below + 1, t2)
  }

  /** Clamping of the final boundaries to [0, lineCount - 1]. */
  function Clamp(doc: seq<string>, e: Stop): Bounds {
    Bounds(if e.lineAbove < 0 then 0 else e.lineAbove,
           if e.lineBelow >= |doc| then |doc| - 1 else e.lineBelow,
           e.total)
  }

  /** The lines one round looks at: the line above first, then the line below. */
  function Round(doc: seq<string>, above: int, below: int): seq<int> {
    (if above >= 0 then [above] else []) + (if below < |doc| then [below] else [])
  }

  /** Every line within `rounds` rounds of the start, in the order the loop visits them. */
  function Order(doc: seq<string>, above: int, below: int, rounds: nat): seq<int>
    decreases rounds
  {
    if rounds == 0 then [] else Round(doc, above, below) + Order(doc, above - 1, below + 1, rounds - 1)
  }

  function SumWeights(doc: seq<string>, weight: string -> nat, lines: seq<int>): nat {
    if |lines| == 0 then 0 else LineWeight(doc, weight, lines[0]) + SumWeights(doc, weight, lines[1..])
  }

  /** How many of `lines` a greedy scan takes, starting from `total`: every line
      up to and including the first one whose addition exceeds `limit`. */
  function Consumed(doc: seq<string>, weight: string -> nat, lines: seq<int>, limit: int, total: nat): nat {
    if |lines| == 0 then 0
    else
      var t := total + LineWeight(doc, weight, lines[0]);
      if t > limit then 1 else 1 + Consumed(doc, weight, lines[1..], limit, t)
  }

  /** The boundaries the loop returns for a start (lineAbove, lineBelow): clamped
      to the document, never below the start above nor above the start below. */
  function Boundaries(doc: seq<string>, weight: string -> nat, limit: int, cap: nat,
                      lineAbove: int, lineBelow: int): (b: Bounds)
    ensures 0 <= b.lineAbove <= (if lineAbove < 0 then 0 else lineAbove)
    ensures b.lineBelow <= |doc| - 1
    ensures b.lineBelow >= (if lineBelow >= |doc| then |doc| - 1 else lineBelow)
  {
    ExpandShape(doc, weight, limit, cap, lineAbove, lineBelow, 0);
    Clamp(doc, Expand(doc, weight, limit, cap, lineAbove, lineBelow, 0))
  }

  lemma {:induction false} SumAppend(doc: seq<string>, weight: string -> nat, xs: seq<int>, ys: seq<int>)
    ensures SumWeights(doc, weight, xs + ys) == SumWeights(doc, weight, xs) + SumWeights(doc, weight, ys)
  {
    if |xs| == 0 {
      assert xs + ys == ys;
    } else {
      assert (xs + ys)[1..] == xs[1..] + ys;
      SumAppend(doc, weight, xs[1..], ys);
    }
  }

  /** Each full round moves the above boundary down by one and the below
      boundary up by one; there are at most `rounds` of them; the loop stops at
      the cap only after all of them, and on exhaustion only when both sides
      are out of lines. */
  lemma {:induction false} ExpandShape(doc: seq<string>, weight: string -> nat, limit: int, rounds: nat,
                                       above: int, below: int, total: nat)
    ensures var e := Expand(doc, weight, limit, rounds, above, below, total);
      && e.lineAbove <= above
      && e.lineBelow - below == above - e.lineAbove <= rounds
      && (e.reason == CapReached ==> above - e.lineAbove == rounds)
      && (e.reason == Exhausted ==> e.lineAbove < 0 && e.lineBelow >= |doc|)
      && (e.reason == Overflow ==> (0 <= e.lineAbove || e.lineBelow < |doc|))
      && e.total >= total
    decreases rounds
  {
    if rounds > 0 && !(above < 0 && below >= |doc|) {
      var t1 := if above >= 0 then total + LineWeight(doc, weight, above) else total;
      var t2 := if below < |doc| then t1 + LineWeight(doc, weight, below) else t1;
      ExpandShape(doc, weight, limit, rounds - 1, above - 1, below + 1, t2);
    }
  }

  /** Once both sides are out of lines no round visits anything. */
  lemma {:induction false} OrderExhausted(doc: seq<string>, above: int, below: int, rounds: nat)
    requires above < 0 && below >= |doc|
    ensures Order(doc, above, below, rounds) == []
    decreases rounds
  {
    if rounds > 0 {
      OrderExhausted(doc, above - 1, below + 1, rounds - 1);
    }
  }

  /** The visit order holds exactly the document lines at most `rounds - 1`
      lines above `above` or below `below`. */
  lemma {:induction false} OrderMembers(doc: seq<string>, above: int, below: int, rounds: nat)
    requires above < |doc| && 0 <= below
    ensures forall i :: i in Order(doc, above, below, rounds) <==>
      0 <= i < |doc| && (above - rounds < i <= above || below <= i < below + rounds)
    decreases rounds
  {
    if rounds > 0 {
      OrderMembers(doc, above - 1, below + 1, rounds - 1);
    }
  }

  /** A greedy scan takes a prefix of the lines; before every line it takes
      after the first, the running total was within the limit; it stops early
      only on a line whose addition exceeds the limit. */
  lemma {:induction false} ConsumedIsGreedyPrefix(doc: seq<string>, weight: string -> nat, lines: seq<int>,
                                                  limit: int, total: nat)
    ensures var k := Consumed(doc, weight, lines, limit, total);
      && k <= |lines|
      && (forall j :: 0 < j < k ==> total + SumWeights(doc, weight, lines[..j]) <= limit)
      && (k < |lines| ==> 0 < k && total + SumWeights(doc, weight, lines[..k]) > limit)
  {
    if |lines| > 0 {
      var t := total + LineWeight(doc, weight, lines[0]);
      assert lines[..1] == [lines[0]];
      assert SumWeights(doc, weight, lines[..1]) == LineWeight(doc, weight, lines[0]) by {
        assert lines[..1][1..] == [];
      }
      if t <= limit {
        var rest := lines[1..];
        ConsumedIsGreedyPrefix(doc, weight, rest, limit, t);
        var k := Consumed(doc, weight, lines, limit, total);
        forall j | 0 < j <= k
          ensures total + SumWeights(doc, weight, lines[..j]) == t + SumWeights(doc, weight, rest[..j - 1])
        {
          assert lines[..j] == [lines[0]] + rest[..j - 1];
          SumAppend(doc, weight, [lines[0]], rest[..j - 1]);
          assert SumWeights(doc, weight, [lines[0]]) == LineWeight(doc, weight, lines[0]) by {
            assert [lines[0]][1..] == [];
          }
        }
      }
    }
  }

  lemma SumOfOneOrTwo(doc: seq<string>, weight: string -> nat, x: int, y: int)
    ensures SumWeights(doc, weight, [x]) == LineWeight(doc, weight, x)
    ensures SumWeights(doc, weight, [x, y]) == LineWeight(doc, weight, x) + LineWeight(doc, weight, y)
  {
    assert [x][1..] == [];
    assert [x, y][1..] == [y];
    assert [y][1..] == [];
  }

  /** One round that does not overflow: the greedy scan takes the whole round,
      at the weight the loop added. */
  lemma RoundWithin(doc: seq<string>, weight: string -> nat, limit: int,
                    above: int, below: int, total: nat, rest: seq<int>)
    requires !(above < 0 && below >= |doc|)
    requires var t1 := if above >= 0 then total + LineWeight(doc, weight, above) else total;
      var t2 := if below < |doc| then t1 + LineWeight(doc, weight, below) else t1;
      !(above >= 0 && t1 > limit) && !(below < |doc| && t2 > limit)
    ensures var t1 := if above >= 0 then total + LineWeight(doc, weight, above) else total;
      var t2 := if below < |doc| then t1 + LineWeight(doc, weight, below) else t1;
      var r := Round(doc, above, below);
      && 1 <= |r|
      && Consumed(doc, weight, r + rest, limit, total) == |r| + Consumed(doc, weight, rest, limit, t2)
      && SumWeights(doc, weight, r) == t2 - total
  {
    var r := Round(doc, above, below);
    if above >= 0 && below < |doc| {
      assert r == [above, below];
      assert (r + rest)[1..] == [below] + rest;
      assert ([below] + rest)[1..] == rest;
      SumOfOneOrTwo(doc, weight, above, below);
    } else {
      assert (r + rest)[1..] == rest;
      SumOfOneOrTwo(doc, weight, r[0], r[0]);
    }
  }

  /** A round that overflows: the greedy scan stops inside it, on the boundary
      line that overflowed. */
  lemma RoundOverflows(doc: seq<string>, weight: string -> nat, limit: int,
                       above: int, below: int, total: nat, rest: seq<int>)
    requires !(above < 0 && below >= |doc|)
    requires var t1 := if above >= 0 then total + LineWeight(doc, weight, above) else total;
      var t2 := if below < |doc| then t1 + LineWeight(doc, weight, below) else t1;
      (above >= 0 && t1 > limit) || (below < |doc| && t2 > limit)
    ensures var t1 := if above >= 0 then total + LineWeight(doc, weight, above) else total;
      var t2 := if below < |doc| then t1 + LineWeight(doc, weight, below) else t1;
      var order := Round(doc, above, below) + rest;
      var k := Consumed(doc, weight, order, limit, total);
      && 0 < k <= |Round(doc, above, below)|
      && total + SumWeights(doc, weight, order[..k]) == (if above >= 0 && t1 > limit then t1 else t2)
      && order[k - 1] == (if above >= 0 && t1 > limit then above else below)
  {
    var t1 := if above >= 0 then total + LineWeight(doc, weight, above) else total;
    var order := Round(doc, above, below) + rest;
    SumOfOneOrTwo(doc, weight, above, below);
    SumOfOneOrTwo(doc, weight, below, below);
    if above >= 0 {
      assert order[0] == above;
      assert order[..1] == [above];
      if t1 <= limit {
        assert order[1..][0] == below;
        assert order[..2] == [above, below];
      }
    } else {
      assert order[0] == below;
      assert order[..1] == [below];
    }
  }

  /** `e` is where a greedy scan of `order` from `total` stops: its total is
      the weight of the lines taken (the line that overflowed included); it
      overflowed exactly when it took some line and ended over the limit;
      otherwise it took every line; and on overflow the line that overflowed
      is one of its boundaries. */
  predicate IsGreedyScan(doc: seq<string>, weight: string -> nat, limit: int,
                         e: Stop, order: seq<int>, total: nat)
  {
    var k := Consumed(doc, weight, order, limit, total);
    && k <= |order|
    && e.total == total + SumWeights(doc, weight, order[..k])
    && (e.reason == Overflow <==> 0 < k && e.total > limit)
    && (e.reason != Overflow ==> k == |order|)
    && (e.reason == Overflow ==> 0 < k && (order[k - 1] == e.lineAbove || order[k - 1] == e.lineBelow))
  }

  /** A round without overflow followed by a greedy scan of the rest is a
      greedy scan of the round and the rest together. */
  lemma GreedyAfterRound(doc: seq<string>, weight: string -> nat, limit: int,
                         above: int, below: int, total: nat, rest: seq<int>, e: Stop)
    requires !(above < 0 && below >= |doc|)
    requires var t1 := if above >= 0 then total + LineWeight(doc, weight, above) else total;
      var t2 := if below < |doc| then t1 + LineWeight(doc, weight, below) else t1;
      && !(above >= 0 && t1 > limit) && !(below < |doc| && t2 > limit)
      && IsGreedyScan(doc, weight, limit, e, rest, t2)
      && e.total >= t2
    ensures IsGreedyScan(doc, weight, limit, e, Round(doc, above, below) + rest, total)
  {
    var t1 := if above >= 0 then total + LineWeight(doc, weight, above) else total;
    var t2 := if below < |doc| then t1 + LineWeight(doc, weight, below) else t1;
    var r := Round(doc, above, below);
    var order := r + rest;
    RoundWithin(doc, weight, limit, above, below, total, rest);
    var k' := Consumed(doc, weight, rest, limit, t2);
    var k := Consumed(doc, weight, order, limit, total);
    assert k == |r| + k' <= |order|;
    assert order[..k] == r + rest[..k'];
    SumAppend(doc, weight, r, rest[..k']);
    assert e.total == total + SumWeights(doc, weight, order[..k]);
    if k' > 0 {
      assert order[k - 1] == rest[k' - 1];
    }
  }

  /** When no round is left or both sides are out of lines, the loop takes
      nothing more and neither does the greedy scan. */
  lemma ExpandStopsIsGreedy(doc: seq<string>, weight: string -> nat, limit: int, rounds: nat,
                            above: int, below: int, total: nat)
    requires rounds == 0 || (above < 0 && below >= |doc|)
    ensures IsGreedyScan(doc, weight, limit, Expand(doc, weight, limit, rounds, above, below, total),
                         Order(doc, above, below, rounds), total)
  {
    if rounds > 0 {
      OrderExhausted(doc, above - 1, below + 1, rounds - 1);
      assert Round(doc, above, below) == [];
    }
    assert Order(doc, above, below, rounds) == [];
  }

  /** A round that overflows ends the loop where the greedy scan of the
      visit order ends. */
  lemma ExpandOverflowIsGreedy(doc: seq<string>, weight: string -> nat, limit: int, rounds: nat,
                               above: int, below: int, total: nat)
    requires rounds > 0 && !(above < 0 && below >= |doc|)
    requires var t1 := if above >= 0 then total + LineWeight(doc, weight, above) else total;
      var t2 := if below < |doc| then t1 + LineWeight(doc, weight, below) else t1;
      (above >= 0 && t1 > limit) || (below < |doc| && t2 > limit)
    ensures IsGreedyScan(doc, weight, limit, Expand(doc, weight, limit, rounds, above, below, total),
                         Order(doc, above, below, rounds), total)
  {
    assert Order(doc, above, below, rounds) == Round(doc, above, below) + Order(doc, above - 1, below + 1, rounds - 1);
    RoundOverflows(doc, weight, limit, above, below, total, Order(doc, above - 1, below + 1, rounds - 1));
  }

  /** A round within the limit continues the greedy scan: if the rest of the
      loop is the greedy scan of the rest of the order, the whole loop is the
      greedy scan of the whole order. */
  lemma ExpandWithinIsGreedy(doc: seq<string>, weight: string -> nat, limit: int, rounds: nat,
                             above: int, below: int, total: nat)
    requires rounds > 0 && !(above < 0 && below >= |doc|)
    requires var t1 := if above >= 0 then total + LineWeight(doc, weight, above) else total;
      var t2 := if below < |doc| then t1 + LineWeight(doc, weight, below) else t1;
      && !(above >= 0 && t1 > limit) && !(below < |doc| && t2 > limit)
      && IsGreedyScan(doc, weight, limit, Expand(doc, weight, limit, rounds - 1, above - 1, below + 1, t2),
                      Order(doc, above - 1, below + 1, rounds - 1), t2)
    ensures IsGreedyScan(doc, weight, limit, Expand(doc, weight, limit, rounds, above, below, total),
                         Order(doc, above, below, rounds), total)
  {
    assert Order(doc, above, below, rounds) == Round(doc, above, below) + Order(doc, above - 1, below + 1, rounds - 1);
    var t1 := if above >= 0 then total + LineWeight(doc, weight, above) else total;
    var t2 := if below < |doc| then t1 + LineWeight(doc, weight, below) else t1;
    var e := Expand(doc, weight, limit, rounds - 1, above - 1, below + 1, t2);
    assert Expand(doc, weight, limit, rounds, above, below, total) == e;
    ExpandShape(doc, weight, limit, rounds - 1, above - 1, below + 1, t2);
    GreedyAfterRound(doc, weight, limit, above, below, total, Order(doc, above - 1, below + 1, rounds - 1), e);
  }

  /** The loop is the greedy scan of its visit order. */
  lemma {:induction false} ExpandIsGreedy(doc: seq<string>, weight: string -> nat, limit: int, rounds: nat,
                                          above: int, below: int, total: nat)
    ensures IsGreedyScan(doc, weight, limit, Expand(doc, weight, limit, rounds, above, below, total),
                         Order(doc, above, below, rounds), total)
    decreases rounds
  {
    if rounds == 0 || (above < 0 && below >= |doc|) {
      ExpandStopsIsGreedy(doc, weight, limit, rounds, above, below, total);
    } else {
      var t1 := if above >= 0 then total + LineWeight(doc, weight, above) else total;
      var t2 := if below < |doc| then t1 + LineWeight(doc, weight, below) else t1;
      if (above >= 0 && t1 > limit) || (below < |doc| && t2 > limit) {
        ExpandOverflowIsGreedy(doc, weight, limit, rounds, above, below, total);
      } else {
        ExpandIsGreedy(doc, weight, limit, rounds - 1, above - 1, below + 1, t2);
        ExpandWithinIsGreedy(doc, weight, limit, rounds, above, below, total);
      }
    }
  }

  /** A larger limit never yields a smaller window: the boundaries for `small`
      lie within those for `large`. */
  lemma {:induction false} ExpandMonotone(doc: seq<string>, weight: string -> nat, small: int, large: int,
                                          rounds: nat, above: int, below: int, total: nat)
    requires small <= large
    ensures var e1 := Expand(doc, weight, small, rounds, above, below, total);
      var e2 := Expand(doc, weight, large, rounds, above, below, total);
      e2.lineAbove <= e1.lineAbove && e1.lineBelow <= e2.lineBelow
    decreases rounds
  {
    if rounds > 0 && !(above < 0 && below >= |doc|) {
      var t1 := if above >= 0 then total + LineWeight(doc, weight, above) else total;
      var t2 := if below < |doc| then t1 + LineWeight(doc, weight, below) else t1;
      ExpandShape(doc, weight, large, rounds - 1, above - 1, below + 1, t2);
      if !(above >= 0 && t1 > small) && !(below < |doc| && t2 > small) {
        ExpandMonotone(doc, weight, small, large, rounds - 1, above - 1, below + 1, t2);
      } else if !(above >= 0 && t1 > large) && !(below < |doc| && t2 > large) {
        // only the smaller limit overflowed in this round: the larger one keeps expanding
      }
    }
  }

  /** Window monotonicity: raising the limit never shrinks the clamped window. */
  lemma BoundariesMonotone(doc: seq<string>, weight: string -> nat, small: int, large: int, cap: nat,
                           lineAbove: int, lineBelow: int)
    requires small <= large
    ensures var b1 := Boundaries(doc, weight, small, cap, lineAbove, lineBelow);
      var b2 := Boundaries(doc, weight, large, cap, lineAbove, lineBelow);
      b2.lineAbove <= b1.lineAbove && b1.lineBelow <= b2.lineBelow
  {
    ExpandMonotone(doc, weight, small, large, cap, lineAbove, lineBelow, 0);
  }

  /** When the loop stops because both sides ran out of lines, the window is
      the whole document. */
  lemma BoundariesWholeDocument(doc: seq<string>, weight: string -> nat, limit: int, cap: nat,
                                lineAbove: int, lineBelow: int)
    requires Expand(doc, weight, limit, cap, lineAbove, lineBelow, 0).reason == Exhausted
    ensures Boundaries(doc, weight, limit, cap, lineAbove, lineBelow).lineAbove == 0
    ensures Boundaries(doc, weight, limit, cap, lineAbove, lineBelow).lineBelow == |doc| - 1
  {
    ExpandShape(doc, weight, limit, cap, lineAbove, lineBelow, 0);
  }

  /** On overflow the clamped boundary on the overflowing side is the
      overflowing line itself, and that line is a document line. */
  lemma BoundariesKeepOverflowLine(doc: seq<string>, weight: string -> nat, limit: int, cap: nat,
                                   lineAbove: int, lineBelow: int)
    requires lineAbove < |doc| && 0 <= lineBelow
    requires Expand(doc, weight, limit, cap, lineAbove, lineBelow, 0).reason == Overflow
    ensures var order := Order(doc, lineAbove, lineBelow, cap);
      var k := Consumed(doc, weight, order, limit, 0);
      var b := Boundaries(doc, weight, limit, cap, lineAbove, lineBelow);
      0 < k <= |order| && 0 <= order[k - 1] < |doc|
      && (order[k - 1] == b.lineAbove || order[k - 1] == b.lineBelow)
  {
    ExpandIsGreedy(doc, weight, limit, cap, lineAbove, lineBelow, 0);
    ExpandShape(doc, weight, limit, cap, lineAbove, lineBelow, 0);
    OrderMembers(doc, lineAbove, lineBelow, cap);
    var order := Order(doc, lineAbove, lineBelow, cap);
    var k := Consumed(doc, weight, order, limit, 0);
    assert order[k - 1] in order;
  }
}
