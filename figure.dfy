/**
 * How GDI+ traces one figure of a GraphicsPath. A line runs from `from` to
 * `to`; an arc runs from the point at its start angle to the point at
 * start + sweep on the circle inscribed in its rectangle (`ArcPoint`).
 * When a primitive added to a figure does not begin where the previous one
 * ended, GDI+ first adds a straight line between the two points; closing
 * the figure adds a line from the end of the last primitive back to the
 * beginning of the first when they differ.
 */
module Figures {
  import opened Drawing
  import opened ArcTest

  /** Where a primitive begins. */
  function StartOf(trig: Trig, s: Primitive): (q: Point)
  {
    match s
    case Line(from, _) => from
    case Arc(rect, startDeg, _) => ArcPoint(trig, rect, startDeg)
  }

  /** Where a primitive ends. */
  function EndOf(trig: Trig, s: Primitive): (q: Point)
  {
    match s
    case Line(_, to) => to
    case Arc(rect, startDeg, sweepDeg) => ArcPoint(trig, rect, startDeg + sweepDeg)
  }

  /** `b` begins where `a` ends, so no joining line is needed between them. */
  predicate Joined(trig: Trig, a: Primitive, b: Primitive)
  {
    EndOf(trig, a) == StartOf(trig, b)
  }

  /** The straight line GDI+ inserts to get from the end of `a` to the beginning of `b`. */
  function Bridge(trig: Trig, a: Primitive, b: Primitive): (l: Primitive)
    ensures l.Line? && Joined(trig, a, l) && Joined(trig, l, b)
  {
    Line(EndOf(trig, a), StartOf(trig, b))
  }

  /** Every primitive begins where the one before it ends. */
  predicate Chained(trig: Trig, c: seq<Primitive>)
  {
    forall i :: 0 <= i < |c| - 1 ==> Joined(trig, c[i], c[i + 1])
  }

  /** The number of neighbours in `segs` that do not meet. */
  function Gaps(trig: Trig, segs: seq<Primitive>): (n: nat)
    ensures n <= |segs|
    ensures n == 0 <==> Chained(trig, segs)
    decreases |segs|
  {
    if |segs| <= 1 then 0
    else
      var init := segs[..|segs| - 1];
      assert forall i :: 0 <= i < |init| ==> init[i] == segs[i];
      Gaps(trig, init) + (if Joined(trig, segs[|segs| - 2], segs[|segs| - 1]) then 0 else 1)
  }

  /**
   * The primitives GDI+ traces for a figure to which `segs` were added in
   * order: each one, preceded by a joining line when it does not begin
   * where the previous one ended.
   */
  function Connect(trig: Trig, segs: seq<Primitive>): (c: seq<Primitive>)
    ensures |segs| <= |c|
    ensures segs != [] ==> c[0] == segs[0] && c[|c| - 1] == segs[|segs| - 1]
    ensures Chained(trig, c)
    decreases |segs|
  {
    if |segs| <= 1 then segs
    else
      var init, last := segs[..|segs| - 1], segs[|segs| - 1];
      assert segs == init + [last];
      var prev := Connect(trig, init);
      var tail := prev[|prev| - 1];
      if Joined(trig, tail, last) then
        assert forall i :: 0 <= i < |prev| - 1 ==> Joined(trig, (prev + [last])[i], (prev + [last])[i + 1]);
        prev + [last]
      else
        var bridge := Bridge(trig, tail, last);
        var c := prev + [bridge, last];
        assert forall i :: 0 <= i < |prev| - 1 ==> Joined(trig, c[i], c[i + 1]);
        assert c[|prev| - 1] == tail && c[|prev|] == bridge && c[|prev| + 1] == last;
        c
  }

  /**
   * The figure as GDI+ traces it: the connected primitives and, for a closed
   * figure whose last primitive does not end where the first begins, the
   * closing line.
   */
  function Outline(trig: Trig, f: Figure): (o: seq<Primitive>)
    ensures |f.segments| <= |o|
    ensures Chained(trig, o)
    ensures f.closed && f.segments != [] ==> Joined(trig, o[|o| - 1], o[0])
  {
    var c := Connect(trig, f.segments);
    if f.closed && c != [] && !Joined(trig, c[|c| - 1], c[0]) then
      var o := c + [Bridge(trig, c[|c| - 1], c[0])];
      assert forall i :: 0 <= i < |c| - 1 ==> Joined(trig, o[i], o[i + 1]);
      o
    else
      c
  }

  /**
   * Connecting keeps every primitive that was added, and whatever it adds is
   * a straight line.
   */
  lemma {:induction false} ConnectKeepsPrimitives(trig: Trig, segs: seq<Primitive>)
    ensures multiset(segs) <= multiset(Connect(trig, segs))
    ensures forall x :: x in multiset(Connect(trig, segs)) - multiset(segs) ==> x.Line?
    decreases |segs|
  {
    if |segs| > 1 {
      var init, last := segs[..|segs| - 1], segs[|segs| - 1];
      ConnectKeepsPrimitives(trig, init);
      var added := ConnectLast(trig, segs);
      AppendKeepsPrimitives(segs, init, Connect(trig, init), last, added, Connect(trig, segs));
    }
  }

  /** What connecting one more primitive appends: the primitive, maybe after a joining line. */
  lemma ConnectLast(trig: Trig, segs: seq<Primitive>) returns (added: seq<Primitive>)
    requires |segs| > 1
    ensures segs == segs[..|segs| - 1] + [segs[|segs| - 1]]
    ensures Connect(trig, segs) == Connect(trig, segs[..|segs| - 1]) + added
    ensures added == [segs[|segs| - 1]] || (|added| == 2 && added[0].Line? && added[1] == segs[|segs| - 1])
  {
    var init, last := segs[..|segs| - 1], segs[|segs| - 1];
    assert segs == init + [last];
    var prev := Connect(trig, init);
    var tail := prev[|prev| - 1];
    added := if Joined(trig, tail, last) then [last] else [Bridge(trig, tail, last), last];
  }

  /** One step of `ConnectKeepsPrimitives`: appending `last`, maybe after a line, to both sides. */
  lemma AppendKeepsPrimitives(segs: seq<Primitive>, init: seq<Primitive>, prev: seq<Primitive>, last: Primitive,
                              added: seq<Primitive>, c: seq<Primitive>)
    requires segs == init + [last] && c == prev + added
    requires multiset(init) <= multiset(prev)
    requires forall x :: x in multiset(prev) - multiset(init) ==> x.Line?
    requires added == [last] || (|added| == 2 && added[0].Line? && added[1] == last)
    ensures multiset(segs) <= multiset(c)
    ensures forall x :: x in multiset(c) - multiset(segs) ==> x.Line?
  {
    assert multiset(c) == multiset(prev) + multiset(added);
    assert multiset(segs) == multiset(init) + multiset{last};
    if added != [last] {
      assert added == [added[0]] + [last];
      assert multiset(added) == multiset{added[0]} + multiset{last};
    }
  }

  /** Connecting adds exactly one joining line for every pair of neighbours that do not meet. */
  lemma {:induction false} ConnectAddsOneLinePerGap(trig: Trig, segs: seq<Primitive>)
    ensures |Connect(trig, segs)| == |segs| + Gaps(trig, segs)
    decreases |segs|
  {
    if |segs| > 1 {
      ConnectAddsOneLinePerGap(trig, segs[..|segs| - 1]);
    }
  }

  /** A figure whose primitives already meet is traced as it was built. */
  lemma {:induction false} ConnectChainedUnchanged(trig: Trig, segs: seq<Primitive>)
    requires Chained(trig, segs)
    ensures Connect(trig, segs) == segs
    decreases |segs|
  {
    if |segs| > 1 {
      var init := segs[..|segs| - 1];
      assert Chained(trig, init) by {
        assert forall i :: 0 <= i < |init| ==> init[i] == segs[i];
      }
      ConnectChainedUnchanged(trig, init);
      assert Joined(trig, segs[|segs| - 2], segs[|segs| - 1]);
      assert segs == init + [segs[|segs| - 1]];
    }
  }

  /**
   * A closed figure whose primitives already form a loop is traced as it
   * was built; otherwise the closing line is added once.
   */
  lemma OutlineLength(trig: Trig, f: Figure)
    ensures |Outline(trig, f)| == |f.segments| + Gaps(trig, f.segments) +
      (if f.closed && f.segments != [] && !Joined(trig, f.segments[|f.segments| - 1], f.segments[0]) then 1 else 0)
    ensures Chained(trig, f.segments) &&
      (f.closed && f.segments != [] ==> Joined(trig, f.segments[|f.segments| - 1], f.segments[0]))
      ==> Outline(trig, f) == f.segments
  {
    ConnectAddsOneLinePerGap(trig, f.segments);
    if Chained(trig, f.segments) {
      ConnectChainedUnchanged(trig, f.segments);
    }
  }
}
