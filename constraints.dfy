/** Segment-intersection geometry of the diagram canvas: `get_cross_point`
    and the edge-priority rule that `HandlesConstraint._solve_for` applies to
    the four edges of a class box. Coordinates are exact reals. */
module Constraints {
  import opened PyRuntime

  datatype Point = Point(x: real, y: real)

  /** A line segment given by its two end points, `(p1, p2)` in the source. */
  datatype Segment = Segment(p1: Point, p2: Point)

  function DX(l: Segment): real { l.p2.x - l.p1.x }
  function DY(l: Segment): real { l.p2.y - l.p1.y }

  /** The point at parameter `t` of the line through `l` (`t` in [0,1] on the segment). */
  function At(l: Segment, t: real): Point
  {
    Point(l.p1.x + t * DX(l), l.p1.y + t * DY(l))
  }

  /** `p` lies on the infinite line through `l`. */
  predicate OnLine(l: Segment, p: Point)
  {
    (p.x - l.p1.x) * DY(l) == (p.y - l.p1.y) * DX(l)
  }

  /** `p` lies on the closed segment `l`. */
  ghost predicate OnSegment(l: Segment, p: Point)
  {
    exists t :: 0.0 <= t <= 1.0 && At(l, t) == p
  }

  /** The parallel test of get_cross_point, written as the source writes it. */
  predicate Parallel(l1: Segment, l2: Segment)
  {
    var a, b, c, d := l1.p1.x, l1.p1.y, l1.p2.x, l1.p2.y;
    var e, f, g, h := l2.p1.x, l2.p1.y, l2.p2.x, l2.p2.y;
    (a - c) * (f - h) - (b - d) * (e - g) == 0.0
  }

  /** The determinant of the 2x2 system for the crossing parameters. */
  function Det(l1: Segment, l2: Segment): (r: real)
    ensures r == 0.0 <==> Parallel(l1, l2)
  {
    DX(l1) * DY(l2) - DX(l2) * DY(l1)
  }

  /** Parameter of the crossing point along `l1` (Cramer's rule). */
  function Param1(l1: Segment, l2: Segment): real
    requires !Parallel(l1, l2)
  {
    ((l2.p1.x - l1.p1.x) * DY(l2) - (l2.p1.y - l1.p1.y) * DX(l2)) / Det(l1, l2)
  }

  /** Parameter of the crossing point along `l2` (Cramer's rule). */
  function Param2(l1: Segment, l2: Segment): real
    requires !Parallel(l1, l2)
  {
    ((l2.p1.x - l1.p1.x) * DY(l1) - (l2.p1.y - l1.p1.y) * DX(l1)) / Det(l1, l2)
  }

  lemma Cancel(p: real, q: real, k: real)
    requires k != 0.0 && p * k == q * k
    ensures p == q
  {
    assert (p - q) * k == 0.0;
  }

  /** Two non-parallel lines meet exactly at the Cramer parameters. */
  lemma Crossing(l1: Segment, l2: Segment)
    requires !Parallel(l1, l2)
    ensures At(l1, Param1(l1, l2)) == At(l2, Param2(l1, l2))
  {
    var ex, ey := l2.p1.x - l1.p1.x, l2.p1.y - l1.p1.y;
    MulDiv(ex * DY(l2) - ey * DX(l2), Det(l1, l2));
    MulDiv(ex * DY(l1) - ey * DX(l1), Det(l1, l2));
    MeetAt(l1, l2, Param1(l1, l2), Param2(l1, l2));
  }

  /** Parameters solving the Cramer system name the same point on both lines. */
  lemma MeetAt(l1: Segment, l2: Segment, s: real, u: real)
    requires Det(l1, l2) != 0.0
    requires s * Det(l1, l2) == (l2.p1.x - l1.p1.x) * DY(l2) - (l2.p1.y - l1.p1.y) * DX(l2)
    requires u * Det(l1, l2) == (l2.p1.x - l1.p1.x) * DY(l1) - (l2.p1.y - l1.p1.y) * DX(l1)
    ensures At(l1, s) == At(l2, u)
  {
    CramerSolves(l2.p1.x - l1.p1.x, l2.p1.y - l1.p1.y, DX(l1), DY(l1), DX(l2), DY(l2), s, u);
  }

  /** The Cramer solution of `s * (dx1, dy1) - u * (dx2, dy2) == (ex, ey)`
      solves it. */
  lemma CramerSolves(ex: real, ey: real, dx1: real, dy1: real, dx2: real, dy2: real, s: real, u: real)
    requires dx1 * dy2 - dx2 * dy1 != 0.0
    requires s * (dx1 * dy2 - dx2 * dy1) == ex * dy2 - ey * dx2
    requires u * (dx1 * dy2 - dx2 * dy1) == ex * dy1 - ey * dx1
    ensures s * dx1 - u * dx2 == ex && s * dy1 - u * dy2 == ey
  {
    var D := dx1 * dy2 - dx2 * dy1;
    var S, U := ex * dy2 - ey * dx2, ex * dy1 - ey * dx1;
    assert (s * dx1 - u * dx2) * D == S * dx1 - U * dx2;
    assert S * dx1 - U * dx2 == ex * D;
    Cancel(s * dx1 - u * dx2, ex, D);
    assert (s * dy1 - u * dy2) * D == S * dy1 - U * dy2;
    assert S * dy1 - U * dy2 == ey * D;
    Cancel(s * dy1 - u * dy2, ey, D);
  }

  /** ... and nowhere else. */
  lemma CrossingUnique(l1: Segment, l2: Segment, t1: real, t2: real)
    requires !Parallel(l1, l2)
    requires At(l1, t1) == At(l2, t2)
    ensures t1 == Param1(l1, l2) && t2 == Param2(l1, l2)
  {
    var D := Det(l1, l2);
    var ex, ey := l2.p1.x - l1.p1.x, l2.p1.y - l1.p1.y;
    assert t1 * DX(l1) - t2 * DX(l2) == ex;
    assert t1 * DY(l1) - t2 * DY(l2) == ey;
    assert t1 * D == ex * DY(l2) - ey * DX(l2) by {
      assert t1 * D == (t1 * DX(l1) - t2 * DX(l2)) * DY(l2) - (t1 * DY(l1) - t2 * DY(l2)) * DX(l2);
    }
    assert t2 * D == ex * DY(l1) - ey * DX(l1) by {
      assert t2 * D == (t1 * DX(l1) - t2 * DX(l2)) * DY(l1) - (t1 * DY(l1) - t2 * DY(l2)) * DX(l1);
    }
    Cancel(t1, Param1(l1, l2), D);
    Cancel(t2, Param2(l1, l2), D);
  }

  lemma AtOnLine(l: Segment, t: real)
    ensures OnLine(l, At(l, t))
  {
    assert (t * DX(l)) * DY(l) == (t * DY(l)) * DX(l);
  }

  // ---------------------------------------------------------------------
  // get_cross_point as written

  /** The values get_cross_point computes for non-parallel input: the point
      `(x, y)` and the two parameters it range-checks. */
  datatype Solution = Solution(x: real, y: real, tx: real, ty: real)

  /** Lines 66-79 in their order, split at line 68 and line 75. */
  function Solve(line1: Segment, line2: Segment): Solution
    requires !Parallel(line1, line2)
  {
    var a, b, c, d := line1.p1.x, line1.p1.y, line1.p2.x, line1.p2.y;
    var e, f, g, h := line2.p1.x, line2.p1.y, line2.p2.x, line2.p2.y;
    NonParallelFacts(a, b, c, d, e, f, g, h);
    var y := CrossY(a, b, c, d, e, f, g, h);
    var (x, ty) := XAndTy(a, b, c, d, e, f, g, h, y);
    Solution(x, y, Tx(a, c, e, g, x), ty)
  }

  /** Line 66: `y` from the parametric equations. */
  function CrossY(a: real, b: real, c: real, d: real, e: real, f: real, g: real, h: real): real
    requires (c - a) * (h - f) - (g - e) * (d - b) != 0.0
  {
    (b * (c - a) * (h - f) - a * (d - b) * (h - f) - f * (g - e) * (d - b) + e * (d - b) * (h - f))
    / ((c - a) * (h - f) - (g - e) * (d - b))
  }

  /** Lines 68-73: `x` and `ty` are first set from the second segment when
      `h - f != 0` and then overwritten from the first segment when
      `d - b != 0`. Reading `.value` is where Dafny proves that the names
      are always bound; each division is checked against a zero divisor. */
  function XAndTy(a: real, b: real, c: real, d: real, e: real, f: real, g: real, h: real, y: real): (real, real)
    requires h - f != 0.0 || d - b != 0.0
  {
    var xty1: Option<(real, real)> :=
      if h - f != 0.0 then Some((e + (g - e) * (y - f) / (h - f), (y - f) / (h - f))) else None;
    var xty: Option<(real, real)> :=
      if d - b != 0.0 then Some((a + (c - a) * (y - b) / (d - b), (y - b) / (d - b))) else xty1;
    xty.value
  }

  /** Lines 75-79: `tx` is first set from the first segment when `c - a != 0`
      and then overwritten from the second when `g - e != 0`. */
  function Tx(a: real, c: real, e: real, g: real, x: real): real
    requires c - a != 0.0 || g - e != 0.0
  {
    var tx1: Option<real> := if c - a != 0.0 then Some((x - a) / (c - a)) else None;
    var tx: Option<real> := if g - e != 0.0 then Some((x - e) / (g - e)) else tx1;
    tx.value
  }

  /** The non-parallel test rules out every zero divisor pair of Solve. */
  lemma NonParallelFacts(a: real, b: real, c: real, d: real, e: real, f: real, g: real, h: real)
    requires (a - c) * (f - h) - (b - d) * (e - g) != 0.0
    ensures (c - a) * (h - f) - (g - e) * (d - b) != 0.0
    ensures h - f != 0.0 || d - b != 0.0
    ensures c - a != 0.0 || g - e != 0.0
  {
    assert (c - a) * (h - f) - (g - e) * (d - b) == (a - c) * (f - h) - (b - d) * (e - g);
  }

  /** The `y` of line 66 is the `y` of the crossing point. */
  lemma CrossingY(a: real, b: real, c: real, d: real, e: real, f: real, g: real, h: real, s: real)
    requires (c - a) * (h - f) - (g - e) * (d - b) != 0.0
    requires s * ((c - a) * (h - f) - (g - e) * (d - b)) == (e - a) * (h - f) - (f - b) * (g - e)
    ensures CrossY(a, b, c, d, e, f, g, h) == b + s * (d - b)
  {
    var D := (c - a) * (h - f) - (g - e) * (d - b);
    var S := (e - a) * (h - f) - (f - b) * (g - e);
    var numY := b * (c - a) * (h - f) - a * (d - b) * (h - f) - f * (g - e) * (d - b) + e * (d - b) * (h - f);
    assert numY == b * D + S * (d - b);
    assert (b + s * (d - b)) * D == b * D + (s * D) * (d - b);
    assert (numY / D) * D == numY;
    Cancel(numY / D, b + s * (d - b), D);
  }

  lemma MulDiv(n: real, k: real)
    requires k != 0.0
    ensures (n / k) * k == n
  {
  }

  lemma DivBack(k: real, q: real)
    requires k != 0.0
    ensures (q * k) / k == q
  {
  }

  lemma FirstSegmentTerms(a: real, b: real, c: real, d: real, y: real, s: real)
    requires d - b != 0.0 && y - b == s * (d - b)
    ensures (y - b) / (d - b) == s
    ensures a + (c - a) * (y - b) / (d - b) == a + s * (c - a)
  {
    DivBack(d - b, s);
    assert (c - a) * (y - b) == ((c - a) * s) * (d - b);
    DivBack(d - b, (c - a) * s);
  }

  lemma SecondSegmentTerms(e: real, f: real, g: real, h: real, y: real, u: real)
    requires h - f != 0.0 && y - f == u * (h - f)
    ensures (y - f) / (h - f) == u
    ensures e + (g - e) * (y - f) / (h - f) == e + u * (g - e)
  {
    DivBack(h - f, u);
    assert (g - e) * (y - f) == ((g - e) * u) * (h - f);
    DivBack(h - f, (g - e) * u);
  }

  /** Lines 68-73 on the crossing point `(a + s(c-a), b + s(d-b)) ==
      (e + u(g-e), f + u(h-f))`. */
  lemma XAndTyAtCrossing(a: real, b: real, c: real, d: real, e: real, f: real, g: real, h: real, s: real, u: real)
    requires h - f != 0.0 || d - b != 0.0
    requires a + s * (c - a) == e + u * (g - e) && b + s * (d - b) == f + u * (h - f)
    ensures XAndTy(a, b, c, d, e, f, g, h, b + s * (d - b)) == (a + s * (c - a), if d - b != 0.0 then s else u)
  {
    var y := b + s * (d - b);
    if d - b != 0.0 {
      FirstSegmentTerms(a, b, c, d, y, s);
    } else {
      SecondSegmentTerms(e, f, g, h, y, u);
    }
  }

  /** Lines 75-79 on the crossing point. */
  lemma TxAtCrossing(a: real, c: real, e: real, g: real, s: real, u: real)
    requires c - a != 0.0 || g - e != 0.0
    requires a + s * (c - a) == e + u * (g - e)
    ensures Tx(a, c, e, g, a + s * (c - a)) == if g - e != 0.0 then u else s
  {
    if g - e != 0.0 {
      DivBack(g - e, u);
    } else {
      DivBack(c - a, s);
    }
  }

  /** What Solve computes: the true crossing point, with `ty` the parameter
      along the first segment unless that segment is horizontal, and `tx` the
      parameter along the second segment unless that segment is vertical. */
  lemma {:induction false} SolveCharacterized(l1: Segment, l2: Segment)
    requires !Parallel(l1, l2)
    ensures Point(Solve(l1, l2).x, Solve(l1, l2).y) == At(l1, Param1(l1, l2))
    ensures Solve(l1, l2).ty == if DY(l1) != 0.0 then Param1(l1, l2) else Param2(l1, l2)
    ensures Solve(l1, l2).tx == if DX(l2) != 0.0 then Param2(l1, l2) else Param1(l1, l2)
  {
    Crossing(l1, l2);
    SolveAtParams(l1, l2, Param1(l1, l2), Param2(l1, l2));
  }

  /** Solve at any pair of parameters where the two lines meet. */
  lemma SolveAtParams(l1: Segment, l2: Segment, s: real, u: real)
    requires !Parallel(l1, l2)
    requires At(l1, s) == At(l2, u)
    ensures Solve(l1, l2) == Solution(At(l1, s).x, At(l1, s).y, if DX(l2) != 0.0 then u else s, if DY(l1) != 0.0 then s else u)
  {
    var a, b, c, d := l1.p1.x, l1.p1.y, l1.p2.x, l1.p2.y;
    var e, f, g, h := l2.p1.x, l2.p1.y, l2.p2.x, l2.p2.y;
    NonParallelFacts(a, b, c, d, e, f, g, h);
    var x, y := At(l1, s).x, At(l1, s).y;
    var tx, ty := if DX(l2) != 0.0 then u else s, if DY(l1) != 0.0 then s else u;
    assert x == a + s * (c - a) == e + u * (g - e) && y == b + s * (d - b) == f + u * (h - f);
    CramerFirst(a, b, c, d, e, f, g, h, s, u);
    CrossingY(a, b, c, d, e, f, g, h, s);
    XAndTyAtCrossing(a, b, c, d, e, f, g, h, s, u);
    TxAtCrossing(a, c, e, g, s, u);
    SolveFromParts(l1, l2, x, y, tx, ty);
  }

  /** Solve assembled from the values of its three steps. */
  lemma SolveFromParts(l1: Segment, l2: Segment, x: real, y: real, tx: real, ty: real)
    requires !Parallel(l1, l2)
    requires CrossY(l1.p1.x, l1.p1.y, l1.p2.x, l1.p2.y, l2.p1.x, l2.p1.y, l2.p2.x, l2.p2.y) == y
    requires l2.p2.y - l2.p1.y != 0.0 || l1.p2.y - l1.p1.y != 0.0
    requires XAndTy(l1.p1.x, l1.p1.y, l1.p2.x, l1.p2.y, l2.p1.x, l2.p1.y, l2.p2.x, l2.p2.y, y) == (x, ty)
    requires l1.p2.x - l1.p1.x != 0.0 || l2.p2.x - l2.p1.x != 0.0
    requires Tx(l1.p1.x, l1.p2.x, l2.p1.x, l2.p2.x, x) == tx
    ensures Solve(l1, l2) == Solution(x, y, tx, ty)
  {
  }

  /** Eliminating `u` from the two coordinate equations of a crossing. */
  lemma CramerFirst(a: real, b: real, c: real, d: real, e: real, f: real, g: real, h: real, s: real, u: real)
    requires a + s * (c - a) == e + u * (g - e) && b + s * (d - b) == f + u * (h - f)
    ensures s * ((c - a) * (h - f) - (g - e) * (d - b)) == (e - a) * (h - f) - (f - b) * (g - e)
  {
    assert s * ((c - a) * (h - f) - (g - e) * (d - b))
        == (s * (c - a) - u * (g - e)) * (h - f) - (s * (d - b) - u * (h - f)) * (g - e);
  }

  /** get_cross_point(line1, line2): `None` for parallel input or when `tx`
      or `ty` falls outside the closed interval [0,1], else the point `(x, y)`,
      which lies on both infinite lines. */
  function CrossPoint(line1: Segment, line2: Segment): (r: Option<Point>)
    ensures Parallel(line1, line2) ==> r == None
    ensures !Parallel(line1, line2) ==>
              (r.Some? <==> 0.0 <= Solve(line1, line2).tx <= 1.0 && 0.0 <= Solve(line1, line2).ty <= 1.0)
    ensures r.Some? ==> OnLine(line1, r.value) && OnLine(line2, r.value)
  {
    if Parallel(line1, line2) then None
    else
      var s := Solve(line1, line2);
      if !(0.0 <= s.tx <= 1.0) then None
      else if !(0.0 <= s.ty <= 1.0) then None
      else
        SolveCharacterized(line1, line2);
        Crossing(line1, line2);
        AtOnLine(line1, Param1(line1, line2));
        AtOnLine(line2, Param2(line1, line2));
        Some(Point(s.x, s.y))
  }

  /** A segment whose end points coincide is parallel to everything. */
  lemma DegenerateSegmentNoCross(line1: Segment, line2: Segment)
    requires line1.p1 == line1.p2 || line2.p1 == line2.p2
    ensures CrossPoint(line1, line2) == None
  {
  }

  /** Where the range checks are sound: when the first segment is sloped or
      vertical and the second is sloped or horizontal (both parameters then
      belong to their own segments), or when the first is horizontal and the
      second vertical, get_cross_point is the true segment intersection. */
  lemma {:induction false} CrossPointSoundWhenSplit(l1: Segment, l2: Segment)
    requires (DY(l1) != 0.0) == (DX(l2) != 0.0)
    ensures CrossPoint(l1, l2) == SegmentCrossPoint(l1, l2)
  {
    if !Parallel(l1, l2) {
      SolveCharacterized(l1, l2);
    }
  }

  /** Finding, as written: with a sloped first segment and a vertical second
      one both checked parameters belong to the first segment, so a crossing
      of the lines that misses the second segment is still returned. The
      diagonal from (0,0) to (1,1) and the vertical segment from (0.5,5) to
      (0.5,6) make the example. */
  lemma CrossPointAcceptsPointOffSegment(l1: Segment, l2: Segment)
    requires l1 == Segment(Point(0.0, 0.0), Point(1.0, 1.0))
    requires l2 == Segment(Point(0.5, 5.0), Point(0.5, 6.0))
    ensures CrossPoint(l1, l2) == Some(Point(0.5, 0.5))
    ensures !OnSegment(l2, Point(0.5, 0.5))
  {
    ExampleParams(l1, l2, 1.0, 0.5, -4.5);
    CrossPointVerticalSecond(l1, l2);
    NotOnVertical(l2, Point(0.5, 0.5));
  }

  /** The corrected intersection rejects the same pair. */
  lemma SegmentCrossPointRejectsOffSegment(l1: Segment, l2: Segment)
    requires l1 == Segment(Point(0.0, 0.0), Point(1.0, 1.0))
    requires l2 == Segment(Point(0.5, 5.0), Point(0.5, 6.0))
    ensures SegmentCrossPoint(l1, l2) == None
  {
    ExampleParams(l1, l2, 1.0, 0.5, -4.5);
  }

  /** A sloped or vertical first segment against a vertical second one:
      get_cross_point checks only the parameter along the first segment. */
  lemma {:induction false} CrossPointVerticalSecond(l1: Segment, l2: Segment)
    requires !Parallel(l1, l2) && DY(l1) != 0.0 && DX(l2) == 0.0
    ensures CrossPoint(l1, l2) == if 0.0 <= Param1(l1, l2) <= 1.0 then Some(At(l1, Param1(l1, l2))) else None
  {
    SolveCharacterized(l1, l2);
  }

  /** The Cramer parameters of a concrete pair of segments. */
  lemma ExampleParams(l1: Segment, l2: Segment, det: real, s: real, u: real)
    requires det != 0.0 && Det(l1, l2) == det
    requires s * det == (l2.p1.x - l1.p1.x) * DY(l2) - (l2.p1.y - l1.p1.y) * DX(l2)
    requires u * det == (l2.p1.x - l1.p1.x) * DY(l1) - (l2.p1.y - l1.p1.y) * DX(l1)
    ensures !Parallel(l1, l2) && Param1(l1, l2) == s && Param2(l1, l2) == u
  {
    DivBack(det, s);
    DivBack(det, u);
  }

  /** A point below the lower end of an upward segment is not on it. */
  lemma NotOnVertical(l: Segment, p: Point)
    requires DY(l) > 0.0 && p.y < l.p1.y
    ensures !OnSegment(l, p)
  {
    forall t | 0.0 <= t <= 1.0 ensures At(l, t) != p {
      assert t * DY(l) >= 0.0;
    }
  }

  /** A point right of the right end of a rightward segment is not on it. */
  lemma NotOnHorizontal(l: Segment, p: Point)
    requires DX(l) > 0.0 && p.x > l.p2.x
    ensures !OnSegment(l, p)
  {
    forall t | 0.0 <= t <= 1.0 ensures At(l, t) != p {
      assert t * DX(l) <= DX(l);
    }
  }

  /** Finding, the other way round: a horizontal first segment and a sloped
      second one make both parameters the second segment's, so the crossing
      at (5.5,0), far right of the segment from (0,0) to (1,0), is returned. */
  lemma CrossPointAcceptsPointOffFirstSegment()
    ensures CrossPoint(Segment(Point(0.0, 0.0), Point(1.0, 0.0)), Segment(Point(5.0, -1.0), Point(6.0, 1.0)))
            == Some(Point(5.5, 0.0))
    ensures !OnSegment(Segment(Point(0.0, 0.0), Point(1.0, 0.0)), Point(5.5, 0.0))
  {
    var l1 := Segment(Point(0.0, 0.0), Point(1.0, 0.0));
    var l2 := Segment(Point(5.0, -1.0), Point(6.0, 1.0));
    assert At(l1, 5.5) == Point(5.5, 0.0);
    ExampleParams(l1, l2, 2.0, 5.5, 0.5);
    CrossPointHorizontalFirst(l1, l2);
    NotOnHorizontal(l1, Point(5.5, 0.0));
  }

  /** A horizontal first segment against a sloped or horizontal second one:
      get_cross_point checks only the parameter along the second segment. */
  lemma {:induction false} CrossPointHorizontalFirst(l1: Segment, l2: Segment)
    requires !Parallel(l1, l2) && DY(l1) == 0.0 && DX(l2) != 0.0
    ensures CrossPoint(l1, l2) == if 0.0 <= Param2(l1, l2) <= 1.0 then Some(At(l1, Param1(l1, l2))) else None
  {
    SolveCharacterized(l1, l2);
  }

  // ---------------------------------------------------------------------
  // The intended segment intersection

  /** The cross point of two line segments, as the docstring promises: both
      parameters are the Cramer parameters of their own segments. */
  function SegmentCrossPoint(l1: Segment, l2: Segment): (r: Option<Point>)
    ensures Parallel(l1, l2) ==> r == None
    ensures r.Some? ==> OnSegment(l1, r.value) && OnSegment(l2, r.value)
    ensures forall p :: !Parallel(l1, l2) && OnSegment(l1, p) && OnSegment(l2, p) ==> r == Some(p)
  {
    if Parallel(l1, l2) then None
    else
      var s, u := Param1(l1, l2), Param2(l1, l2);
      Crossing(l1, l2);
      CrossingAll(l1, l2);
      if 0.0 <= s <= 1.0 && 0.0 <= u <= 1.0 then Some(At(l1, s)) else None
  }

  lemma CrossingAll(l1: Segment, l2: Segment)
    requires !Parallel(l1, l2)
    ensures forall p :: OnSegment(l1, p) && OnSegment(l2, p) ==>
              p == At(l1, Param1(l1, l2)) && 0.0 <= Param1(l1, l2) <= 1.0 && 0.0 <= Param2(l1, l2) <= 1.0
  {
    forall p | OnSegment(l1, p) && OnSegment(l2, p)
      ensures p == At(l1, Param1(l1, l2)) && 0.0 <= Param1(l1, l2) <= 1.0 && 0.0 <= Param2(l1, l2) <= 1.0
    {
      var t1 :| 0.0 <= t1 <= 1.0 && At(l1, t1) == p;
      var t2 :| 0.0 <= t2 <= 1.0 && At(l2, t2) == p;
      CrossingUnique(l1, l2, t1, t2);
    }
  }

  // ---------------------------------------------------------------------
  // HandlesConstraint._solve_for: the first edge of a box the centre line hits

  /** Python's `p or q` on two results of get_cross_point: a returned tuple
      is never empty, so it is true whatever its coordinates are. */
  function OrElse(p: Option<Point>, q: Option<Point>): (r: Option<Point>)
    ensures r.Some? <==> p.Some? || q.Some?
    ensures p.Some? ==> r == p
    ensures p.None? ==> r == q
  {
    if p.Some? then p else q
  }

  /** The point of `_solve_for` for a box with corners `nw`, `ne`, `sw`, `se`:
      the top edge, then the bottom, the left and the right edge, each from
      the corner named first in the source. */
  function FirstHit(centre: Segment, nw: Point, ne: Point, sw: Point, se: Point): Option<Point>
  {
    OrElse(CrossPoint(centre, Segment(ne, nw)),
      OrElse(CrossPoint(centre, Segment(se, sw)),
        OrElse(CrossPoint(centre, Segment(sw, nw)),
          CrossPoint(centre, Segment(ne, se)))))
  }

  /** The same edge order over the true segment intersection. */
  function FirstHitCorrected(centre: Segment, nw: Point, ne: Point, sw: Point, se: Point): (r: Option<Point>)
    ensures r.Some? ==> OnSegment(centre, r.value)
    ensures r.Some? ==> OnSegment(Segment(ne, nw), r.value) || OnSegment(Segment(se, sw), r.value)
                        || OnSegment(Segment(sw, nw), r.value) || OnSegment(Segment(ne, se), r.value)
  {
    OrElse(SegmentCrossPoint(centre, Segment(ne, nw)),
      OrElse(SegmentCrossPoint(centre, Segment(se, sw)),
        OrElse(SegmentCrossPoint(centre, Segment(sw, nw)),
          SegmentCrossPoint(centre, Segment(ne, se)))))
  }

  /** The corners of an axis-aligned box with positive width and height, in
      canvas coordinates (y grows downwards). */
  predicate IsBox(nw: Point, ne: Point, sw: Point, se: Point)
  {
    nw.y == ne.y && sw.y == se.y && nw.x == sw.x && ne.x == se.x
    && nw.x < ne.x && nw.y < sw.y
  }

  /** `p` lies strictly inside the box. */
  predicate Inside(p: Point, nw: Point, se: Point)
  {
    nw.x < p.x < se.x && nw.y < p.y < se.y
  }

  /** A horizontal edge drawn from right to left agrees with the true
      intersection: either the lines are parallel or the range checks are
      the right ones. */
  lemma HorizontalEdgeAgrees(c: Segment, e: Segment)
    requires DY(e) == 0.0 && DX(e) != 0.0
    ensures CrossPoint(c, e) == SegmentCrossPoint(c, e)
  {
    if DY(c) != 0.0 {
      CrossPointSoundWhenSplit(c, e);
    } else {
      assert Parallel(c, e);
    }
  }

  /** `m` lies between `s0` and `s` when the linear map `k` sends it between
      their images. */
  lemma BetweenParams(s0: real, s: real, m: real, k: real, v0: real, v: real, w: real)
    requires (s0 - m) * k == v0 - w && (m - s) * k == w - v
    requires v < w < v0
    ensures (s <= m <= s0) || (s0 <= m <= s)
  {
    if k > 0.0 {
      assert s0 - m > 0.0 && m - s > 0.0;
    } else {
      assert k != 0.0;
      assert s0 - m < 0.0 && m - s < 0.0;
    }
  }

  /** A linear map keeps a parameter between two others between their images. */
  lemma BetweenImages(s0: real, s: real, m: real, k: real)
    requires (s <= m <= s0) || (s0 <= m <= s)
    ensures (s * k <= m * k <= s0 * k) || (s0 * k <= m * k <= s * k)
  {
    if k >= 0.0 {
      if s <= m <= s0 {
        assert (m - s) * k >= 0.0 && (s0 - m) * k >= 0.0;
      } else {
        assert (m - s0) * k >= 0.0 && (s - m) * k >= 0.0;
      }
    } else {
      if s <= m <= s0 {
        assert (m - s) * k <= 0.0 && (s0 - m) * k <= 0.0;
      } else {
        assert (m - s0) * k <= 0.0 && (s - m) * k <= 0.0;
      }
    }
  }

  /** A segment of the centre line that starts below the height `y0` of a
      horizontal edge and ends above it, both ends within the edge's width,
      crosses the edge. */
  lemma HorizontalEdgeHit(c: Segment, s0: real, s: real, y0: real, left: real, right: real)
    requires 0.0 <= s0 <= 1.0 && 0.0 <= s <= 1.0 && left < right
    requires left <= At(c, s0).x <= right && left <= At(c, s).x <= right
    requires (At(c, s).y < y0 < At(c, s0).y) || (At(c, s0).y < y0 < At(c, s).y)
    ensures SegmentCrossPoint(c, Segment(Point(right, y0), Point(left, y0))).Some?
  {
    var m := LevelCrossing(c, s0, s, y0, left, right);
    HorizontalEdgeAt(c, m, y0, left, right);
  }

  /** A centre line that is not horizontal and passes through a point of a
      horizontal edge crosses that edge. */
  lemma HorizontalEdgeAt(c: Segment, m: real, y0: real, left: real, right: real)
    requires left < right && 0.0 <= m <= 1.0 && DY(c) != 0.0
    requires At(c, m).y == y0 && left <= At(c, m).x <= right
    ensures SegmentCrossPoint(c, Segment(Point(right, y0), Point(left, y0))).Some?
  {
    var e := Segment(Point(right, y0), Point(left, y0));
    var p := At(c, m);
    OnHorizontalEdge(p, y0, left, right);
    assert OnSegment(c, p);
    assert !Parallel(c, e) by {
      assert Det(c, e) == -(DX(e) * DY(c));
      assert DX(e) * DY(c) != 0.0;
    }
  }

  /** A centre line that is not vertical and passes through a point of a
      vertical edge, drawn either way, crosses that edge. */
  lemma VerticalEdgeAt(c: Segment, m: real, x0: real, ya: real, yb: real)
    requires ya != yb && 0.0 <= m <= 1.0 && DX(c) != 0.0
    requires At(c, m).x == x0 && Min(ya, yb) <= At(c, m).y <= Max(ya, yb)
    ensures SegmentCrossPoint(c, Segment(Point(x0, ya), Point(x0, yb))).Some?
  {
    var e := Segment(Point(x0, ya), Point(x0, yb));
    var p := At(c, m);
    OnVerticalEdge(p, x0, ya, yb);
    assert OnSegment(c, p);
    assert !Parallel(c, e) by {
      assert Det(c, e) == DX(c) * DY(e);
      assert DX(c) * DY(e) != 0.0;
    }
  }

  /** A point at abscissa `x0` between `ya` and `yb` is on the edge drawn
      from `(x0, ya)` to `(x0, yb)`. */
  lemma OnVerticalEdge(p: Point, x0: real, ya: real, yb: real)
    requires ya != yb && p.x == x0 && Min(ya, yb) <= p.y <= Max(ya, yb)
    ensures OnSegment(Segment(Point(x0, ya), Point(x0, yb)), p)
  {
    var e := Segment(Point(x0, ya), Point(x0, yb));
    var w, d := yb - ya, p.y - ya;
    var u := d / w;
    if w > 0.0 {
      UnitFromScaled(u, w, d);
    } else {
      assert u * -w == -d;
      UnitFromScaled(u, -w, -d);
    }
    assert At(e, u) == p by {
      assert At(e, u).y == ya + u * w;
    }
  }

  /** A segment of the centre line that starts left of the abscissa `x0` of
      a vertical edge and ends right of it, or the other way round, both
      ends within the edge's height, crosses the edge. */
  lemma VerticalEdgeHit(c: Segment, s0: real, s: real, x0: real, ya: real, yb: real)
    requires 0.0 <= s0 <= 1.0 && 0.0 <= s <= 1.0 && ya != yb
    requires Min(ya, yb) <= At(c, s0).y <= Max(ya, yb) && Min(ya, yb) <= At(c, s).y <= Max(ya, yb)
    requires (At(c, s).x < x0 < At(c, s0).x) || (At(c, s0).x < x0 < At(c, s).x)
    ensures SegmentCrossPoint(c, Segment(Point(x0, ya), Point(x0, yb))).Some?
  {
    var m := SideCrossing(c, s0, s, x0, Min(ya, yb), Max(ya, yb));
    VerticalEdgeAt(c, m, x0, ya, yb);
  }

  /** The parameter where the centre line reaches abscissa `x0`, between
      two parameters on either side of it. */
  lemma SideCrossing(c: Segment, s0: real, s: real, x0: real, lo: real, hi: real) returns (m: real)
    requires 0.0 <= s0 <= 1.0 && 0.0 <= s <= 1.0
    requires lo <= At(c, s0).y <= hi && lo <= At(c, s).y <= hi
    requires (At(c, s).x < x0 < At(c, s0).x) || (At(c, s0).x < x0 < At(c, s).x)
    ensures 0.0 <= m <= 1.0 && At(c, m).x == x0 && lo <= At(c, m).y <= hi
    ensures DX(c) != 0.0
  {
    m := LevelScalar(c.p1.y, DY(c), c.p1.x, DX(c), s0, s, x0, lo, hi);
  }

  /** The closed box: its interior and its edges. */
  predicate InBox(p: Point, nw: Point, se: Point)
  {
    nw.x <= p.x <= se.x && nw.y <= p.y <= se.y
  }

  /** Completeness of the corrected edge search: a piece of the centre line
      that runs from strictly inside the box to outside the closed box
      crosses one of its four edges. */
  lemma FirstHitCorrectedFinds(centre: Segment, s0: real, s1: real, nw: Point, ne: Point, sw: Point, se: Point)
    requires IsBox(nw, ne, sw, se)
    requires 0.0 <= s0 <= 1.0 && Inside(At(centre, s0), nw, se)
    requires 0.0 <= s1 <= 1.0 && !InBox(At(centre, s1), nw, se)
    ensures FirstHitCorrected(centre, nw, ne, sw, se).Some?
  {
    var l, r, t, b := nw.x, ne.x, nw.y, sw.y;
    assert Segment(ne, nw) == Segment(Point(r, t), Point(l, t));
    assert Segment(se, sw) == Segment(Point(r, b), Point(l, b));
    assert Segment(sw, nw) == Segment(Point(l, b), Point(l, t));
    assert Segment(ne, se) == Segment(Point(r, t), Point(r, b));
    EdgeCrossed(centre, s0, s1, l, r, t, b);
  }

  /** The edge-by-edge form of FirstHitCorrectedFinds, for the box with
      left `l`, right `r`, top `t` and bottom `b`. */
  lemma EdgeCrossed(c: Segment, s0: real, s1: real, l: real, r: real, t: real, b: real)
    requires l < r && t < b
    requires 0.0 <= s0 <= 1.0 && Inside(At(c, s0), Point(l, t), Point(r, b))
    requires 0.0 <= s1 <= 1.0 && !InBox(At(c, s1), Point(l, t), Point(r, b))
    ensures || SegmentCrossPoint(c, Segment(Point(r, t), Point(l, t))).Some?
            || SegmentCrossPoint(c, Segment(Point(r, b), Point(l, b))).Some?
            || SegmentCrossPoint(c, Segment(Point(l, b), Point(l, t))).Some?
            || SegmentCrossPoint(c, Segment(Point(r, t), Point(r, b))).Some?
  {
    var p1 := At(c, s1);
    var level := if p1.y < t then t else b;
    var side := if p1.x < l then l else r;
    // the left edge is drawn upwards, the right one downwards
    var ya, yb := if side == l then b else t, if side == l then t else b;
    assert Min(ya, yb) == t && Max(ya, yb) == b;
    if l <= p1.x <= r {
      HorizontalEdgeHit(c, s0, s1, level, l, r);
    } else if t <= p1.y <= b {
      VerticalEdgeHit(c, s0, s1, side, ya, yb);
    } else {
      CornerCrossed(c, s0, s1, l, r, t, b, level, side, ya, yb);
    }
  }

  /** EdgeCrossed when the far end is beyond both a horizontal and a
      vertical line of the box. */
  lemma CornerCrossed(c: Segment, s0: real, s1: real, l: real, r: real, t: real, b: real, level: real, side: real,
                      ya: real, yb: real)
    requires l < r && t < b && (level == t || level == b) && (side == l || side == r)
    requires (ya == t && yb == b) || (ya == b && yb == t)
    requires 0.0 <= s0 <= 1.0 && Inside(At(c, s0), Point(l, t), Point(r, b))
    requires 0.0 <= s1 <= 1.0
    requires (At(c, s1).y < level == t) || (b == level < At(c, s1).y)
    requires (At(c, s1).x < side == l) || (r == side < At(c, s1).x)
    ensures SegmentCrossPoint(c, Segment(Point(r, level), Point(l, level))).Some?
            || SegmentCrossPoint(c, Segment(Point(side, ya), Point(side, yb))).Some?
  {
    var m, horizontal := CornerCrossing(c, s0, s1, l, r, t, b, level, side);
    if horizontal {
      HorizontalEdgeAt(c, m, level, l, r);
    } else {
      assert Min(ya, yb) == t && Max(ya, yb) == b;
      VerticalEdgeAt(c, m, side, ya, yb);
    }
  }

  /** CornerParam on the centre line `c`. */
  lemma CornerCrossing(c: Segment, s0: real, s1: real, l: real, r: real, t: real, b: real, level: real, side: real)
      returns (m: real, horizontal: bool)
    requires l < r && t < b && (level == t || level == b) && (side == l || side == r)
    requires 0.0 <= s0 <= 1.0 && Inside(At(c, s0), Point(l, t), Point(r, b))
    requires 0.0 <= s1 <= 1.0
    requires (At(c, s1).y < level == t) || (b == level < At(c, s1).y)
    requires (At(c, s1).x < side == l) || (r == side < At(c, s1).x)
    ensures 0.0 <= m <= 1.0
    ensures horizontal ==> DY(c) != 0.0 && At(c, m).y == level && l <= At(c, m).x <= r
    ensures !horizontal ==> DX(c) != 0.0 && At(c, m).x == side && t <= At(c, m).y <= b
  {
    m, horizontal := CornerParam(c.p1.x, DX(c), c.p1.y, DY(c), s0, s1, l, r, t, b, level, side);
  }

  /** The centre line `(cx + s * kx, cy + s * ky)` leaves the box towards a
      corner region: it reaches the horizontal edge at height `level` or the
      vertical edge at abscissa `side`, whichever line it meets first. */
  lemma CornerParam(cx: real, kx: real, cy: real, ky: real, s0: real, s1: real,
                    l: real, r: real, t: real, b: real, level: real, side: real)
      returns (m: real, horizontal: bool)
    requires l < r && t < b && (level == t || level == b) && (side == l || side == r)
    requires 0.0 <= s0 <= 1.0 && l < cx + s0 * kx < r && t < cy + s0 * ky < b
    requires 0.0 <= s1 <= 1.0
    requires (cy + s1 * ky < level == t) || (b == level < cy + s1 * ky)
    requires (cx + s1 * kx < side == l) || (r == side < cx + s1 * kx)
    ensures 0.0 <= m <= 1.0
    ensures horizontal ==> ky != 0.0 && cy + m * ky == level && l <= cx + m * kx <= r
    ensures !horizontal ==> kx != 0.0 && cx + m * kx == side && t <= cy + m * ky <= b
  {
    var mv := LevelParam(cy, ky, s0, s1, level);
    var mh := LevelParam(cx, kx, s0, s1, side);
    if (s0 <= s1 && mv <= mh) || (s1 <= s0 && mh <= mv) {
      FirstAtLevel(cx, kx, s0, mh, mv, l, r, side);
      m, horizontal := mv, true;
    } else {
      FirstAtLevel(cy, ky, s0, mv, mh, t, b, level);
      m, horizontal := mh, false;
    }
  }

  /** A coordinate `base + s * k` strictly between `lo` and `hi` at `s0`
      that reaches the bound `bound` at `m` stays within [lo, hi] at any
      parameter `n` between `s0` and `m`. */
  lemma FirstAtLevel(base: real, k: real, s0: real, m: real, n: real, lo: real, hi: real, bound: real)
    requires (s0 <= n <= m) || (m <= n <= s0)
    requires lo < base + s0 * k < hi && (bound == lo || bound == hi) && base + m * k == bound
    ensures lo <= base + n * k <= hi
  {
    LinearBetween(base, k, s0, m, n);
    assert (base + m * k <= base + n * k <= base + s0 * k) || (base + s0 * k <= base + n * k <= base + m * k);
  }

  /** The parameter where the centre line reaches height `y0`, between two
      parameters on either side of that height. */
  lemma LevelCrossing(c: Segment, s0: real, s: real, y0: real, left: real, right: real) returns (m: real)
    requires 0.0 <= s0 <= 1.0 && 0.0 <= s <= 1.0
    requires left <= At(c, s0).x <= right && left <= At(c, s).x <= right
    requires (At(c, s).y < y0 < At(c, s0).y) || (At(c, s0).y < y0 < At(c, s).y)
    ensures 0.0 <= m <= 1.0 && At(c, m).y == y0 && left <= At(c, m).x <= right
    ensures DY(c) != 0.0
  {
    m := LevelScalar(c.p1.x, DX(c), c.p1.y, DY(c), s0, s, y0, left, right);
  }

  /** LevelCrossing on the coordinates `cx + t * kx`, `cy + t * ky`. */
  lemma LevelScalar(cx: real, kx: real, cy: real, ky: real, s0: real, s: real, y0: real, left: real, right: real)
      returns (m: real)
    requires 0.0 <= s0 <= 1.0 && 0.0 <= s <= 1.0
    requires left <= cx + s0 * kx <= right && left <= cx + s * kx <= right
    requires (cy + s * ky < y0 < cy + s0 * ky) || (cy + s0 * ky < y0 < cy + s * ky)
    ensures 0.0 <= m <= 1.0 && cy + m * ky == y0 && left <= cx + m * kx <= right
    ensures ky != 0.0
  {
    m := LevelParam(cy, ky, s0, s, y0);
    LinearBetween(cx, kx, s0, s, m);
    var x0, x1, xm := cx + s0 * kx, cx + s * kx, cx + m * kx;
    assert (x1 <= xm <= x0) || (x0 <= xm <= x1);
  }

  /** The parameter at which `y = base + t * k` reaches a level strictly
      between its values at `s0` and `s`. */
  lemma LevelParam(base: real, k: real, s0: real, s: real, y0: real) returns (m: real)
    requires (base + s * k < y0 < base + s0 * k) || (base + s0 * k < y0 < base + s * k)
    ensures k != 0.0 && base + m * k == y0
    ensures (s <= m <= s0) || (s0 <= m <= s)
  {
    assert k != 0.0;
    m := (y0 - base) / k;
    assert m * k == y0 - base;
    if base + s * k < y0 {
      BetweenParams(s0, s, m, k, base + s0 * k, base + s * k, y0);
    } else {
      BetweenParams(s, s0, m, k, base + s * k, base + s0 * k, y0);
    }
  }

  /** A linear function at a parameter between two others takes a value
      between its values there. */
  lemma LinearBetween(base: real, k: real, s0: real, s: real, m: real)
    requires (s <= m <= s0) || (s0 <= m <= s)
    ensures (base + s * k <= base + m * k <= base + s0 * k) || (base + s0 * k <= base + m * k <= base + s * k)
  {
    BetweenImages(s0, s, m, k);
  }

  /** `u` is in [0,1] when `u * w` is `d` in [0,w] for a positive `w`. */
  lemma UnitFromScaled(u: real, w: real, d: real)
    requires w > 0.0 && u * w == d && 0.0 <= d <= w
    ensures 0.0 <= u <= 1.0
  {
  }

  /** A point at height `y0` between `left` and `right` is on the edge drawn
      from `(right, y0)` to `(left, y0)`. */
  lemma OnHorizontalEdge(p: Point, y0: real, left: real, right: real)
    requires left < right && p.y == y0 && left <= p.x <= right
    ensures OnSegment(Segment(Point(right, y0), Point(left, y0)), p)
  {
    var e := Segment(Point(right, y0), Point(left, y0));
    var w, d := right - left, right - p.x;
    var u := d / w;
    UnitFromScaled(u, w, d);
    assert At(e, u) == p by {
      assert At(e, u).x == right - u * w;
    }
  }

  /** Side edges: a vertical edge from `(x0, ya)` to `(x0, yb)` against a
      centre line with one end inside the box. get_cross_point accepts the
      crossing with the vertical line through the edge; when that crossing
      is off the edge, the centre line crosses the top or the bottom edge. */
  lemma VerticalEdgeAgrees(c: Segment, s0: real, x0: real, ya: real, yb: real, other: real, t: real, b: real)
    requires t < b && ((ya == t && yb == b) || (ya == b && yb == t))
    requires (other < x0) || (x0 < other)
    requires 0.0 <= s0 <= 1.0 && Inside(At(c, s0), Point(Min(x0, other), t), Point(Max(x0, other), b))
    requires SegmentCrossPoint(c, Segment(Point(Max(x0, other), t), Point(Min(x0, other), t))).None?
    requires SegmentCrossPoint(c, Segment(Point(Max(x0, other), b), Point(Min(x0, other), b))).None?
    ensures CrossPoint(c, Segment(Point(x0, ya), Point(x0, yb))) == SegmentCrossPoint(c, Segment(Point(x0, ya), Point(x0, yb)))
  {
    var e := Segment(Point(x0, ya), Point(x0, yb));
    if DY(c) == 0.0 {
      CrossPointSoundWhenSplit(c, e);
    } else if !Parallel(c, e) {
      CrossPointVerticalSecond(c, e);
      if 0.0 <= Param1(c, e) <= 1.0 && !(0.0 <= Param2(c, e) <= 1.0) {
        OffEdgeCrossing(c, s0, x0, ya, yb, other, t, b);
      }
    }
  }

  /** The case of VerticalEdgeAgrees where the two functions would differ:
      the centre segment meets the vertical line beyond the edge, and so
      crosses the top or the bottom edge. */
  lemma OffEdgeCrossing(c: Segment, s0: real, x0: real, ya: real, yb: real, other: real, t: real, b: real)
    requires t < b && ((ya == t && yb == b) || (ya == b && yb == t))
    requires (other < x0) || (x0 < other)
    requires 0.0 <= s0 <= 1.0 && Inside(At(c, s0), Point(Min(x0, other), t), Point(Max(x0, other), b))
    requires !Parallel(c, Segment(Point(x0, ya), Point(x0, yb)))
    requires 0.0 <= Param1(c, Segment(Point(x0, ya), Point(x0, yb))) <= 1.0
    requires !(0.0 <= Param2(c, Segment(Point(x0, ya), Point(x0, yb))) <= 1.0)
    ensures SegmentCrossPoint(c, Segment(Point(Max(x0, other), t), Point(Min(x0, other), t))).Some?
            || SegmentCrossPoint(c, Segment(Point(Max(x0, other), b), Point(Min(x0, other), b))).Some?
  {
    var e := Segment(Point(x0, ya), Point(x0, yb));
    var s, u := Param1(c, e), Param2(c, e);
    Crossing(c, e);
    var q := At(c, s);
    assert q == At(e, u);
    OutsideSpan(ya, yb, t, b, u, q.y);
    var lo, hi := Min(x0, other), Max(x0, other);
    if q.y < t {
      HorizontalEdgeHit(c, s0, s, t, lo, hi);
    } else {
      HorizontalEdgeHit(c, s0, s, b, lo, hi);
    }
  }

  /** A parameter outside [0,1] along a vertical span from `ya` to `yb` lands
      above its top or below its bottom. */
  lemma OutsideSpan(ya: real, yb: real, t: real, b: real, u: real, y: real)
    requires t < b && ((ya == t && yb == b) || (ya == b && yb == t))
    requires y == ya + u * (yb - ya) && !(0.0 <= u <= 1.0)
    ensures y < t || y > b
  {
    if u < 0.0 {
      if ya == t {
        assert u * (yb - ya) < 0.0;
      } else {
        assert u * (yb - ya) > 0.0;
      }
    } else {
      assert y - yb == (u - 1.0) * (yb - ya);
      if yb == t {
        assert (u - 1.0) * (yb - ya) < 0.0;
      } else {
        assert (u - 1.0) * (yb - ya) > 0.0;
      }
    }
  }

  function Min(x: real, y: real): real { if x <= y then x else y }
  function Max(x: real, y: real): real { if x <= y then y else x }

  /** The partial range checks of get_cross_point do no harm in `_solve_for`:
      for a centre line with one end strictly inside the box, the as-written
      edge search returns exactly the true first crossing. */
  lemma FirstHitAgrees(centre: Segment, s0: real, nw: Point, ne: Point, sw: Point, se: Point)
    requires IsBox(nw, ne, sw, se)
    requires 0.0 <= s0 <= 1.0 && Inside(At(centre, s0), nw, se)
    ensures FirstHit(centre, nw, ne, sw, se) == FirstHitCorrected(centre, nw, ne, sw, se)
  {
    HorizontalEdgeAgrees(centre, Segment(ne, nw));
    HorizontalEdgeAgrees(centre, Segment(se, sw));
    if SegmentCrossPoint(centre, Segment(ne, nw)).None? && SegmentCrossPoint(centre, Segment(se, sw)).None? {
      var l, r, t, b := nw.x, ne.x, nw.y, sw.y;
      assert Segment(ne, nw) == Segment(Point(Max(l, r), t), Point(Min(l, r), t));
      assert Segment(se, sw) == Segment(Point(Max(l, r), b), Point(Min(l, r), b));
      VerticalEdgeAgrees(centre, s0, l, b, t, r, t, b);
      VerticalEdgeAgrees(centre, s0, r, t, b, l, t, b);
    }
  }

  /** Boundary handles land on the perimeter: whatever point `_solve_for`
      moves a handle to lies on the centre line and on an edge of the box. */
  lemma FirstHitOnPerimeter(centre: Segment, s0: real, nw: Point, ne: Point, sw: Point, se: Point)
    requires IsBox(nw, ne, sw, se)
    requires 0.0 <= s0 <= 1.0 && Inside(At(centre, s0), nw, se)
    ensures var r := FirstHit(centre, nw, ne, sw, se);
            r.Some? ==> OnSegment(centre, r.value)
                        && (OnSegment(Segment(ne, nw), r.value) || OnSegment(Segment(se, sw), r.value)
                            || OnSegment(Segment(sw, nw), r.value) || OnSegment(Segment(ne, se), r.value))
  {
    FirstHitAgrees(centre, s0, nw, ne, sw, se);
  }

  /** A handle is always moved when the centre line leaves its box: if one
      end is strictly inside and the other outside the closed box, the
      as-written edge search finds a point. */
  lemma FirstHitFinds(centre: Segment, s0: real, s1: real, nw: Point, ne: Point, sw: Point, se: Point)
    requires IsBox(nw, ne, sw, se)
    requires 0.0 <= s0 <= 1.0 && Inside(At(centre, s0), nw, se)
    requires 0.0 <= s1 <= 1.0 && !InBox(At(centre, s1), nw, se)
    ensures FirstHit(centre, nw, ne, sw, se).Some?
  {
    FirstHitAgrees(centre, s0, nw, ne, sw, se);
    FirstHitCorrectedFinds(centre, s0, s1, nw, ne, sw, se);
  }
}
