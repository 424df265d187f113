/** `HandlesConstraint.solve_for` and `_solve_for`: each of the two handles
    of the constraint is moved to where the line between the two box
    centres first meets an edge of its box, or left where it is. */
module HandlesConstraintSolver {
  import opened PyRuntime
  import opened Constraints
  import opened Items

  /** Lines 27-28 of `_solve_for`: the line from `o1`'s central handle to
      `o2`'s, in canvas coordinates; `o1` is asked first. */
  function CentreLine(o1: ClassBox, o2: ClassBox): (r: Result<Segment>)
    reads o1, o2
    requires o1.Valid() && o2.Valid()
    ensures r.Ok? <==> o1.central.Some? && o2.central.Some?
    ensures r.Err? ==> r.error == AttributeError
    ensures r.Ok? ==> r.value == Segment(o1.CanvasPos(o1.central.value), o2.CanvasPos(o2.central.value))
  {
    var p := o1.CanvasHandle("central");
    var q := o2.CanvasHandle("central");
    if p.Err? then Err(p.error)
    else if q.Err? then Err(q.error)
    else Ok(Segment(p.value, q.value))
  }

  /** Lines 27-38: the point `_solve_for(obj, ...)` writes into its handle,
      `Ok(None)` when no edge is hit, or the AttributeError a box without a
      central handle raises. */
  function Hit(o1: ClassBox, o2: ClassBox, obj: ClassBox): (r: Result<Option<Point>>)
    reads o1, o2, obj
    requires o1.Valid() && o2.Valid() && obj.Valid()
    ensures r.Ok? <==> o1.central.Some? && o2.central.Some? && obj.central.Some?
    ensures r.Err? ==> r.error == AttributeError
    ensures r.Ok? ==> r.value == FirstHit(CentreLine(o1, o2).value, obj.CanvasPos(NW), obj.CanvasPos(NE),
                                          obj.CanvasPos(SW), obj.CanvasPos(SE))
  {
    var line := CentreLine(o1, o2);
    if line.Err? then Err(line.error)
    else
      var nw, ne := obj.CanvasHandle("NW"), obj.CanvasHandle("NE");
      var sw, se := obj.CanvasHandle("SW"), obj.CanvasHandle("SE");
      if nw.Err? then Err(nw.error)
      else Ok(FirstHit(line.value, nw.value, ne.value, sw.value, se.value))
  }

  /** What `_solve_for` reads of a box: the canvas positions of its central
      handle (if it has one) and of its corners. */
  datatype BoxView = BoxView(centre: Option<Point>, nw: Point, ne: Point, sw: Point, se: Point)

  function View(o: ClassBox): BoxView
    reads o
    requires o.Valid()
  {
    ViewOf(o.handles, o.central, o.origin)
  }

  /** The view of a box with handles `hs`, central handle `central` and
      translation `origin`. */
  function ViewOf(hs: seq<Handle>, central: Option<nat>, origin: Point): BoxView
    requires |hs| >= 4 && (central.Some? ==> central.value < |hs|)
  {
    BoxView(if central.Some? then Some(PosOf(hs, central.value, origin)) else None,
            PosOf(hs, NW, origin), PosOf(hs, NE, origin), PosOf(hs, SW, origin), PosOf(hs, SE, origin))
  }

  /** Handle `i` of `hs` moved by the translation `origin`. */
  function PosOf(hs: seq<Handle>, i: nat, origin: Point): Point
    requires i < |hs|
  {
    Point(origin.x + hs[i].pos.x, origin.y + hs[i].pos.y)
  }

  /** Moving a handle that is neither a corner nor the central one leaves
      the view alone. */
  lemma MovedKeepsView(hs: seq<Handle>, k: nat, p: Point, origin: Point, central: Option<nat>)
    requires 4 <= k < |hs| && central != Some(k) && (central.Some? ==> central.value < |hs|)
    ensures ViewOf(Moved(hs, k, p, origin), central, origin) == ViewOf(hs, central, origin)
  {
  }

  /** Hit depends on the three boxes only through their views. */
  lemma HitByView(o1: ClassBox, o2: ClassBox, obj: ClassBox)
    requires o1.Valid() && o2.Valid() && obj.Valid()
    ensures Hit(o1, o2, obj) ==
              if View(o1).centre.None? || View(o2).centre.None? || View(obj).centre.None? then Err(AttributeError)
              else Ok(FirstHit(Segment(View(o1).centre.value, View(o2).centre.value),
                               View(obj).nw, View(obj).ne, View(obj).sw, View(obj).se))
  {
  }

  /** The handles of a box after `_update` has moved handle `k` to the
      canvas point `p`: the projection writes `p` less the box's translation. */
  function Moved(hs: seq<Handle>, k: nat, p: Point, origin: Point): (r: seq<Handle>)
    requires k < |hs|
    ensures |r| == |hs| && r[k].pos == Point(p.x - origin.x, p.y - origin.y)
    ensures forall i :: 0 <= i < |hs| && i != k ==> r[i] == hs[i]
  {
    hs[k := hs[k].(pos := Point(p.x - origin.x, p.y - origin.y))]
  }

  /** A handle the constraint may move: an existing handle of its box that
      is neither a corner nor the central handle. */
  predicate Placeable(pr: Projection)
    reads pr.owner
  {
    4 <= pr.handle < |pr.owner.handles| && pr.owner.central != Some(pr.handle)
  }

  /** `_solve_for(obj, updated_pos)` with `o1`, `o2` from the constraint:
      the hit, if any, is written into the projected handle; no hit leaves
      it where it was. */
  method SolveOne(o1: ClassBox, o2: ClassBox, obj: ClassBox, updated: Projection) returns (err: Option<PyError>)
    modifies updated.owner
    requires o1.Valid() && o2.Valid() && obj.Valid() && updated.owner.Valid()
    requires Placeable(updated)
    ensures updated.owner.Valid() && Placeable(updated)
    ensures var h := old(Hit(o1, o2, obj));
            && (err.Some? <==> h.Err?)
            && (h.Err? ==> err == Some(h.error))
            && updated.owner.handles ==
                 if h.Ok? && h.value.Some?
                 then Moved(old(updated.owner.handles), updated.handle, h.value.value, old(updated.owner.origin))
                 else old(updated.owner.handles)
    ensures updated.owner.ports == old(updated.owner.ports) && updated.owner.central == old(updated.owner.central)
    ensures updated.owner.width == old(updated.owner.width) && updated.owner.height == old(updated.owner.height)
    ensures updated.owner.origin == old(updated.owner.origin)
  {
    var h := Hit(o1, o2, obj);
    if h.Err? {
      return Some(h.error);
    }
    if h.value.Some? {
      var point := h.value.value;
      var box := updated.owner;
      box.handles := Moved(box.handles, updated.handle, point, box.origin);
    }
    return None;
  }

  /** `solve_for(var)`: `_solve_for(o1, hp[0])` and then `_solve_for(o2,
      hp[1])`, whatever variable the solver passes. The second call sees the
      first one's write, which touches no handle the hit depends on, so
      both hits are those of the state before the call. */
  method SolveFor(c: HandlesConstraint, variable: nat) returns (err: Option<PyError>)
    modifies c.o1, c.o2
    requires |c.hp| == 2 && c.hp[0].owner == c.o1 && c.hp[1].owner == c.o2
    requires c.o1.Valid() && c.o2.Valid() && Placeable(c.hp[0]) && Placeable(c.hp[1])
    requires c.o1 == c.o2 ==> c.hp[0].handle != c.hp[1].handle
    ensures c.o1.Valid() && c.o2.Valid()
    ensures var h1, h2 := old(Hit(c.o1, c.o2, c.o1)), old(Hit(c.o1, c.o2, c.o2));
            && (err.Some? <==> h1.Err?)
            && (err.Some? ==> err == Some(AttributeError) && c.o1.handles == old(c.o1.handles) && c.o2.handles == old(c.o2.handles))
            && (err.None? && c.o1 != c.o2 ==>
                  && c.o1.handles == (if h1.value.Some? then Moved(old(c.o1.handles), c.hp[0].handle, h1.value.value, old(c.o1.origin))
                                      else old(c.o1.handles))
                  && c.o2.handles == (if h2.value.Some? then Moved(old(c.o2.handles), c.hp[1].handle, h2.value.value, old(c.o2.origin))
                                      else old(c.o2.handles)))
    ensures c.o1 == c.o2 ==> c.o1.handles == old(c.o1.handles)
    ensures c.o1.ports == old(c.o1.ports) && c.o2.ports == old(c.o2.ports)
    ensures c.o1.central == old(c.o1.central) && c.o2.central == old(c.o2.central)
  {
    ghost var v1, v2 := View(c.o1), View(c.o2);
    HitByView(c.o1, c.o2, c.o2);
    if c.o1 == c.o2 {
      SelfAssociationNoHit(c.o1);
    }
    ghost var hs1, h1 := c.o1.handles, Hit(c.o1, c.o2, c.o1);
    err := SolveOne(c.o1, c.o2, c.o1, c.hp[0]);
    if err.Some? {
      return;
    }
    if h1.value.Some? {
      MovedKeepsView(hs1, c.hp[0].handle, h1.value.value, c.o1.origin, c.o1.central);
    }
    assert View(c.o1) == v1 && View(c.o2) == v2;
    HitByView(c.o1, c.o2, c.o2);
    err := SolveOne(c.o1, c.o2, c.o2, c.hp[1]);
  }

  /** An association of a box with itself never moves its handles: the
      centre line is a single point, parallel to every edge. */
  lemma SelfAssociationNoHit(o: ClassBox)
    requires o.Valid()
    ensures Hit(o, o, o).Ok? ==> Hit(o, o, o).value == None
  {
    if o.central.Some? {
      var line := CentreLine(o, o).value;
      var nw, ne, sw, se := o.CanvasPos(NW), o.CanvasPos(NE), o.CanvasPos(SW), o.CanvasPos(SE);
      DegenerateSegmentNoCross(line, Segment(ne, nw));
      DegenerateSegmentNoCross(line, Segment(se, sw));
      DegenerateSegmentNoCross(line, Segment(sw, nw));
      DegenerateSegmentNoCross(line, Segment(ne, se));
    }
  }

  /** The handle `_solve_for` moves lands on the perimeter of its box: on one
      of the four edges and on the centre line, whether the box is the
      line's start (`o1`) or its end (`o2`). */
  lemma HitOnPerimeter(o1: ClassBox, o2: ClassBox, obj: ClassBox)
    requires o1.Valid() && o2.Valid() && obj.Valid()
    requires obj == o1 || obj == o2
    requires obj.width > 0.0 && obj.height > 0.0
    ensures var h := Hit(o1, o2, obj);
            h.Ok? && h.value.Some? ==>
              var p := h.value.value;
              var nw, ne, sw, se := obj.CanvasPos(NW), obj.CanvasPos(NE), obj.CanvasPos(SW), obj.CanvasPos(SE);
              && OnSegment(CentreLine(o1, o2).value, p)
              && (OnSegment(Segment(ne, nw), p) || OnSegment(Segment(se, sw), p)
                  || OnSegment(Segment(sw, nw), p) || OnSegment(Segment(ne, se), p))
  {
    var h := Hit(o1, o2, obj);
    if h.Ok? {
      var line := CentreLine(o1, o2).value;
      var nw, ne, sw, se := obj.CanvasPos(NW), obj.CanvasPos(NE), obj.CanvasPos(SW), obj.CanvasPos(SE);
      assert IsBox(nw, ne, sw, se);
      var s0: real := if obj == o1 then 0.0 else 1.0;
      assert At(line, s0) == obj.CanvasPos(obj.central.value);
      assert Inside(At(line, s0), nw, se);
      FirstHitOnPerimeter(line, s0, nw, ne, sw, se);
    }
  }

  /** `_solve_for` does move the handle when the other box's centre lies
      outside this box: the centre line then leaves the box, and the edge
      search finds where. */
  lemma HitWhenLeaving(o1: ClassBox, o2: ClassBox, obj: ClassBox)
    requires o1.Valid() && o2.Valid() && obj.Valid()
    requires obj == o1 || obj == o2
    requires obj.width > 0.0 && obj.height > 0.0
    ensures var h := Hit(o1, o2, obj);
            var other := if obj == o1 then o2 else o1;
            h.Ok? && !InBox(other.CanvasPos(other.central.value), obj.CanvasPos(NW), obj.CanvasPos(SE)) ==>
              h.value.Some?
  {
    var h := Hit(o1, o2, obj);
    var other := if obj == o1 then o2 else o1;
    if h.Ok? && !InBox(other.CanvasPos(other.central.value), obj.CanvasPos(NW), obj.CanvasPos(SE)) {
      var line := CentreLine(o1, o2).value;
      var nw, ne, sw, se := obj.CanvasPos(NW), obj.CanvasPos(NE), obj.CanvasPos(SW), obj.CanvasPos(SE);
      assert IsBox(nw, ne, sw, se);
      var s0: real := if obj == o1 then 0.0 else 1.0;
      var s1: real := 1.0 - s0;
      assert At(line, s0) == obj.CanvasPos(obj.central.value);
      assert At(line, s1) == other.CanvasPos(other.central.value);
      assert Inside(At(line, s0), nw, se);
      FirstHitFinds(line, s0, s1, nw, ne, sw, se);
    }
  }
}
