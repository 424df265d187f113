/** `set_association` (gpylint/canvas/__init__.py): an association line
    between two class boxes, wired through two moveable handles per call of
    `add_moveable_handle` and two connections. */
module Association {
  import opened PyRuntime
  import opened Constraints
  import opened Items

  /** The two connections `set_association` makes, for boxes that had `n1`
      and `n2` ports before. Line handle 0 goes to sink `o1` with the second
      port the first `add_moveable_handle` returned, the one it appended to
      `o2`; line handle 1 goes to sink `o2` with the second port the second
      call returned, the one it appended to `o1`. */
  function Wiring(line: AssociationLine, o1: ClassBox, o2: ClassBox, n1: nat, n2: nat): (w: seq<Connection>)
    ensures |w| == 2 && w[0].line == line && w[1].line == line
    ensures w[0].handle == 0 && w[0].sink == o1 && w[0].port.owner == o2
    ensures w[1].handle == 1 && w[1].sink == o2 && w[1].port.owner == o1
  {
    var same := o1 == o2;
    [Connection(line, 0, o1, PortRef(o2, n2 + if same then 1 else 0)),
     Connection(line, 1, o2, PortRef(o1, n1 + if same then 3 else 1))]
  }

  /** For two different boxes each line end is attached to a sink box other
      than the box that owns the port it is attached to. */
  lemma WiringCrossesPorts(line: AssociationLine, o1: ClassBox, o2: ClassBox, n1: nat, n2: nat)
    requires o1 != o2
    ensures forall k :: 0 <= k < 2 ==> Wiring(line, o1, o2, n1, n2)[k].sink != Wiring(line, o1, o2, n1, n2)[k].port.owner
  {
  }

  /** Swapping the boxes swaps which line end goes to which sink and which
      box owns the port of each end; the line and its handles are the same. */
  lemma WiringSwap(line: AssociationLine, o1: ClassBox, o2: ClassBox, n1: nat, n2: nat)
    ensures var w, v := Wiring(line, o1, o2, n1, n2), Wiring(line, o2, o1, n2, n1);
            && v[0].sink == w[1].sink && v[1].sink == w[0].sink
            && v[0].port.owner == w[1].port.owner && v[1].port.owner == w[0].port.owner
            && v[0].handle == w[0].handle && v[1].handle == w[1].handle
  {
  }

  /** The two HandlesConstraints `set_association` registers, for boxes that
      had `h1` and `h2` handles before. */
  function PairConstraints(o1: ClassBox, o2: ClassBox, h1: nat, h2: nat): (cs: seq<HandlesConstraint>)
    ensures |cs| == 2 && cs[0].o1 == o1 && cs[0].o2 == o2 && cs[1].o1 == o2 && cs[1].o2 == o1
    ensures forall k :: 0 <= k < 2 ==> |cs[k].hp| == 2 && cs[k].hp[0].owner == cs[k].o1 && cs[k].hp[1].owner == cs[k].o2
  {
    var same := o1 == o2;
    [HandlesConstraint(o1, o2, [Projection(o1, h1), Projection(o2, h2 + if same then 1 else 0)]),
     HandlesConstraint(o2, o1, [Projection(o2, h2 + if same then 2 else 1), Projection(o1, h1 + if same then 3 else 1)])]
  }

  /** `set_association(canvas, o1, o2, props)`. */
  method SetAssociation(canvas: Canvas, o1: ClassBox, o2: ClassBox, props: map<string, string>) returns (line: AssociationLine)
    modifies canvas, o1, o2
    requires o1.Valid() && o2.Valid()
    ensures o1.Valid() && o2.Valid()
    ensures fresh(line) && line.props == props
    ensures line.handles == [Handle(Point(0.0, 0.0), Normal, false, true), Handle(Point(10.0, 10.0), Normal, false, true)]
    ensures canvas.lines == old(canvas.lines) + [line]
    ensures canvas.boxes == old(canvas.boxes)
    ensures canvas.connections == old(canvas.connections) + Wiring(line, o1, o2, |old(o1.ports)|, |old(o2.ports)|)
    ensures canvas.constraints == old(canvas.constraints) + PairConstraints(o1, o2, |old(o1.handles)|, |old(o2.handles)|)
    ensures o1 != o2 ==> Grown(o1.handles, o1.ports, old(o1.handles), old(o1.ports), 2)
    ensures o1 != o2 ==> Grown(o2.handles, o2.ports, old(o2.handles), old(o2.ports), 2)
    ensures o1 == o2 ==> Grown(o1.handles, o1.ports, old(o1.handles), old(o1.ports), 4)
    ensures o1.central == old(o1.central) && o2.central == old(o2.central)
    ensures o1.width == old(o1.width) && o1.height == old(o1.height) && o1.origin == old(o1.origin)
    ensures o2.width == old(o2.width) && o2.height == old(o2.height) && o2.origin == old(o2.origin)
  {
    line := new AssociationLine(props);
    line.HideHandles();
    canvas.AddLine(line);
    var p1, p2 := AttachEnds(canvas, o1, o2);
    canvas.Connect(line, 0, o1, p1);
    canvas.Connect(line, 1, o2, p2);
  }

  /** The two `add_moveable_handle` calls of `set_association`, `o1`'s
      first, and the second port each returns: the one appended to the other
      box. */
  method AttachEnds(canvas: Canvas, o1: ClassBox, o2: ClassBox) returns (p1: PortRef, p2: PortRef)
    modifies canvas, o1, o2
    requires o1.Valid() && o2.Valid()
    ensures o1.Valid() && o2.Valid()
    ensures var n1, n2, same := |old(o1.ports)|, |old(o2.ports)|, o1 == o2;
            p1 == PortRef(o2, n2 + if same then 1 else 0) && p2 == PortRef(o1, n1 + if same then 3 else 1)
    ensures canvas.constraints == old(canvas.constraints) + PairConstraints(o1, o2, |old(o1.handles)|, |old(o2.handles)|)
    ensures canvas.boxes == old(canvas.boxes) && canvas.lines == old(canvas.lines)
    ensures canvas.connections == old(canvas.connections)
    ensures o1 != o2 ==> Grown(o1.handles, o1.ports, old(o1.handles), old(o1.ports), 2)
    ensures o1 != o2 ==> Grown(o2.handles, o2.ports, old(o2.handles), old(o2.ports), 2)
    ensures o1 == o2 ==> Grown(o1.handles, o1.ports, old(o1.handles), old(o1.ports), 4)
    ensures o1.central == old(o1.central) && o2.central == old(o2.central)
    ensures o1.width == old(o1.width) && o1.height == old(o1.height) && o1.origin == old(o1.origin)
    ensures o2.width == old(o2.width) && o2.height == old(o2.height) && o2.origin == old(o2.origin)
  {
    ghost var hs1, ps1, hs2, ps2 := o1.handles, o1.ports, o2.handles, o2.ports;
    var r1 := o1.AddMoveableHandle(canvas, o2);
    ghost var hs1', ps1', hs2', ps2' := o1.handles, o1.ports, o2.handles, o2.ports;
    var r2 := o2.AddMoveableHandle(canvas, o1);
    if o1 != o2 {
      GrownCompose(hs1, ps1, hs1', ps1', o1.handles, o1.ports, 1, 1);
      GrownCompose(hs2, ps2, hs2', ps2', o2.handles, o2.ports, 1, 1);
    } else {
      GrownCompose(hs1, ps1, hs1', ps1', o1.handles, o1.ports, 2, 2);
    }
    p1, p2 := r1[1], r2[1];
  }
}
