/** The canvas items of the class diagram: a class box with its corner,
    central and moveable handles and the ports that share their positions,
    the association line between two boxes, and the parts of the gaphas
    canvas the items talk to (the item list, the solver's constraint list and
    the connections of line handles to ports). */
module Items {
  import opened PyRuntime
  import opened Constraints

  // ---------------------------------------------------------------------
  // Handles and ports

  /** The solver strengths the items use. */
  datatype Strength = Normal | Strong | VeryStrong

  /** A gaphas handle: a position in item coordinates and its flags. */
  datatype Handle = Handle(pos: Point, strength: Strength, visible: bool, movable: bool)

  /** A port of a box. A port built on a handle's position shares that
      position, so it is recorded by the index of the handle in the box. */
  datatype Port = LinePort(start: nat, end: nat) | PointPort(handle: nat)

  /** Corner indices of a gaphas element. */
  const NW: nat := 0
  const NE: nat := 1
  const SE: nat := 2
  const SW: nat := 3

  /** Where the solver keeps corner `i` of an element of the given size. */
  function CornerPos(i: nat, width: real, height: real): Point
    requires i < 4
  {
    if i == NW then Point(0.0, 0.0)
    else if i == NE then Point(width, 0.0)
    else if i == SE then Point(width, height)
    else Point(0.0, height)
  }

  /** The four corner handles gaphas creates for an element. */
  function ElementHandles(width: real, height: real): (hs: seq<Handle>)
    ensures |hs| == 4
    ensures forall i :: 0 <= i < 4 ==> hs[i] == Handle(CornerPos(i, width, height), VeryStrong, true, true)
  {
    [Handle(CornerPos(NW, width, height), VeryStrong, true, true),
     Handle(CornerPos(NE, width, height), VeryStrong, true, true),
     Handle(CornerPos(SE, width, height), VeryStrong, true, true),
     Handle(CornerPos(SW, width, height), VeryStrong, true, true)]
  }

  /** The handles of a box the solver has fitted to a new size: the four
      corners moved to the corners of that size, every other handle as it
      was. */
  function Resized(hs: seq<Handle>, width: real, height: real): (r: seq<Handle>)
    requires |hs| >= 4
    ensures |r| == |hs| && r[4..] == hs[4..]
    ensures forall i :: 0 <= i < 4 ==> r[i] == hs[i].(pos := CornerPos(i, width, height))
  {
    [hs[NW].(pos := CornerPos(NW, width, height)),
     hs[NE].(pos := CornerPos(NE, width, height)),
     hs[SE].(pos := CornerPos(SE, width, height)),
     hs[SW].(pos := CornerPos(SW, width, height))] + hs[4..]
  }

  /** The four edge ports gaphas creates for an element. */
  const ElementPorts: seq<Port> := [LinePort(NW, NE), LinePort(NE, SE), LinePort(SE, SW), LinePort(SW, NW)]

  /** The loops of `Box.__init__`, `AssociationLine.__init__` and
      `set_association` over an item's handles: every handle made invisible,
      nothing else changed. The first two also write `moveable`, an
      attribute gaphas' `Handle` does not have (its flag is `movable`), so
      the handles stay as movable as they were. */
  method Hide(hs: seq<Handle>) returns (r: seq<Handle>)
    ensures |r| == |hs|
    ensures forall i :: 0 <= i < |hs| ==> r[i] == hs[i].(visible := false)
  {
    r := hs;
    for i := 0 to |hs|
      invariant |r| == |hs|
      invariant forall j :: 0 <= j < i ==> r[j] == hs[j].(visible := false)
      invariant forall j :: i <= j < |hs| ==> r[j] == hs[j]
    {
      r := r[i := r[i].(visible := false)];
    }
  }

  /** The handle `_create_handle_and_port` makes: very strong, hidden, at the
      item origin, movable as every new gaphas handle is. */
  function MoveableHandle(): Handle
  {
    Handle(Point(0.0, 0.0), VeryStrong, false, true)
  }

  /** `n` copies of `h`. */
  function Repeat(h: Handle, n: nat): (r: seq<Handle>)
    ensures |r| == n && forall i :: 0 <= i < n ==> r[i] == h
  {
    seq(n, _ => h)
  }

  /** Handles `hs` and ports `ps` are `hs0` and `ps0` after `k` turns of
      `_create_handle_and_port`. */
  predicate Grown(hs: seq<Handle>, ps: seq<Port>, hs0: seq<Handle>, ps0: seq<Port>, k: nat)
  {
    hs == hs0 + Repeat(MoveableHandle(), k) && ps == ps0 + PointPorts(|hs0|, k)
  }

  /** Two runs of turns make one. */
  lemma GrownCompose(hs0: seq<Handle>, ps0: seq<Port>, hs1: seq<Handle>, ps1: seq<Port>,
                     hs2: seq<Handle>, ps2: seq<Port>, k1: nat, k2: nat)
    requires Grown(hs1, ps1, hs0, ps0, k1) && Grown(hs2, ps2, hs1, ps1, k2)
    ensures Grown(hs2, ps2, hs0, ps0, k1 + k2)
  {
    assert Repeat(MoveableHandle(), k1) + Repeat(MoveableHandle(), k2) == Repeat(MoveableHandle(), k1 + k2);
    assert PointPorts(|hs0|, k1) + PointPorts(|hs1|, k2) == PointPorts(|hs0|, k1 + k2);
  }

  /** One more turn appends one more moveable handle and its port. */
  lemma Growing(hs0: seq<Handle>, ps0: seq<Port>, k: nat)
    ensures Grown(hs0, ps0, hs0, ps0, 0)
    ensures var hs, ps := hs0 + Repeat(MoveableHandle(), k), ps0 + PointPorts(|hs0|, k);
            Grown(hs + [MoveableHandle()], ps + [PointPort(|hs|)], hs0, ps0, k + 1)
  {
    var hs, ps := hs0 + Repeat(MoveableHandle(), k), ps0 + PointPorts(|hs0|, k);
    assert hs + [MoveableHandle()] == hs0 + Repeat(MoveableHandle(), k + 1);
    assert ps + [PointPort(|hs|)] == ps0 + PointPorts(|hs0|, k + 1);
  }

  /** The point ports on handles `base`, `base + 1`, ... */
  function PointPorts(base: nat, n: nat): (r: seq<Port>)
    ensures |r| == n && forall i :: 0 <= i < n ==> r[i] == PointPort(base + i)
  {
    seq(n, i requires 0 <= i < n => PointPort(base + i))
  }

  /** The names `get_canvas_handle` accepts and the handle each one picks. */
  function HandleIndex(kind: string, central: Option<nat>): (r: Option<nat>)
    requires central.Some?
    ensures r.Some? <==> kind in {"central", "NW", "NE", "SW", "SE"}
    ensures kind == "central" ==> r == central
    ensures kind == "NW" ==> r == Some(NW)
    ensures kind == "NE" ==> r == Some(NE)
    ensures kind == "SW" ==> r == Some(SW)
    ensures kind == "SE" ==> r == Some(SE)
  {
    if kind == "central" then central
    else if kind == "NW" then Some(NW)
    else if kind == "NE" then Some(NE)
    else if kind == "SW" then Some(SW)
    else if kind == "SE" then Some(SE)
    else None
  }

  /** Which drawing routine `AssociationLine.draw` picks for the head. */
  datatype HeadStyle = DrawHeadComposite | DrawHeadNone

  /** The head-style table of `AssociationLine.draw`: a missing `arrowhead`
      property or a style outside the table raises KeyError. */
  function HeadDrawer(props: map<string, string>): (r: Result<HeadStyle>)
    ensures r.Ok? <==> "arrowhead" in props && props["arrowhead"] in {"diamond", "empty"}
    ensures r.Ok? ==> (r.value == DrawHeadComposite <==> props["arrowhead"] == "diamond")
    ensures r.Err? ==> r.error == KeyError
  {
    if "arrowhead" !in props then Err(KeyError)
    else if props["arrowhead"] == "diamond" then Ok(DrawHeadComposite)
    else if props["arrowhead"] == "empty" then Ok(DrawHeadNone)
    else Err(KeyError)
  }

  /** The arrowtail property never affects the head drawing. */
  lemma HeadDrawerIgnoresTail(props: map<string, string>, tail: string)
    ensures HeadDrawer(props["arrowtail" := tail]) == HeadDrawer(props)
  {
    assert "arrowtail" != "arrowhead";
  }

  // ---------------------------------------------------------------------
  // Class boxes

  /** A class box on the canvas: `Box` and `ClassBox` in one. `central` is
      the index of `_central_handle`, `None` until the first draw; `origin`
      is the translation of the item's matrix. */
  class ClassBox {
    var handles: seq<Handle>
    var ports: seq<Port>
    var width: real
    var height: real
    var central: Option<nat>
    var origin: Point
    const properties: map<string, string>

    /** The corners sit where the solver keeps them for the current size
        and every index the box stores names one of its handles. */
    predicate Framed()
      reads this
    {
      && |handles| >= 4
      && (forall i :: 0 <= i < 4 ==> handles[i].pos == CornerPos(i, width, height))
      && (central.Some? ==> central.value < |handles|)
      && (forall k :: 0 <= k < |ports| ==> PortIn(ports[k], |handles|))
    }

    /** ... and the central handle is at the middle of the current size. */
    predicate Valid()
      reads this
    {
      Framed() && (central.Some? ==> handles[central.value].pos == Point(width / 2.0, height / 2.0))
    }

    static predicate PortIn(p: Port, n: nat)
    {
      match p
      case LinePort(s, e) => s < n && e < n
      case PointPort(h) => h < n
    }

    /** `ClassBox(props, width, height)`: the element's four corner handles,
        all invisible and still movable, and its four edge ports. */
    constructor (props: map<string, string>, width: real, height: real)
      ensures Valid()
      ensures properties == props && this.width == width && this.height == height
      ensures |handles| == 4
      ensures forall i :: 0 <= i < 4 ==> handles[i] == Handle(CornerPos(i, width, height), VeryStrong, false, true)
      ensures ports == ElementPorts && central == None && origin == Point(0.0, 0.0)
    {
      var hs := Hide(ElementHandles(width, height));
      handles := hs;
      ports := ElementPorts;
      this.width := width;
      this.height := height;
      central := None;
      origin := Point(0.0, 0.0);
      properties := props;
    }

    /** The `filepath`, `title` and `lineno` properties: the entry of
        `properties` under `key`, or the KeyError of a missing one. */
    function Property(key: string): Result<string>
      reads this
    {
      if key in properties then Ok(properties[key]) else Err(KeyError)
    }

    /** Canvas position of handle `i`: its item position moved by the
        item's translation. */
    function CanvasPos(i: nat): Point
      reads this
      requires i < |handles|
    {
      Point(origin.x + handles[i].pos.x, origin.y + handles[i].pos.y)
    }

    /** `get_canvas_handle(kind)`. The lookup table is built before the
        name is checked and reads `_central_handle`, so before the first draw
        every name raises AttributeError; afterwards a name outside the five
        fails the assertion. */
    function CanvasHandle(kind: string): (r: Result<Point>)
      reads this
      requires Valid()
      ensures central.None? ==> r == Err(AttributeError)
      ensures central.Some? ==> (r.Ok? <==> kind in {"central", "NW", "NE", "SW", "SE"})
      ensures central.Some? && r.Err? ==> r.error == AssertionError
      ensures r.Ok? && kind == "central" ==> r.value == CanvasPos(central.value)
      ensures r.Ok? && kind == "NW" ==> r.value == Point(origin.x, origin.y)
      ensures r.Ok? && kind == "NE" ==> r.value == Point(origin.x + width, origin.y)
      ensures r.Ok? && kind == "SW" ==> r.value == Point(origin.x, origin.y + height)
      ensures r.Ok? && kind == "SE" ==> r.value == Point(origin.x + width, origin.y + height)
    {
      if central.None? then Err(AttributeError)
      else
        var i := HandleIndex(kind, central);
        if i.None? then Err(AssertionError) else Ok(CanvasPos(i.value))
    }

    /** `matrix.translate(x, y)`. */
    method Translate(x: real, y: real)
      modifies this
      requires Valid()
      ensures Valid()
      ensures origin == Point(old(origin.x) + x, old(origin.y) + y)
      ensures handles == old(handles) && ports == old(ports) && central == old(central)
      ensures width == old(width) && height == old(height)
    {
      origin := Point(origin.x + x, origin.y + y);
    }

    /** `add_central_handle`: a new strong, hidden handle at the middle of
        the box, a point port on it, and `_central_handle` pointing at it. */
    method AddCentralHandle()
      modifies this
      requires Framed()
      ensures Valid()
      ensures handles == old(handles) + [Handle(Point(width / 2.0, height / 2.0), Strong, false, true)]
      ensures ports == old(ports) + [PointPort(|old(handles)|)]
      ensures central == Some(|old(handles)|)
      ensures width == old(width) && height == old(height) && origin == old(origin)
    {
      var h := Handle(Point(width / 2.0, height / 2.0), Strong, false, true);
      ports := ports + [PointPort(|handles|)];
      central := Some(|handles|);
      handles := handles + [h];
    }

    /** `ClassBox.draw` without the cairo output: the size becomes the
        title's text extents plus 50 in each direction (the solver moves the
        corners along) and one more central handle is added, on every call. */
    method Draw(textWidth: real, textHeight: real)
      modifies this
      requires Valid()
      ensures Valid()
      ensures width == textWidth + 50.0 && height == textHeight + 50.0
      ensures handles == Resized(old(handles), width, height) + [Handle(Point(width / 2.0, height / 2.0), Strong, false, true)]
      ensures ports == old(ports) + [PointPort(|old(handles)|)]
      ensures central == Some(|old(handles)|) && origin == old(origin)
    {
      width := textWidth + 50.0;
      height := textHeight + 50.0;
      handles := Resized(handles, width, height);
      AddCentralHandle();
    }

    /** One turn of the loop of `add_moveable_handle`, on this box: the
        handle and port of `_create_handle_and_port` appended (the port
        first, on the handle about to be appended) and the projection of the
        new handle. */
    method AttachMoveable() returns (projection: Projection, portRef: PortRef)
      modifies this
      requires Valid()
      ensures Valid()
      ensures handles == old(handles) + [MoveableHandle()]
      ensures ports == old(ports) + [PointPort(|old(handles)|)]
      ensures projection == Projection(this, |old(handles)|) && portRef == PortRef(this, |old(ports)|)
      ensures width == old(width) && height == old(height) && central == old(central) && origin == old(origin)
    {
      var (handle, port) := CreateHandleAndPort(|handles|);
      ports := ports + [port];
      handles := handles + [handle];
      projection := Projection(this, |handles| - 1);
      portRef := PortRef(this, |ports| - 1);
    }

    /** `add_moveable_handle(canvas, snd_obj)`: for `self` and then
        `snd_obj`, one new hidden handle at the origin and a point port on
        it; one HandlesConstraint over the two new handles; the two ports
        returned, `self`'s first. When `snd_obj` is `self`, both handles and
        both ports go to the same box. */
    method AddMoveableHandle(canvas: Canvas, snd: ClassBox) returns (portRefs: seq<PortRef>)
      modifies this, snd, canvas
      requires Valid() && snd.Valid()
      ensures Valid() && snd.Valid()
      ensures Grown(handles, ports, old(handles), old(ports), if snd == this then 2 else 1)
      ensures snd != this ==> Grown(snd.handles, snd.ports, old(snd.handles), old(snd.ports), 1)
      ensures portRefs == [PortRef(this, |old(ports)|), PortRef(snd, |old(snd.ports)| + if snd == this then 1 else 0)]
      ensures canvas.constraints == old(canvas.constraints) +
                [HandlesConstraint(this, snd, [Projection(this, |old(handles)|),
                                               Projection(snd, |old(snd.handles)| + if snd == this then 1 else 0)])]
      ensures width == old(width) && height == old(height) && central == old(central) && origin == old(origin)
      ensures snd.width == old(snd.width) && snd.height == old(snd.height)
      ensures snd.central == old(snd.central) && snd.origin == old(snd.origin)
      ensures canvas.boxes == old(canvas.boxes) && canvas.lines == old(canvas.lines)
      ensures canvas.connections == old(canvas.connections)
    {
      var projections;
      projections, portRefs := AttachPair(snd);
      canvas.AddConstraint(HandlesConstraint(this, snd, projections));
    }

    /** The loop of `add_moveable_handle` over `[self, snd_obj]`. */
    method AttachPair(snd: ClassBox) returns (projections: seq<Projection>, portRefs: seq<PortRef>)
      modifies this, snd
      requires Valid() && snd.Valid()
      ensures Valid() && snd.Valid()
      ensures Grown(handles, ports, old(handles), old(ports), if snd == this then 2 else 1)
      ensures snd != this ==> Grown(snd.handles, snd.ports, old(snd.handles), old(snd.ports), 1)
      ensures portRefs == [PortRef(this, |old(ports)|), PortRef(snd, |old(snd.ports)| + if snd == this then 1 else 0)]
      ensures projections == [Projection(this, |old(handles)|),
                              Projection(snd, |old(snd.handles)| + if snd == this then 1 else 0)]
      ensures width == old(width) && height == old(height) && central == old(central) && origin == old(origin)
      ensures snd.width == old(snd.width) && snd.height == old(snd.height)
      ensures snd.central == old(snd.central) && snd.origin == old(snd.origin)
    {
      var objs := [this, snd];
      projections := [];
      portRefs := [];
      for i := 0 to 2
        invariant |projections| == i && |portRefs| == i
        invariant Grown(handles, ports, old(handles), old(ports), Visits(objs, i, this))
        invariant Grown(snd.handles, snd.ports, old(snd.handles), old(snd.ports), Visits(objs, i, snd))
        invariant i >= 1 ==> projections[0] == Projection(this, |old(handles)|) && portRefs[0] == PortRef(this, |old(ports)|)
        invariant i >= 2 ==> projections[1] == Projection(snd, |old(snd.handles)| + Visits(objs, 1, snd))
        invariant i >= 2 ==> portRefs[1] == PortRef(snd, |old(snd.ports)| + Visits(objs, 1, snd))
        invariant width == old(width) && height == old(height) && central == old(central) && origin == old(origin)
        invariant snd.width == old(snd.width) && snd.height == old(snd.height)
        invariant snd.central == old(snd.central) && snd.origin == old(snd.origin)
        invariant Valid() && snd.Valid()
      {
        var obj := objs[i];
        ghost var k := Visits(objs, i, obj);
        Growing(old(obj.handles), old(obj.ports), k);
        var projection, portRef := obj.AttachMoveable();
        projections := projections + [projection];
        portRefs := portRefs + [portRef];
      }
    }
  }

  /** How often the loop over the pair `objs` has visited `o` after `i`
      turns. */
  function Visits(objs: seq<ClassBox>, i: nat, o: ClassBox): (n: nat)
    requires |objs| == 2 && i <= 2
    ensures n <= i
  {
    (if i >= 1 && objs[0] == o then 1 else 0) + (if i >= 2 && objs[1] == o then 1 else 0)
  }

  /** `_create_handle_and_port`, for a handle that will take index `at`. */
  function CreateHandleAndPort(at: nat): (Handle, Port)
  {
    (MoveableHandle(), PointPort(at))
  }

  // ---------------------------------------------------------------------
  // Association lines

  /** An association line: the scanner's properties and the line's two
      handles. */
  class AssociationLine {
    const props: map<string, string>
    var handles: seq<Handle>

    /** `AssociationLine(props)`: gaphas' two line handles, both made
        invisible and still movable. */
    constructor (props: map<string, string>)
      ensures this.props == props && |handles| == 2
      ensures handles == [Handle(Point(0.0, 0.0), Normal, false, true), Handle(Point(10.0, 10.0), Normal, false, true)]
    {
      this.props := props;
      var hs := Hide([Handle(Point(0.0, 0.0), Normal, true, true), Handle(Point(10.0, 10.0), Normal, true, true)]);
      handles := hs;
    }

    /** The routine `AssociationLine.draw` calls for the head. */
    function HeadRoutine(): Result<HeadStyle>
    {
      HeadDrawer(props)
    }

    /** The loop of `set_association` hiding the line's handles. */
    method HideHandles()
      modifies this
      ensures |handles| == |old(handles)|
      ensures forall i :: 0 <= i < |handles| ==> handles[i] == old(handles[i]).(visible := false)
    {
      var hs := Hide(handles);
      handles := hs;
    }
  }

  // ---------------------------------------------------------------------
  // The canvas and its solver

  /** A canvas projection of a box's handle: the handle's position seen in
      canvas coordinates. */
  datatype Projection = Projection(owner: ClassBox, handle: nat)

  /** A port of a given box. */
  datatype PortRef = PortRef(owner: ClassBox, port: nat)

  /** The state of a HandlesConstraint (constraints.py): the two boxes and
      the projections of the two handles it places, `hp[0]` on `o1` and
      `hp[1]` on `o2`. */
  datatype HandlesConstraint = HandlesConstraint(o1: ClassBox, o2: ClassBox, hp: seq<Projection>)

  /** `HandlesConstraint.__init__` reads `hp[0]` and `hp[1]` to register
      their variables with the solver. */
  function NewHandlesConstraint(o1: ClassBox, o2: ClassBox, hp: seq<Projection>): (r: Result<HandlesConstraint>)
    ensures r.Ok? <==> |hp| >= 2
    ensures r.Ok? ==> r.value.o1 == o1 && r.value.o2 == o2 && r.value.hp == hp
    ensures r.Err? ==> r.error == IndexError
  {
    if |hp| < 2 then Err(IndexError) else Ok(HandlesConstraint(o1, o2, hp))
  }

  /** A line handle connected to a port through a connection sink whose
      item is `sink`. */
  datatype Connection = Connection(line: AssociationLine, handle: nat, sink: ClassBox, port: PortRef)

  /** The parts of a gaphas canvas the diagram uses. */
  class Canvas {
    var boxes: seq<ClassBox>
    var lines: seq<AssociationLine>
    var constraints: seq<HandlesConstraint>
    var connections: seq<Connection>

    constructor ()
      ensures boxes == [] && lines == [] && constraints == [] && connections == []
    {
      boxes, lines, constraints, connections := [], [], [], [];
    }

    /** `canvas.add(box)`. */
    method AddBox(b: ClassBox)
      modifies this
      ensures boxes == old(boxes) + [b]
      ensures lines == old(lines) && constraints == old(constraints) && connections == old(connections)
    {
      boxes := boxes + [b];
    }

    /** `canvas.add(line)`. */
    method AddLine(l: AssociationLine)
      modifies this
      ensures lines == old(lines) + [l]
      ensures boxes == old(boxes) && constraints == old(constraints) && connections == old(connections)
    {
      lines := lines + [l];
    }

    /** `canvas.solver.add_constraint(c)`. */
    method AddConstraint(c: HandlesConstraint)
      modifies this
      ensures constraints == old(constraints) + [c]
      ensures boxes == old(boxes) && lines == old(lines) && connections == old(connections)
    {
      constraints := constraints + [c];
    }

    /** `Connector(line, handle).connect(ConnectionSink(sink, port))`. */
    method Connect(line: AssociationLine, handle: nat, sink: ClassBox, port: PortRef)
      modifies this
      ensures connections == old(connections) + [Connection(line, handle, sink, port)]
      ensures boxes == old(boxes) && lines == old(lines) && constraints == old(constraints)
    {
      connections := connections + [Connection(line, handle, sink, port)];
    }
  }
}
