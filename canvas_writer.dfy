/** `CanvasBackend.generate` and `CanvasWriter` (gpylint/writer.py): the
    laid-out graph is turned into class boxes registered under their
    `(filepath, label)` key and into associations between registered boxes.
    The graphviz graph is given as its node and edge records, in graphviz'
    iteration order. */
module CanvasWriter {
  import opened PyRuntime
  import opened Constraints
  import opened Items
  import opened Association

  /** The registry key of a node: its `filepath` and `label` attributes. */
  type Key = (string, string)

  /** A laid-out graphviz node: the attributes `generate` reads. The size is
      given as the number the `width` and `height` attributes denote. */
  datatype GvNode = GvNode(filepath: string, caption: string, lineno: string, pos: string, width: real, height: real)

  /** A graphviz edge: its arrow attributes and the keys of its head and
      tail nodes. */
  datatype GvEdge = GvEdge(arrowhead: string, arrowtail: string, head: Key, tail: Key)

  function NodeKey(n: GvNode): Key { (n.filepath, n.caption) }

  /** The properties of the box made for a node. */
  function NodeProps(n: GvNode): map<string, string>
  {
    map["filepath" := n.filepath, "title" := n.caption, "lineno" := n.lineno]
  }

  /** The properties of the line made for an edge. */
  function EdgeProps(e: GvEdge): map<string, string>
  {
    map["arrowhead" := e.arrowhead, "arrowtail" := e.arrowtail]
  }

  /** `x, y = map(int, pos.split(','))`: ValueError unless the string has
      exactly one comma and both pieces are integers. */
  function ParsePos(pos: string): (r: Result<(int, int)>)
    ensures r.Err? ==> r.error == ValueError
  {
    var parts := Split(pos, ',');
    if |parts| != 2 then Err(ValueError)
    else
      var x, y := ParseInt(parts[0]), ParseInt(parts[1]);
      if x.Err? || y.Err? then Err(ValueError) else Ok((x.value, y.value))
  }

  /** A position is accepted exactly when it has one comma and both pieces
      are integers; it then denotes those two integers. */
  lemma ParsePosAccepts(pos: string)
    ensures ParsePos(pos).Ok? <==> Count(pos, ',') == 1 && ParseInt(Split(pos, ',')[0]).Ok? && ParseInt(Split(pos, ',')[1]).Ok?
    ensures ParsePos(pos).Ok? ==> ParsePos(pos).value == (ParseInt(Split(pos, ',')[0]).value, ParseInt(Split(pos, ',')[1]).value)
  {
  }

  /** The position graphviz writes, `"x,y"`, parses back to `(x, y)`. */
  lemma ParsePosRoundTrip(x: int, y: int)
    ensures ParsePos(IntToString(x) + "," + IntToString(y)) == Ok((x, y))
  {
    IntToStringNoComma(x);
    IntToStringNoComma(y);
    assert IntToString(x) + "," + IntToString(y) == IntToString(x) + [','] + IntToString(y);
    SplitTwo(IntToString(x), IntToString(y), ',');
    ParseIntOfString(x);
    ParseIntOfString(y);
  }

  /** The number of nodes placed before the first position that does not
      parse, or all of them. */
  function FirstUnparsable(nodes: seq<GvNode>): (n: nat)
    ensures n <= |nodes|
    ensures forall j :: 0 <= j < n ==> ParsePos(nodes[j].pos).Ok?
    ensures n < |nodes| ==> ParsePos(nodes[n].pos).Err?
  {
    if nodes == [] then 0
    else if ParsePos(nodes[0].pos).Err? then 0
    else 1 + FirstUnparsable(nodes[1..])
  }

  /** The context after registering `boxes[j]` under the key of `nodes[j]`,
      in order. */
  function Registered(context: map<Key, ClassBox>, nodes: seq<GvNode>, boxes: seq<ClassBox>): (r: map<Key, ClassBox>)
    requires |nodes| == |boxes|
  {
    if nodes == [] then context
    else
      var n := |nodes| - 1;
      Registered(context, nodes[..n], boxes[..n])[NodeKey(nodes[n]) := boxes[n]]
  }

  /** Index of the last node with key `k`. */
  function LastIndex(nodes: seq<GvNode>, k: Key): (r: Option<nat>)
    ensures r.Some? ==> r.value < |nodes| && NodeKey(nodes[r.value]) == k
    ensures r.Some? ==> forall j :: r.value < j < |nodes| ==> NodeKey(nodes[j]) != k
    ensures r.None? ==> forall j :: 0 <= j < |nodes| ==> NodeKey(nodes[j]) != k
  {
    if nodes == [] then None
    else if NodeKey(nodes[|nodes| - 1]) == k then Some(|nodes| - 1)
    else LastIndex(nodes[..|nodes| - 1], k)
  }

  /** Every box in the registry was there before or is one of the boxes
      registered. */
  lemma {:induction false} RegisteredValues(context: map<Key, ClassBox>, nodes: seq<GvNode>, boxes: seq<ClassBox>)
    requires |nodes| == |boxes|
    ensures forall k | k in Registered(context, nodes, boxes) :: Registered(context, nodes, boxes)[k] in context.Values || Registered(context, nodes, boxes)[k] in boxes
  {
    if nodes != [] {
      var n := |nodes| - 1;
      RegisteredValues(context, nodes[..n], boxes[..n]);
      assert forall b | b in boxes[..n] :: b in boxes;
    }
  }

  /** One more iteration of the node loop registers one more box. */
  lemma RegisteredStep(context: map<Key, ClassBox>, nodes: seq<GvNode>, boxes: seq<ClassBox>, box: ClassBox)
    requires |boxes| < |nodes|
    ensures var i := |boxes|;
            Registered(context, nodes[..i + 1], boxes + [box]) == Registered(context, nodes[..i], boxes)[NodeKey(nodes[i]) := box]
  {
    var i := |boxes|;
    assert nodes[..i + 1][..i] == nodes[..i];
    assert (boxes + [box])[..i] == boxes;
  }

  /** Registering adds exactly the nodes' keys. */
  lemma {:induction false} RegisteredKeys(context: map<Key, ClassBox>, nodes: seq<GvNode>, boxes: seq<ClassBox>)
    requires |nodes| == |boxes|
    ensures Registered(context, nodes, boxes).Keys == context.Keys + set j | 0 <= j < |nodes| :: NodeKey(nodes[j])
  {
    if nodes != [] {
      var n := |nodes| - 1;
      RegisteredKeys(context, nodes[..n], boxes[..n]);
      assert (set j | 0 <= j < |nodes| :: NodeKey(nodes[j]))
          == (set j | 0 <= j < n :: NodeKey(nodes[..n][j])) + {NodeKey(nodes[n])};
    }
  }

  /** Last write wins: a key is bound to the box of the last node with that
      key, and a key no node has keeps its earlier box. */
  lemma {:induction false} RegisteredLookup(context: map<Key, ClassBox>, nodes: seq<GvNode>, boxes: seq<ClassBox>, k: Key)
    requires |nodes| == |boxes|
    ensures var i := LastIndex(nodes, k);
            && (i.Some? ==> k in Registered(context, nodes, boxes) && Registered(context, nodes, boxes)[k] == boxes[i.value])
            && (i.None? ==> (k in Registered(context, nodes, boxes) <==> k in context))
            && (i.None? && k in context ==> Registered(context, nodes, boxes)[k] == context[k])
  {
    if nodes != [] {
      var n := |nodes| - 1;
      RegisteredLookup(context, nodes[..n], boxes[..n], k);
    }
  }

  /** The box the node loop makes for a node whose position parses: a
      fresh, undrawn class box with the node's properties and size, translated
      to the node's position. */
  predicate MadeFor(b: ClassBox, n: GvNode, at: (int, int))
    reads b
  {
    && b.Valid()
    && b.properties == NodeProps(n)
    && b.width == n.width && b.height == n.height
    && b.origin == Point(at.0 as real, at.1 as real)
    && |b.handles| == 4 && b.central == None
  }

  /** A placed box answers its `filepath`, `title` and `lineno` properties
      with its node's attributes, so the key it is registered under is its
      own `(filepath, title)` pair. */
  lemma MadeForProperties(b: ClassBox, n: GvNode, at: (int, int))
    requires MadeFor(b, n, at)
    ensures b.Property("filepath") == Ok(n.filepath) && b.Property("title") == Ok(n.caption)
    ensures b.Property("lineno") == Ok(n.lineno)
    ensures NodeKey(n) == (b.Property("filepath").value, b.Property("title").value)
  {
  }

  /** Lines 45-50 of `generate` for a node whose position parses: the box
      made for it and translated to its position. */
  method PlaceBox(node: GvNode) returns (box: ClassBox)
    requires ParsePos(node.pos).Ok?
    ensures fresh(box) && MadeFor(box, node, ParsePos(node.pos).value)
  {
    var (x, y) := ParsePos(node.pos).value;
    box := new ClassBox(NodeProps(node), node.width, node.height);
    box.Translate(x as real, y as real);
  }

  /** Lines 45-51 of `generate` for a node whose position parses: its box,
      added to the canvas. */
  method AddNode(canvas: Canvas, node: GvNode) returns (box: ClassBox)
    modifies canvas
    requires ParsePos(node.pos).Ok?
    ensures fresh(box) && MadeFor(box, node, ParsePos(node.pos).value)
    ensures canvas.boxes == old(canvas.boxes) + [box]
    ensures canvas.lines == old(canvas.lines) && canvas.constraints == old(canvas.constraints)
    ensures canvas.connections == old(canvas.connections)
  {
    box := PlaceBox(node);
    canvas.AddBox(box);
  }

  /** The positions of the first `n` nodes parse to `at`. */
  predicate ParsedAs(nodes: seq<GvNode>, at: seq<(int, int)>, n: nat)
    requires n <= |nodes| && n <= |at|
  {
    n == 0 || (ParsedAs(nodes, at, n - 1) && ParsePos(nodes[n - 1].pos) == Ok(at[n - 1]))
  }

  lemma {:induction false} ParsedAsAll(nodes: seq<GvNode>, at: seq<(int, int)>, n: nat)
    requires n <= |nodes| && n <= |at| && ParsedAs(nodes, at, n)
    ensures forall j :: 0 <= j < n ==> ParsePos(nodes[j].pos) == Ok(at[j])
  {
    if n > 0 {
      ParsedAsAll(nodes, at, n - 1);
    }
  }

  lemma {:induction false} ParsedAsExtend(nodes: seq<GvNode>, at: seq<(int, int)>, p: (int, int), n: nat)
    requires n == |at| < |nodes| && ParsedAs(nodes, at, n) && ParsePos(nodes[n].pos) == Ok(p)
    ensures ParsedAs(nodes, at + [p], n + 1)
  {
    ParsedAsPrefix(nodes, at, at + [p], n);
  }

  lemma {:induction false} ParsedAsPrefix(nodes: seq<GvNode>, at: seq<(int, int)>, at2: seq<(int, int)>, n: nat)
    requires n <= |nodes| && n <= |at| <= |at2| && at2[..|at|] == at && ParsedAs(nodes, at, n)
    ensures ParsedAs(nodes, at2, n)
  {
    if n > 0 {
      ParsedAsPrefix(nodes, at, at2, n - 1);
      assert at2[n - 1] == at2[..|at|][n - 1];
    }
  }

  /** The state of the node loop after `i` nodes: the canvas holds the boxes
      it held before and then the `i` new ones, whose nodes' positions parse
      to `at`, and the registry is the old one with them registered. */
  predicate NodesDone(placed: seq<ClassBox>, placed0: seq<ClassBox>, context: map<Key, ClassBox>, nodes: seq<GvNode>,
                      ctx: map<Key, ClassBox>, boxes: seq<ClassBox>, at: seq<(int, int)>, i: nat)
  {
    && i <= |nodes| && |boxes| == i && |at| == i
    && placed == placed0 + boxes
    && ctx == Registered(context, nodes[..i], boxes)
    && ParsedAs(nodes, at, i)
  }

  /** Every box of `boxes` is in `made`. */
  ghost predicate AllIn(boxes: seq<ClassBox>, made: set<object>)
  {
    forall j :: 0 <= j < |boxes| ==> boxes[j] in made
  }

  /** Every box in `boxes` was made for its node. */
  predicate AllMade(boxes: seq<ClassBox>, nodes: seq<GvNode>, at: seq<(int, int)>)
    requires |boxes| <= |nodes| && |boxes| <= |at|
    reads set j | 0 <= j < |boxes| :: boxes[j]
  {
    forall j :: 0 <= j < |boxes| ==> MadeFor(boxes[j], nodes[j], at[j])
  }

  lemma AllMadeExtend(boxes: seq<ClassBox>, nodes: seq<GvNode>, at: seq<(int, int)>, box: ClassBox, p: (int, int))
    requires |boxes| < |nodes| && |boxes| == |at| && AllMade(boxes, nodes, at)
    requires MadeFor(box, nodes[|boxes|], p)
    ensures AllMade(boxes + [box], nodes, at + [p])
  {
    assert forall j :: 0 <= j < |boxes| ==> (boxes + [box])[j] == boxes[j] && (at + [p])[j] == at[j];
  }

  /** The node loop's state after `|boxes|` nodes: the boxes are placed
      and registered, each was made for its node, and the canvas has no new
      lines, constraints or connections. */
  predicate Placing(canvas: Canvas, placed0: seq<ClassBox>, lines0: seq<AssociationLine>,
                    constraints0: seq<HandlesConstraint>, connections0: seq<Connection>,
                    context: map<Key, ClassBox>, nodes: seq<GvNode>,
                    ctx: map<Key, ClassBox>, boxes: seq<ClassBox>, at: seq<(int, int)>)
    reads canvas, set j | 0 <= j < |boxes| :: boxes[j]
  {
    && NodesDone(canvas.boxes, placed0, context, nodes, ctx, boxes, at, |boxes|)
    && AllMade(boxes, nodes, at)
    && canvas.lines == lines0 && canvas.constraints == constraints0 && canvas.connections == connections0
  }

  /** One iteration of the node loop, for a node whose position parses. */
  method RegisterNode(canvas: Canvas, context: map<Key, ClassBox>, nodes: seq<GvNode>,
                      ctx: map<Key, ClassBox>, boxes: seq<ClassBox>, ghost at: seq<(int, int)>, ghost placed0: seq<ClassBox>,
                      ghost made: set<object>)
      returns (ctx2: map<Key, ClassBox>, boxes2: seq<ClassBox>, ghost at2: seq<(int, int)>, ghost made2: set<object>)
    modifies canvas
    requires |boxes| < |nodes| && ParsePos(nodes[|boxes|].pos).Ok?
    requires Placing(canvas, placed0, canvas.lines, canvas.constraints, canvas.connections, context, nodes, ctx, boxes, at)
    requires AllIn(boxes, made)
    ensures Placing(canvas, placed0, old(canvas.lines), old(canvas.constraints), old(canvas.connections), context, nodes, ctx2, boxes2, at2)
    ensures |boxes2| == |boxes| + 1
    ensures AllIn(boxes2, made2) && made2 == made + {boxes2[|boxes|]} && fresh(boxes2[|boxes|])
  {
    var i := |boxes|;
    var node := nodes[i];
    var pos := ParsePos(node.pos);
    var box := AddNode(canvas, node);
    RegisteredStep(context, nodes, boxes, box);
    ParsedAsExtend(nodes, at, pos.value, i);
    AllMadeExtend(boxes, nodes, at, box, pos.value);
    ctx2 := ctx[NodeKey(node) := box];
    boxes2, at2 := boxes + [box], at + [pos.value];
    made2 := made + {box};
  }

  /** The node loop of `generate`: one class box per node, sized by the
      node, translated to its position, added to the canvas and registered
      under its key, until a position fails to parse. */
  method PlaceNodes(canvas: Canvas, nodes: seq<GvNode>, context: map<Key, ClassBox>)
      returns (ctx: map<Key, ClassBox>, boxes: seq<ClassBox>, ghost at: seq<(int, int)>, err: Option<PyError>)
    modifies canvas
    ensures |boxes| == FirstUnparsable(nodes)
    ensures err.None? <==> |boxes| == |nodes|
    ensures err.Some? ==> err == Some(ValueError)
    ensures Placing(canvas, old(canvas.boxes), old(canvas.lines), old(canvas.constraints), old(canvas.connections),
                    context, nodes, ctx, boxes, at)
    ensures forall b | b in boxes :: fresh(b)
  {
    ctx := context;
    boxes, at := [], [];
    var i := 0;
    err := None;
    ghost var made: set<object> := {};
    while i < |nodes|
      invariant i == |boxes| && err == None
      invariant Placing(canvas, old(canvas.boxes), old(canvas.lines), old(canvas.constraints), old(canvas.connections),
                        context, nodes, ctx, boxes, at)
      invariant fresh(made) && AllIn(boxes, made)
    {
      var pos := ParsePos(nodes[i].pos);
      if pos.Err? {
        break;
      }
      ctx, boxes, at, made := RegisterNode(canvas, context, nodes, ctx, boxes, at, old(canvas.boxes), made);
      i := i + 1;
    }
    if i < |nodes| {
      err := Some(ValueError);
    }
    ParsedUpTo(nodes, at, i);
  }

  /** The node loop stops at the first node whose position fails. */
  lemma ParsedUpTo(nodes: seq<GvNode>, at: seq<(int, int)>, i: nat)
    requires i <= |nodes| && i <= |at| && ParsedAs(nodes, at, i)
    requires i < |nodes| ==> ParsePos(nodes[i].pos).Err?
    ensures FirstUnparsable(nodes) == i
  {
    ParsedAsAll(nodes, at, i);
    FirstUnparsableAt(nodes, i);
  }

  /** Every box in the registry after the node loop is valid and either was
      there before or is new. */
  lemma ValidAfterPlacing(context: map<Key, ClassBox>, nodes: seq<GvNode>, ctx: map<Key, ClassBox>,
                          boxes: seq<ClassBox>, at: seq<(int, int)>)
    requires |boxes| <= |nodes| && |boxes| <= |at|
    requires ctx == Registered(context, nodes[..|boxes|], boxes)
    requires forall k | k in context :: context[k].Valid()
    requires AllMade(boxes, nodes, at)
    ensures forall k | k in ctx :: ctx[k].Valid()
    ensures forall k | k in ctx :: ctx[k] in context.Values || ctx[k] in boxes
  {
    RegisteredValues(context, nodes[..|boxes|], boxes);
  }

  /** FirstUnparsable is the first index whose position fails. */
  lemma {:induction false} FirstUnparsableAt(nodes: seq<GvNode>, i: nat)
    requires i <= |nodes|
    requires forall j :: 0 <= j < i ==> ParsePos(nodes[j].pos).Ok?
    requires i < |nodes| ==> ParsePos(nodes[i].pos).Err?
    ensures FirstUnparsable(nodes) == i
  {
    if i > 0 {
      FirstUnparsableAt(nodes[1..], i - 1);
    }
  }

  /** The number of edges connected before the first edge with an
      unregistered head or tail, or all of them. */
  function FirstUnresolved(context: map<Key, ClassBox>, edges: seq<GvEdge>): (n: nat)
    ensures n <= |edges|
    ensures forall j :: 0 <= j < n ==> edges[j].head in context && edges[j].tail in context
    ensures n < |edges| ==> edges[n].head !in context || edges[n].tail !in context
  {
    if edges == [] then 0
    else if edges[0].head !in context || edges[0].tail !in context then 0
    else 1 + FirstUnresolved(context, edges[1..])
  }

  lemma {:induction false} FirstUnresolvedAt(context: map<Key, ClassBox>, edges: seq<GvEdge>, i: nat)
    requires i <= |edges|
    requires forall j :: 0 <= j < i ==> edges[j].head in context && edges[j].tail in context
    requires i < |edges| ==> edges[i].head !in context || edges[i].tail !in context
    ensures FirstUnresolved(context, edges) == i
  {
    if i > 0 {
      FirstUnresolvedAt(context, edges[1..], i - 1);
    }
  }

  /** The line at index `l` carries `props`, and the two connections from
      index `c` attach its handle 0 to `head` and its handle 1 to `tail`. */
  predicate Associated(lines: seq<AssociationLine>, connections: seq<Connection>, l: nat, c: nat,
                       props: map<string, string>, head: ClassBox, tail: ClassBox)
  {
    && l < |lines| && c + 1 < |connections|
    && lines[l].props == props
    && connections[c].line == lines[l] && connections[c].handle == 0 && connections[c].sink == head
    && connections[c + 1].line == lines[l] && connections[c + 1].handle == 1 && connections[c + 1].sink == tail
  }

  /** An association stays what it is when lines and connections are
      appended after it. */
  lemma AssociatedKept(lines: seq<AssociationLine>, connections: seq<Connection>,
                       lines2: seq<AssociationLine>, connections2: seq<Connection>, l: nat, c: nat,
                       props: map<string, string>, head: ClassBox, tail: ClassBox)
    requires Associated(lines, connections, l, c, props, head, tail)
    requires |lines| <= |lines2| && lines2[..|lines|] == lines
    requires |connections| <= |connections2| && connections2[..|connections|] == connections
    ensures Associated(lines2, connections2, l, c, props, head, tail)
  {
    assert lines2[l] == lines2[..|lines|][l];
    assert connections2[c] == connections2[..|connections|][c];
    assert connections2[c + 1] == connections2[..|connections|][c + 1];
  }

  /** The first `n` edges resolved and each made the association at its
      place after line `l0` and connection `c0`. */
  predicate EdgesWired(lines: seq<AssociationLine>, connections: seq<Connection>, l0: nat, c0: nat,
                       context: map<Key, ClassBox>, edges: seq<GvEdge>, n: nat)
    requires n <= |edges|
  {
    n == 0 ||
    (&& EdgesWired(lines, connections, l0, c0, context, edges, n - 1)
     && edges[n - 1].head in context && edges[n - 1].tail in context
     && Associated(lines, connections, l0 + n - 1, c0 + 2 * (n - 1),
                   EdgeProps(edges[n - 1]), context[edges[n - 1].head], context[edges[n - 1].tail]))
  }

  lemma {:induction false} EdgesWiredKept(lines: seq<AssociationLine>, connections: seq<Connection>,
                                          lines2: seq<AssociationLine>, connections2: seq<Connection>, l0: nat, c0: nat,
                                          context: map<Key, ClassBox>, edges: seq<GvEdge>, n: nat)
    requires n <= |edges| && EdgesWired(lines, connections, l0, c0, context, edges, n)
    requires |lines| <= |lines2| && lines2[..|lines|] == lines
    requires |connections| <= |connections2| && connections2[..|connections|] == connections
    ensures EdgesWired(lines2, connections2, l0, c0, context, edges, n)
  {
    if n > 0 {
      EdgesWiredKept(lines, connections, lines2, connections2, l0, c0, context, edges, n - 1);
      AssociatedKept(lines, connections, lines2, connections2, l0 + n - 1, c0 + 2 * (n - 1),
                     EdgeProps(edges[n - 1]), context[edges[n - 1].head], context[edges[n - 1].tail]);
    }
  }

  lemma {:induction false} EdgesWiredResolved(lines: seq<AssociationLine>, connections: seq<Connection>, l0: nat, c0: nat,
                                              context: map<Key, ClassBox>, edges: seq<GvEdge>, n: nat)
    requires n <= |edges| && EdgesWired(lines, connections, l0, c0, context, edges, n)
    ensures forall j :: 0 <= j < n ==> edges[j].head in context && edges[j].tail in context
  {
    if n > 0 {
      EdgesWiredResolved(lines, connections, l0, c0, context, edges, n - 1);
    }
  }

  /** What `EdgesWired` says edge by edge. */
  lemma {:induction false} EdgesWiredAll(lines: seq<AssociationLine>, connections: seq<Connection>, l0: nat, c0: nat,
                                         context: map<Key, ClassBox>, edges: seq<GvEdge>, n: nat)
    requires n <= |edges| && EdgesWired(lines, connections, l0, c0, context, edges, n)
    ensures forall j :: 0 <= j < n ==>
              && edges[j].head in context && edges[j].tail in context
              && Associated(lines, connections, l0 + j, c0 + 2 * j,
                            EdgeProps(edges[j]), context[edges[j].head], context[edges[j].tail])
  {
    if n > 0 {
      EdgesWiredAll(lines, connections, l0, c0, context, edges, n - 1);
    }
  }

  /** Line 71 of `generate` as the edge loop sees it: one more line,
      carrying `props`, attached to `head` and `tail`. */
  method Associate(canvas: Canvas, head: ClassBox, tail: ClassBox, props: map<string, string>)
    modifies canvas, head, tail
    requires head.Valid() && tail.Valid()
    ensures head.Valid() && tail.Valid()
    ensures |canvas.lines| == |old(canvas.lines)| + 1 && canvas.lines[..|old(canvas.lines)|] == old(canvas.lines)
    ensures |canvas.connections| == |old(canvas.connections)| + 2
    ensures canvas.connections[..|old(canvas.connections)|] == old(canvas.connections)
    ensures Associated(canvas.lines, canvas.connections, |old(canvas.lines)|, |old(canvas.connections)|, props, head, tail)
    ensures canvas.boxes == old(canvas.boxes)
    ensures canvas.constraints == old(canvas.constraints) + PairConstraints(head, tail, |old(head.handles)|, |old(tail.handles)|)
    ensures head != tail ==> Grown(head.handles, head.ports, old(head.handles), old(head.ports), 2)
    ensures head != tail ==> Grown(tail.handles, tail.ports, old(tail.handles), old(tail.ports), 2)
    ensures head == tail ==> Grown(head.handles, head.ports, old(head.handles), old(head.ports), 4)
    ensures Placement(head) == old(Placement(head)) && Placement(tail) == old(Placement(tail))
  {
    var line := SetAssociation(canvas, head, tail, props);
  }

  /** The size and position of a box, which the edge loop leaves alone. */
  function Placement(b: ClassBox): (real, real, Point)
    reads b
  {
    (b.width, b.height, b.origin)
  }

  /** A box placed for a node whose position parses: the node's properties
      and size, at the node's position. */
  predicate PlacedFor(b: ClassBox, n: GvNode)
    reads b
  {
    && ParsePos(n.pos).Ok?
    && b.properties == NodeProps(n)
    && Placement(b) == (n.width, n.height, Point(ParsePos(n.pos).value.0 as real, ParsePos(n.pos).value.1 as real))
  }

  /** The state of the edge loop after `i` edges: the lines and
      connections there were before, then those of the first `i` edges. */
  predicate EdgesDone(lines: seq<AssociationLine>, connections: seq<Connection>,
                      lines0: seq<AssociationLine>, connections0: seq<Connection>,
                      context: map<Key, ClassBox>, edges: seq<GvEdge>, i: nat)
  {
    && i <= |edges|
    && |lines| == |lines0| + i && |connections| == |connections0| + 2 * i
    && lines[..|lines0|] == lines0 && connections[..|connections0|] == connections0
    && EdgesWired(lines, connections, |lines0|, |connections0|, context, edges, i)
  }

  /** One iteration of the edge loop, for an edge whose keys resolve. */
  method WireEdge(canvas: Canvas, context: map<Key, ClassBox>, edges: seq<GvEdge>, i: nat,
                  ghost lines0: seq<AssociationLine>, ghost connections0: seq<Connection>)
    modifies canvas, context.Values
    requires i < |edges| && edges[i].head in context && edges[i].tail in context
    requires forall k | k in context :: context[k].Valid()
    requires EdgesDone(canvas.lines, canvas.connections, lines0, connections0, context, edges, i)
    ensures forall k | k in context :: context[k].Valid()
    ensures EdgesDone(canvas.lines, canvas.connections, lines0, connections0, context, edges, i + 1)
    ensures canvas.boxes == old(canvas.boxes)
    ensures forall b | b in context.Values :: Placement(b) == old(Placement(b))
  {
    var edge := edges[i];
    ghost var ls, cs := canvas.lines, canvas.connections;
    Associate(canvas, context[edge.head], context[edge.tail], EdgeProps(edge));
    EdgesWiredKept(ls, cs, canvas.lines, canvas.connections, |lines0|, |connections0|, context, edges, i);
    assert canvas.lines[..|lines0|] == canvas.lines[..|ls|][..|lines0|];
    assert canvas.connections[..|connections0|] == canvas.connections[..|cs|][..|connections0|];
  }

  /** The edge loop of `generate`: both endpoint keys are looked up first
      (KeyError, and no association, for a missing one); then one
      association from the head's box to the tail's box carrying the edge's
      arrow properties. */
  method ConnectEdges(canvas: Canvas, context: map<Key, ClassBox>, edges: seq<GvEdge>) returns (err: Option<PyError>)
    modifies canvas, context.Values
    requires forall k | k in context :: context[k].Valid()
    ensures forall k | k in context :: context[k].Valid()
    ensures err.None? <==> FirstUnresolved(context, edges) == |edges|
    ensures err.Some? ==> err == Some(KeyError)
    ensures EdgesDone(canvas.lines, canvas.connections, old(canvas.lines), old(canvas.connections),
                      context, edges, FirstUnresolved(context, edges))
    ensures canvas.boxes == old(canvas.boxes)
    ensures forall b | b in context.Values :: Placement(b) == old(Placement(b))
  {
    ghost var lines0, connections0 := canvas.lines, canvas.connections;
    var i := 0;
    assert canvas.lines[..|lines0|] == lines0 && canvas.connections[..|connections0|] == connections0;
    while i < |edges|
      invariant forall k | k in context :: context[k].Valid()
      invariant EdgesDone(canvas.lines, canvas.connections, lines0, connections0, context, edges, i)
      invariant canvas.boxes == old(canvas.boxes)
      invariant forall b | b in context.Values :: Placement(b) == old(Placement(b))
    {
      var edge := edges[i];
      if edge.head !in context || edge.tail !in context {
        EdgesWiredResolved(canvas.lines, canvas.connections, |lines0|, |connections0|, context, edges, i);
        FirstUnresolvedAt(context, edges, i);
        return Some(KeyError);
      }
      WireEdge(canvas, context, edges, i, lines0, connections0);
      i := i + 1;
    }
    EdgesWiredResolved(canvas.lines, canvas.connections, |lines0|, |connections0|, context, edges, i);
    FirstUnresolvedAt(context, edges, i);
    return None;
  }

  /** `generate`: the node loop, then, if every node was placed, the edge
      loop over the resulting registry. The boxes placed are returned for
      the contract's sake. */
  method Generate(canvas: Canvas, nodes: seq<GvNode>, edges: seq<GvEdge>, context: map<Key, ClassBox>)
      returns (ctx: map<Key, ClassBox>, ghost boxes: seq<ClassBox>, err: Option<PyError>)
    modifies canvas, context.Values
    requires forall k | k in context :: context[k].Valid()
    ensures forall k | k in ctx :: ctx[k].Valid()
    ensures err.None? <==> FirstUnparsable(nodes) == |nodes| && FirstUnresolved(ctx, edges) == |edges|
    ensures |boxes| == FirstUnparsable(nodes) && canvas.boxes == old(canvas.boxes) + boxes
    ensures forall b | b in boxes :: fresh(b)
    ensures ctx == Registered(context, nodes[..|boxes|], boxes)
    ensures forall j | 0 <= j < |boxes| :: PlacedFor(boxes[j], nodes[j])
    ensures FirstUnparsable(nodes) < |nodes| ==>
              && err == Some(ValueError)
              && canvas.lines == old(canvas.lines) && canvas.connections == old(canvas.connections)
              && canvas.constraints == old(canvas.constraints)
    ensures FirstUnparsable(nodes) == |nodes| ==>
              EdgesDone(canvas.lines, canvas.connections, old(canvas.lines), old(canvas.connections),
                        ctx, edges, FirstUnresolved(ctx, edges))
    ensures FirstUnparsable(nodes) == |nodes| ==> ctx.Keys == context.Keys + set j | 0 <= j < |nodes| :: NodeKey(nodes[j])
  {
    ghost var at;
    ctx, boxes, at, err := PlaceNodes(canvas, nodes, context);
    ValidAfterPlacing(context, nodes, ctx, boxes, at);
    PlacedAfterPlacing(nodes, boxes, at);
    if err.Some? {
      return;
    }
    assert nodes[..|boxes|] == nodes;
    RegisteredKeys(context, nodes, boxes);
    err := ConnectPlaced(canvas, ctx, edges, nodes, boxes);
  }

  /** The edge loop after the node loop: it moves and resizes no box, so
      every box stays placed for its node. */
  method ConnectPlaced(canvas: Canvas, context: map<Key, ClassBox>, edges: seq<GvEdge>, ghost nodes: seq<GvNode>,
                       ghost boxes: seq<ClassBox>) returns (err: Option<PyError>)
    modifies canvas, context.Values
    requires forall k | k in context :: context[k].Valid()
    requires |boxes| <= |nodes| && forall j | 0 <= j < |boxes| :: PlacedFor(boxes[j], nodes[j])
    ensures forall k | k in context :: context[k].Valid()
    ensures err.None? <==> FirstUnresolved(context, edges) == |edges|
    ensures err.Some? ==> err == Some(KeyError)
    ensures EdgesDone(canvas.lines, canvas.connections, old(canvas.lines), old(canvas.connections),
                      context, edges, FirstUnresolved(context, edges))
    ensures canvas.boxes == old(canvas.boxes)
    ensures forall j | 0 <= j < |boxes| :: PlacedFor(boxes[j], nodes[j])
  {
    err := ConnectEdges(canvas, context, edges);
    forall j | 0 <= j < |boxes|
      ensures PlacedFor(boxes[j], nodes[j])
    {
      assert Placement(boxes[j]) == old(Placement(boxes[j]));
    }
  }

  /** Each box the node loop made is placed for its node. */
  lemma PlacedAfterPlacing(nodes: seq<GvNode>, boxes: seq<ClassBox>, at: seq<(int, int)>)
    requires |boxes| <= |nodes| && |boxes| == |at|
    requires ParsedAs(nodes, at, |boxes|) && AllMade(boxes, nodes, at)
    ensures forall j | 0 <= j < |boxes| :: PlacedFor(boxes[j], nodes[j])
  {
    ParsedAsAll(nodes, at, |boxes|);
  }

  // ---------------------------------------------------------------------
  // CanvasWriter

  /** The edge styles `CanvasWriter` hands to the diagram writer, in order. */
  const Styles: seq<map<string, string>> := [
    map["arrowtail" := "none", "arrowhead" := "open"],
    map["arrowtail" := "none", "arrowhead" := "empty"],
    map["arrowtail" := "node", "arrowhead" := "empty", "style" := "dashed"],
    map["fontcolor" := "green", "arrowtail" := "none", "arrowhead" := "diamond", "style" := "solid"]]

  /** Only the last three styles can be drawn: the first one's `open` head
      is not in the head-style table of `AssociationLine.draw`. */
  lemma StylesDrawable(i: nat)
    requires i < |Styles|
    ensures HeadDrawer(Styles[i]).Ok? <==> i != 0
    ensures i == 3 ==> HeadDrawer(Styles[i]) == Ok(DrawHeadComposite)
    ensures i == 1 || i == 2 ==> HeadDrawer(Styles[i]) == Ok(DrawHeadNone)
  {
    assert Styles[i]["arrowhead"] == ["open", "empty", "empty", "diamond"][i];
  }

  /** The diagram object `get_values` reads: its title and shape, the `file`
      attribute of its node's parent if it has one, and its node's line. */
  datatype DiagramObject = DiagramObject(title: string, shape: string, parentFile: Option<string>, lineno: int)

  datatype Value = Text(s: string) | Number(n: int)

  /** `CanvasWriter.get_title`. */
  function GetTitle(obj: DiagramObject): string
  {
    obj.title
  }

  /** `CanvasWriter.get_values`. */
  function GetValues(obj: DiagramObject): (d: map<string, Value>)
    ensures "label" in d && d["label"] == Text(obj.title)
    ensures ("filepath" in d) <==> obj.shape == "class" && obj.parentFile.Some?
    ensures ("lineno" in d) <==> ("filepath" in d)
    ensures "filepath" in d ==> d["filepath"] == Text(obj.parentFile.value) && d["lineno"] == Number(obj.lineno)
    ensures d.Keys <= {"label", "filepath", "lineno"}
  {
    var d := map["label" := Text(obj.title)];
    if obj.shape == "class" && obj.parentFile.Some? then
      d["filepath" := Text(obj.parentFile.value)]["lineno" := Number(obj.lineno)]
    else d
  }
}
