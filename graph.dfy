/**
 * The graph the diagram component manipulates: nodes owning ports, links made of
 * points with optional source and target ports. The node, port, link and point
 * models are records inside the diagram's maps; each operation the component calls
 * on one of them is a function here that rebuilds the graph.
 */
module GraphModel {
  import opened Wrappers
  import opened Geometry

  /** Entity ids. `UID()` is replaced by the graph's counter `nextUid`, which never repeats. */
  type ID = nat

  /** A port, addressed through the node that owns it. */
  datatype PortRef = PortRef(node: ID, port: ID)

  /**
   * A port. `offset` stands for where the page renders it relative to its node
   * (what `getPortCoords` measures); `refused` is the set of ports
   * `canLinkToPort` turns down; `links` the ids of the links attached to it.
   */
  datatype Port = Port(
    portType: string,
    linkType: string,
    coords: Coords,
    offset: Coords,
    locked: bool,
    links: set<ID>,
    refused: set<PortRef>)

  datatype Node = Node(nodeType: string, coords: Coords, selected: bool, locked: bool, ports: map<ID, Port>)

  datatype Point = Point(id: ID, coords: Coords, selected: bool)

  datatype Link = Link(
    linkType: string,
    source: Option<PortRef>,
    target: Option<PortRef>,
    points: seq<Point>,
    selected: bool)

  datatype Graph = Graph(nodes: map<ID, Node>, links: map<ID, Link>, nextUid: nat)

  /** The counter is above every link id, so it is a fresh id. */
  ghost predicate FreshUids(g: Graph)
  {
    forall l :: l in g.links ==> l < g.nextUid
  }

  // ---------------------------------------------------------------------------
  // Ports

  predicate HasPort(g: Graph, p: PortRef)
  {
    p.node in g.nodes && p.port in g.nodes[p.node].ports
  }

  function PortOf(g: Graph, p: PortRef): Option<Port>
  {
    if HasPort(g, p) then Some(g.nodes[p.node].ports[p.port]) else None
  }

  /** `port.getLinks()`: the ids of the links registered with the port. */
  function PortLinks(g: Graph, p: PortRef): set<ID>
  {
    if PortOf(g, p).Some? then PortOf(g, p).value.links else {}
  }

  /** `source.canLinkToPort(target)`; a port outside the graph refuses nothing. */
  predicate CanLinkToPort(g: Graph, source: PortRef, target: PortRef)
  {
    !(PortOf(g, source).Some? && target in PortOf(g, source).value.refused)
  }

  /** `engine.isModelLocked(port)`: the port or the node owning it is locked. */
  predicate IsPortLocked(g: Graph, p: PortRef)
  {
    HasPort(g, p) && (g.nodes[p.node].locked || g.nodes[p.node].ports[p.port].locked)
  }

  /** Replace one port record, leaving everything else as it is. */
  function WithPort(g: Graph, p: PortRef, port: Port): (r: Graph)
    requires HasPort(g, p)
    ensures r.links == g.links && r.nextUid == g.nextUid && r.nodes.Keys == g.nodes.Keys
    ensures forall q :: HasPort(r, q) == HasPort(g, q)
    ensures forall q :: q != p ==> PortOf(r, q) == PortOf(g, q)
    ensures PortOf(r, p) == Some(port)
    ensures forall n :: n in g.nodes ==>
      r.nodes[n].coords == g.nodes[n].coords && r.nodes[n].selected == g.nodes[n].selected
      && r.nodes[n].locked == g.nodes[n].locked
  {
    var node := g.nodes[p.node];
    g.(nodes := g.nodes[p.node := node.(ports := node.ports[p.port := port])])
  }

  /** `port.addLink(link)`. */
  function AddPortLink(g: Graph, p: PortRef, lid: ID): (r: Graph)
    ensures r.links == g.links && r.nextUid == g.nextUid && r.nodes.Keys == g.nodes.Keys
    ensures forall q :: HasPort(r, q) == HasPort(g, q)
    ensures forall q :: q != p ==> PortOf(r, q) == PortOf(g, q)
    ensures PortLinks(r, p) == if HasPort(g, p) then PortLinks(g, p) + {lid} else {}
    ensures forall q, t :: CanLinkToPort(r, q, t) == CanLinkToPort(g, q, t)
    ensures forall n :: n in g.nodes ==>
      r.nodes[n].coords == g.nodes[n].coords && r.nodes[n].selected == g.nodes[n].selected
      && r.nodes[n].locked == g.nodes[n].locked
  {
    if HasPort(g, p) then
      var port := g.nodes[p.node].ports[p.port];
      WithPort(g, p, port.(links := port.links + {lid}))
    else g
  }

  /** `port.removeLink(link)`. */
  function RemovePortLink(g: Graph, p: PortRef, lid: ID): (r: Graph)
    ensures r.links == g.links && r.nextUid == g.nextUid && r.nodes.Keys == g.nodes.Keys
    ensures forall q :: HasPort(r, q) == HasPort(g, q)
    ensures forall q :: q != p ==> PortOf(r, q) == PortOf(g, q)
    ensures PortLinks(r, p) == PortLinks(g, p) - {lid}
    ensures forall q, t :: CanLinkToPort(r, q, t) == CanLinkToPort(g, q, t)
    ensures forall n :: n in g.nodes ==>
      r.nodes[n].coords == g.nodes[n].coords && r.nodes[n].selected == g.nodes[n].selected
      && r.nodes[n].locked == g.nodes[n].locked
  {
    if HasPort(g, p) then
      var port := g.nodes[p.node].ports[p.port];
      WithPort(g, p, port.(links := port.links - {lid}))
    else g
  }

  // ---------------------------------------------------------------------------
  // Links

  /** `diagram.addLink(link)`. */
  function AddLink(g: Graph, lid: ID, link: Link): Graph
  {
    g.(links := g.links[lid := link])
  }

  /** Replace one link record in the diagram. */
  function WithLink(g: Graph, lid: ID, link: Link): Graph
  {
    g.(links := g.links[lid := link])
  }

  /** `link.setTargetPort(port)`: the link's target end, registered with the new port. */
  function SetTargetPort(g: Graph, lid: ID, p: Option<PortRef>): (r: Graph)
    requires lid in g.links
    ensures r.links == g.links[lid := g.links[lid].(target := p)] && r.nextUid == g.nextUid
    ensures forall q, t :: CanLinkToPort(r, q, t) == CanLinkToPort(g, q, t)
    ensures forall q :: HasPort(r, q) == HasPort(g, q)
    ensures forall q :: PortLinks(r, q) == if p == Some(q) && HasPort(g, q) then PortLinks(g, q) + {lid} else PortLinks(g, q)
  {
    var g1 := WithLink(g, lid, g.links[lid].(target := p));
    if p.Some? then AddPortLink(g1, p.value, lid) else g1
  }

  /** `link.remove()`: out of the diagram and out of both of its ports. */
  function RemoveLink(g: Graph, lid: ID): (r: Graph)
    ensures r.links == g.links - {lid} && r.nextUid == g.nextUid
    ensures forall q, t :: CanLinkToPort(r, q, t) == CanLinkToPort(g, q, t)
    ensures forall q :: PortLinks(r, q) <= PortLinks(g, q)
  {
    if lid in g.links then
      var link := g.links[lid];
      var g1 := if link.source.Some? then RemovePortLink(g, link.source.value, lid) else g;
      var g2 := if link.target.Some? then RemovePortLink(g1, link.target.value, lid) else g1;
      g2.(links := g2.links - {lid})
    else g
  }

  // ---------------------------------------------------------------------------
  // Points

  /** `link.getPointIndex(point)`: the first index holding the point, or -1. */
  function PointIndex(points: seq<Point>, pid: ID): (i: int)
    ensures -1 <= i < |points|
    ensures i >= 0 ==> points[i].id == pid && forall j :: 0 <= j < i ==> points[j].id != pid
    ensures i == -1 ==> forall j :: 0 <= j < |points| ==> points[j].id != pid
  {
    if points == [] then -1
    else if points[0].id == pid then 0
    else
      var k := PointIndex(points[1..], pid);
      if k < 0 then -1 else k + 1
  }

  /** `link.removePointsBefore(point)`: keep the point and those after it. */
  function RemovePointsBefore(points: seq<Point>, pid: ID): (r: seq<Point>)
    ensures PointIndex(points, pid) >= 0 ==> r == points[PointIndex(points, pid)..]
    ensures PointIndex(points, pid) < 0 ==> r == points
  {
    var i := PointIndex(points, pid);
    if i >= 0 then points[i..] else points
  }

  /** `link.removePointsAfter(point)`: keep the points up to and including it. */
  function RemovePointsAfter(points: seq<Point>, pid: ID): (r: seq<Point>)
    ensures PointIndex(points, pid) >= 0 ==> r == points[..PointIndex(points, pid) + 1]
    ensures PointIndex(points, pid) < 0 ==> r == points
  {
    var i := PointIndex(points, pid);
    if i >= 0 then points[..i + 1] else points
  }

  /** `link.removeMiddlePoints()`: only the first and the last point stay. */
  function RemoveMiddlePoints(points: seq<Point>): (r: seq<Point>)
    ensures |points| <= 2 ==> r == points
    ensures |points| > 2 ==> r == [points[0], points[|points| - 1]]
  {
    if |points| > 2 then [points[0], points[|points| - 1]] else points
  }

  /** `point.isConnectedToPort()`: the first point of a link with a source, or the last of one with a target. */
  predicate IsConnectedToPort(link: Link, i: int)
  {
    (i == 0 && link.source.Some?) || (i == |link.points| - 1 && link.target.Some?)
  }

  // ---------------------------------------------------------------------------
  // Selection and positions

  function DeselectPoints(points: seq<Point>): (r: seq<Point>)
    ensures |r| == |points|
    ensures forall i :: 0 <= i < |r| ==> r[i] == points[i].(selected := false)
  {
    seq(|points|, i requires 0 <= i < |points| => points[i].(selected := false))
  }

  /** `diagram.clearSelection()`: every node, link and point becomes unselected. */
  function ClearSelection(g: Graph): (r: Graph)
    ensures r.nodes.Keys == g.nodes.Keys && r.links.Keys == g.links.Keys && r.nextUid == g.nextUid
    ensures forall n :: n in r.nodes ==> r.nodes[n] == g.nodes[n].(selected := false)
    ensures forall l :: l in r.links ==>
      r.links[l] == g.links[l].(selected := false, points := DeselectPoints(g.links[l].points))
  {
    Graph(
      map n | n in g.nodes :: g.nodes[n].(selected := false),
      map l | l in g.links :: g.links[l].(selected := false, points := DeselectPoints(g.links[l].points)),
      g.nextUid)
  }

  /**
   * `diagram.getGridPosition(v)`: the nearest multiple of the grid size (halves round
   * up); the identity when the grid size is 0.
   */
  function GridPosition(gridSize: nat, v: real): (r: real)
    ensures gridSize == 0 ==> r == v
    ensures gridSize > 0 ==> r / gridSize as real == (r / gridSize as real).Floor as real
    ensures gridSize > 0 ==> v - gridSize as real / 2.0 < r <= v + gridSize as real / 2.0
  {
    if gridSize == 0 then v
    else
      var g := gridSize as real;
      var k := ((v + g / 2.0) / g).Floor;
      GridBounds(v, g, k);
      assert (k as real * g) / g == k as real;
      k as real * g
  }

  lemma GridBounds(v: real, g: real, k: int)
    requires g > 0.0 && k == ((v + g / 2.0) / g).Floor
    ensures v - g / 2.0 < k as real * g <= v + g / 2.0
  {
    var q := (v + g / 2.0) / g;
    var kr := k as real;
    assert kr <= q < kr + 1.0;
    var qg := q * g;
    assert qg == v + g / 2.0;
    var kg := kr * g;
    var b := q - kr;
    var bg := b * g;
    assert bg >= 0.0;
    assert bg == qg - kg;
    var d := kr + 1.0 - q;
    var dg := d * g;
    assert dg > 0.0;
    assert dg == kg + g - qg;
  }

  /** Move a node and recompute the coordinates of every port it owns. */
  function MoveNode(node: Node, c: Coords): (r: Node)
    ensures r.coords == c && r.selected == node.selected && r.locked == node.locked
    ensures r.ports.Keys == node.ports.Keys
    ensures forall p :: p in r.ports ==> r.ports[p] == node.ports[p].(coords := Plus(c, node.ports[p].offset))
  {
    node.(coords := c, ports := map p | p in node.ports :: node.ports[p].(coords := Plus(c, node.ports[p].offset)))
  }
}
