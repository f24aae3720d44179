/**
 * The diagram model as the component sees it: the graph, the viewport (zoom level in
 * percent and canvas offset) and the grid size. Each method is one of the model calls
 * the component makes, and is tied to the function of module GraphModel that it performs.
 */
module Diagram {
  import opened Wrappers
  import opened Geometry
  import opened GraphModel
  import opened Gestures

  class DiagramModel {
    var graph: Graph
    var zoomLevel: real
    var offsetX: real
    var offsetY: real
    const gridSize: nat

    /** The zoom factor never collapses, and the id counter is above every link id. */
    ghost predicate Valid()
      reads this
    {
      zoomLevel > 0.0 && FreshUids(graph)
    }

    constructor(gridSize: nat)
      ensures graph == Graph(map[], map[], 0) && zoomLevel == 100.0 && offsetX == 0.0 && offsetY == 0.0
      ensures this.gridSize == gridSize && Valid()
    {
      graph := Graph(map[], map[], 0);
      zoomLevel := 100.0;
      offsetX := 0.0;
      offsetY := 0.0;
      this.gridSize := gridSize;
    }

    function View(): (vp: Viewport)
      reads this
      ensures vp.zoomLevel == zoomLevel && vp.offsetX == offsetX && vp.offsetY == offsetY
    {
      Viewport(zoomLevel, offsetX, offsetY)
    }

    /** `UID()`: a fresh id; the counter moves past it. */
    method Uid() returns (id: ID)
      requires Valid()
      modifies this`graph
      ensures Valid() && id == old(graph.nextUid) && graph == old(graph).(nextUid := id + 1)
      ensures id !in graph.links
    {
      id := graph.nextUid;
      graph := graph.(nextUid := id + 1);
    }

    method ClearSelection()
      requires Valid()
      modifies this`graph
      ensures Valid() && graph == GraphModel.ClearSelection(old(graph))
    {
      graph := GraphModel.ClearSelection(graph);
    }

    /** `addLink(link)` with an id drawn from the counter. */
    method AddLink(lid: ID, link: Link)
      requires Valid() && lid < graph.nextUid
      modifies this`graph
      ensures Valid() && graph == GraphModel.AddLink(old(graph), lid, link)
    {
      graph := GraphModel.AddLink(graph, lid, link);
    }

    /** `port.addLink(link)` for a port of this diagram. */
    method AddPortLink(p: PortRef, lid: ID)
      requires Valid()
      modifies this`graph
      ensures Valid() && graph == GraphModel.AddPortLink(old(graph), p, lid)
    {
      graph := GraphModel.AddPortLink(graph, p, lid);
    }

    /** `port.removeLink(link)`. */
    method RemovePortLink(p: PortRef, lid: ID)
      requires Valid()
      modifies this`graph
      ensures Valid() && graph == GraphModel.RemovePortLink(old(graph), p, lid)
    {
      graph := GraphModel.RemovePortLink(graph, p, lid);
    }

    /** `link.setTargetPort(port)`. */
    method SetTargetPort(lid: ID, p: Option<PortRef>)
      requires Valid() && lid in graph.links
      modifies this`graph
      ensures Valid() && graph == GraphModel.SetTargetPort(old(graph), lid, p)
    {
      graph := GraphModel.SetTargetPort(graph, lid, p);
    }

    /** `link.remove()`. */
    method RemoveLink(lid: ID)
      requires Valid()
      modifies this`graph
      ensures Valid() && graph == GraphModel.RemoveLink(old(graph), lid)
    {
      graph := GraphModel.RemoveLink(graph, lid);
    }

    /** `link.removePointsAfter(point)`. */
    method RemovePointsAfter(lid: ID, pid: ID)
      requires Valid() && lid in graph.links
      modifies this`graph
      ensures Valid()
      ensures graph == WithLink(old(graph), lid, old(graph.links[lid]).(points := GraphModel.RemovePointsAfter(old(graph.links[lid].points), pid)))
    {
      var link := graph.links[lid];
      graph := WithLink(graph, lid, link.(points := GraphModel.RemovePointsAfter(link.points, pid)));
    }

    /** `link.removePointsBefore(point)`. */
    method RemovePointsBefore(lid: ID, pid: ID)
      requires Valid() && lid in graph.links
      modifies this`graph
      ensures Valid()
      ensures graph == WithLink(old(graph), lid, old(graph.links[lid]).(points := GraphModel.RemovePointsBefore(old(graph.links[lid].points), pid)))
    {
      var link := graph.links[lid];
      graph := WithLink(graph, lid, link.(points := GraphModel.RemovePointsBefore(link.points, pid)));
    }

    /** `node.setSelected(b)`. */
    method SetNodeSelected(n: ID, b: bool)
      requires Valid() && n in graph.nodes
      modifies this`graph
      ensures Valid() && graph == old(graph).(nodes := old(graph.nodes)[n := old(graph.nodes[n]).(selected := b)])
    {
      graph := graph.(nodes := graph.nodes[n := graph.nodes[n].(selected := b)]);
    }

    /** `link.setSelected()`. */
    method SetLinkSelected(l: ID)
      requires Valid() && l in graph.links
      modifies this`graph
      ensures Valid() && graph == WithLink(old(graph), l, old(graph.links[l]).(selected := true))
    {
      graph := WithLink(graph, l, graph.links[l].(selected := true));
    }

    /** `point.setSelected(b)` for the point at index `i` of link `l`. */
    method SetPointSelected(l: ID, i: nat, b: bool)
      requires Valid() && l in graph.links && i < |graph.links[l].points|
      modifies this`graph
      ensures Valid()
      ensures var pts := old(graph.links[l].points);
        graph == WithLink(old(graph), l, old(graph.links[l]).(points := pts[i := pts[i].(selected := b)]))
    {
      var pts := graph.links[l].points;
      graph := WithLink(graph, l, graph.links[l].(points := pts[i := pts[i].(selected := b)]));
    }

    /** `node.setX(..)`, `node.setY(..)` and the port refresh after it. */
    method MoveNodeTo(n: ID, c: Coords)
      requires Valid() && n in graph.nodes
      modifies this`graph
      ensures Valid() && graph == old(graph).(nodes := old(graph.nodes)[n := MoveNode(old(graph.nodes[n]), c)])
    {
      graph := graph.(nodes := graph.nodes[n := MoveNode(graph.nodes[n], c)]);
    }

    /** `point.setX(..)` and `point.setY(..)` for the point at index `i` of link `l`. */
    method MovePointTo(l: ID, i: nat, c: Coords)
      requires Valid() && l in graph.links && i < |graph.links[l].points|
      modifies this`graph
      ensures Valid()
      ensures var pts := old(graph.links[l].points);
        graph == WithLink(old(graph), l, old(graph.links[l]).(points := pts[i := pts[i].(coords := c)]))
    {
      var pts := graph.links[l].points;
      graph := WithLink(graph, l, graph.links[l].(points := pts[i := pts[i].(coords := c)]));
    }

    method SetOffset(x: real, y: real)
      modifies this`offsetX, this`offsetY
      ensures offsetX == x && offsetY == y
    {
      offsetX := x;
      offsetY := y;
    }

    method SetZoomLevel(z: real)
      requires z > 0.0
      modifies this`zoomLevel
      ensures zoomLevel == z
    {
      zoomLevel := z;
    }
  }
}
