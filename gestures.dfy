/**
 * The three pointer gestures of the diagram component (rubber-band selection, moving
 * the selected items, dragging the canvas) and what each does to the graph, stated as
 * functions. The component's handlers are proved to follow these; the lemmas below say
 * what the functions guarantee.
 */
module Gestures {
  import opened Wrappers
  import opened Geometry
  import opened GraphModel

  /** What the element under the pointer resolves to (`getMouseElement(..).model`). */
  datatype ModelRef =
    | PortModel(port: PortRef)
    | PointModel(link: ID, point: ID)
    | LinkModel(link: ID)
    | NodeModel(node: ID)

  /** One moved item and where it was when the gesture started. */
  datatype SelectionModel = SelectionModel(model: ModelRef, initial: Coords)

  /** The action in progress. */
  datatype Action =
    | SelectingAction(mouseX: real, mouseY: real, mouseX2: real, mouseY2: real)
    | MoveItemsAction(mouseX: real, mouseY: real, selectionModels: seq<SelectionModel>)
    | MoveCanvasAction(mouseX: real, mouseY: real, initialOffsetX: real, initialOffsetY: real)

  /** Zoom level (in percent) and canvas offset of the diagram. */
  datatype Viewport = Viewport(zoomLevel: real, offsetX: real, offsetY: real)

  function Min(a: real, b: real): (m: real)
    ensures m <= a && m <= b && (m == a || m == b)
  {
    if b > a then a else b
  }

  function Max(a: real, b: real): (m: real)
    ensures m >= a && m >= b && (m == a || m == b)
  {
    if b < a then a else b
  }

  // ---------------------------------------------------------------------------
  // Rubber-band selection

  /**
   * `SelectingAction.containsElement(x, y, diagram)`: the model point, scaled by the
   * zoom factor and shifted by the offset, lies strictly inside the box spanned by the
   * two corners.
   */
  predicate ContainsElement(a: Action, c: Coords, vp: Viewport)
    requires a.SelectingAction?
  {
    var z := vp.zoomLevel / 100.0;
    var sx := c.x * z + vp.offsetX;
    var sy := c.y * z + vp.offsetY;
    Min(a.mouseX, a.mouseX2) < sx < Max(a.mouseX, a.mouseX2)
    && Min(a.mouseY, a.mouseY2) < sy < Max(a.mouseY, a.mouseY2)
  }

  /** Every point of a link is inside the box. */
  predicate AllPointsInside(points: seq<Point>, a: Action, vp: Viewport)
    requires a.SelectingAction?
  {
    forall i :: 0 <= i < |points| ==> ContainsElement(a, points[i].coords, vp)
  }

  /** The points of one link after a selecting move: each selected exactly when inside. */
  function BoxSelectPoints(points: seq<Point>, a: Action, vp: Viewport): (r: seq<Point>)
    requires a.SelectingAction?
    ensures |r| == |points|
    ensures forall i :: 0 <= i < |r| ==>
      r[i].id == points[i].id && r[i].coords == points[i].coords
      && (r[i].selected <==> ContainsElement(a, points[i].coords, vp))
  {
    seq(|points|, i requires 0 <= i < |points| =>
      points[i].(selected := ContainsElement(a, points[i].coords, vp)))
  }

  /** One link after a selecting move: a link is selected when all its points are inside, and never deselected. */
  function BoxSelectLink(link: Link, a: Action, vp: Viewport): Link
    requires a.SelectingAction?
  {
    link.(points := BoxSelectPoints(link.points, a, vp),
          selected := if AllPointsInside(link.points, a, vp) then true else link.selected)
  }

  /** The graph after one selecting move over the current box. */
  function BoxSelect(g: Graph, a: Action, vp: Viewport): (r: Graph)
    requires a.SelectingAction?
    ensures r.nodes.Keys == g.nodes.Keys && r.links.Keys == g.links.Keys && r.nextUid == g.nextUid
  {
    g.(nodes := map n | n in g.nodes :: g.nodes[n].(selected := ContainsElement(a, g.nodes[n].coords, vp)),
       links := map l | l in g.links :: BoxSelectLink(g.links[l], a, vp))
  }

  /**
   * What a selecting move decides: nodes and points are selected exactly when inside
   * the box; a link becomes selected when all its points are inside and otherwise keeps
   * its flag; positions, ports and ends are untouched.
   */
  lemma BoxSelectSelects(g: Graph, a: Action, vp: Viewport)
    requires a.SelectingAction?
    ensures forall n :: n in g.nodes ==>
      var m := BoxSelect(g, a, vp).nodes[n];
      m.coords == g.nodes[n].coords && m.ports == g.nodes[n].ports
      && (m.selected <==> ContainsElement(a, g.nodes[n].coords, vp))
    ensures forall l :: l in g.links ==>
      var k := BoxSelect(g, a, vp).links[l];
      k.source == g.links[l].source && k.target == g.links[l].target
      && |k.points| == |g.links[l].points|
      && (k.selected <==> g.links[l].selected || AllPointsInside(g.links[l].points, a, vp))
    ensures forall l, i :: l in g.links && 0 <= i < |g.links[l].points| ==>
      BoxSelect(g, a, vp).links[l].points[i].coords == g.links[l].points[i].coords
      && (BoxSelect(g, a, vp).links[l].points[i].selected <==> ContainsElement(a, g.links[l].points[i].coords, vp))
  {
  }

  // ---------------------------------------------------------------------------
  // Moving the selected items

  /** The coordinates a moved item gets, for a pointer travel `amount` at zoom factor `z`. */
  function MovedCoords(m: SelectionModel, amount: Coords, z: real, gridSize: nat, snapWhole: bool): (c: Coords)
    requires z != 0.0
  {
    if snapWhole then
      Coords(GridPosition(gridSize, m.initial.x + amount.x / z), GridPosition(gridSize, m.initial.y + amount.y / z))
    else
      Coords(m.initial.x + GridPosition(gridSize, amount.x / z), m.initial.y + GridPosition(gridSize, amount.y / z))
  }

  /**
   * One item of a move: a node snaps to the grid and takes its ports along; a free
   * point snaps to the grid; a point attached to a port moves by the snapped travel.
   */
  function MoveOne(g: Graph, m: SelectionModel, amount: Coords, z: real, gridSize: nat): Graph
    requires z != 0.0
  {
    match m.model
    case NodeModel(n) =>
      if n in g.nodes then g.(nodes := g.nodes[n := MoveNode(g.nodes[n], MovedCoords(m, amount, z, gridSize, true))])
      else g
    case PointModel(l, pid) =>
      if l in g.links && PointIndex(g.links[l].points, pid) >= 0 then
        var link := g.links[l];
        var i := PointIndex(link.points, pid);
        var c := MovedCoords(m, amount, z, gridSize, !IsConnectedToPort(link, i));
        WithLink(g, l, link.(points := link.points[i := link.points[i].(coords := c)]))
      else g
    case _ => g
  }

  /** Every item of a move, in order. */
  function MoveAll(g: Graph, sel: seq<SelectionModel>, amount: Coords, z: real, gridSize: nat): Graph
    requires z != 0.0
    decreases |sel|
  {
    if sel == [] then g
    else MoveOne(MoveAll(g, sel[..|sel| - 1], amount, z, gridSize), sel[|sel| - 1], amount, z, gridSize)
  }

  /** Two graphs with the same entities, ports, ends and point ids: only positions differ. */
  ghost predicate SameShape(g: Graph, r: Graph)
  {
    r.nodes.Keys == g.nodes.Keys && r.links.Keys == g.links.Keys && r.nextUid == g.nextUid
    && (forall n :: n in g.nodes ==> r.nodes[n].ports.Keys == g.nodes[n].ports.Keys)
    && (forall l :: l in g.links ==>
          r.links[l].source == g.links[l].source && r.links[l].target == g.links[l].target
          && |r.links[l].points| == |g.links[l].points|
          && forall i :: 0 <= i < |g.links[l].points| ==> r.links[l].points[i].id == g.links[l].points[i].id)
  }

  lemma {:induction false} PointIndexSameIds(p: seq<Point>, q: seq<Point>, pid: ID)
    requires |p| == |q| && forall i :: 0 <= i < |p| ==> p[i].id == q[i].id
    ensures PointIndex(p, pid) == PointIndex(q, pid)
    decreases |p|
  {
    if p != [] {
      PointIndexSameIds(p[1..], q[1..], pid);
    }
  }

  /** A move changes positions only. */
  lemma {:induction false} MoveAllSameShape(g: Graph, sel: seq<SelectionModel>, amount: Coords, z: real, gridSize: nat)
    requires z != 0.0
    ensures SameShape(g, MoveAll(g, sel, amount, z, gridSize))
    decreases |sel|
  {
    if sel != [] {
      MoveAllSameShape(g, sel[..|sel| - 1], amount, z, gridSize);
    }
  }

  /** No item of the selection other than `m` itself refers to the same model. */
  ghost predicate ReferredOnce(sel: seq<SelectionModel>, m: SelectionModel)
  {
    m in sel && forall k :: 0 <= k < |sel| && sel[k].model == m.model ==> sel[k] == m
  }

  /**
   * A moved node ends at its starting position plus the pointer travel divided by the
   * zoom factor, snapped to the grid, and each of its ports at the node plus the port's
   * offset.
   */
  lemma {:induction false} MoveAllMovesNode(g: Graph, sel: seq<SelectionModel>, amount: Coords, z: real, gridSize: nat, m: SelectionModel)
    requires z != 0.0 && ReferredOnce(sel, m) && m.model.NodeModel? && m.model.node in g.nodes
    ensures var r := MoveAll(g, sel, amount, z, gridSize);
      var c := Coords(GridPosition(gridSize, m.initial.x + amount.x / z), GridPosition(gridSize, m.initial.y + amount.y / z));
      m.model.node in r.nodes && r.nodes[m.model.node].coords == c
      && forall p :: p in r.nodes[m.model.node].ports ==> r.nodes[m.model.node].ports[p].coords == Plus(c, r.nodes[m.model.node].ports[p].offset)
    decreases |sel|
  {
    var init := sel[..|sel| - 1];
    var last := sel[|sel| - 1];
    MoveAllSameShape(g, init, amount, z, gridSize);
    if last != m {
      InInit(sel, m);
      assert ReferredOnce(init, m) by {
        forall k | 0 <= k < |init| && init[k].model == m.model
          ensures init[k] == m
        {
          assert sel[k] == init[k];
        }
      }
      MoveAllMovesNode(g, init, amount, z, gridSize, m);
      assert last.model != m.model;
    }
  }

  /**
   * A moved point ends at its starting position plus the travel divided by the zoom
   * factor: snapped to the grid as a whole when the point is free, and with only the
   * travel snapped when it sits at an attached end of its link.
   */
  lemma {:induction false} MoveAllMovesPoint(g: Graph, sel: seq<SelectionModel>, amount: Coords, z: real, gridSize: nat, m: SelectionModel)
    requires z != 0.0 && ReferredOnce(sel, m) && m.model.PointModel? && m.model.link in g.links
    requires PointIndex(g.links[m.model.link].points, m.model.point) >= 0
    ensures var r := MoveAll(g, sel, amount, z, gridSize);
      var l := m.model.link;
      var i := PointIndex(g.links[l].points, m.model.point);
      var free := !IsConnectedToPort(g.links[l], i);
      l in r.links && i < |r.links[l].points|
      && r.links[l].points[i].id == m.model.point
      && (free ==>
            r.links[l].points[i].coords == MovedCoords(m, amount, z, gridSize, true))
      && (!free ==>
            r.links[l].points[i].coords == MovedCoords(m, amount, z, gridSize, false))
    decreases |sel|
  {
    var init := sel[..|sel| - 1];
    var last := sel[|sel| - 1];
    var l := m.model.link;
    var pid := m.model.point;
    MoveAllSameShape(g, init, amount, z, gridSize);
    var r1 := MoveAll(g, init, amount, z, gridSize);
    PointIndexSameIds(g.links[l].points, r1.links[l].points, pid);
    var i := PointIndex(g.links[l].points, pid);
    if last != m {
      InInit(sel, m);
      assert ReferredOnce(init, m) by {
        forall k | 0 <= k < |init| && init[k].model == m.model
          ensures init[k] == m
        {
          assert sel[k] == init[k];
        }
      }
      MoveAllMovesPoint(g, init, amount, z, gridSize, m);
      assert last.model != m.model;
      if last.model.PointModel? && last.model.link == l && PointIndex(r1.links[l].points, last.model.point) >= 0 {
        assert PointIndex(r1.links[l].points, last.model.point) != i;
      }
    }
  }

  // ---------------------------------------------------------------------------
  // Releasing the pointer: attach, prune loose links, prune invalid links

  /** The link a selection item is a point of, if it is a point. */
  predicate MovesLink(sel: seq<SelectionModel>, l: ID)
  {
    exists m :: m in sel && m.model.PointModel? && m.model.link == l
  }

  /** What the prefix of a selection moves, the whole selection moves. */
  lemma MovesLinkInit(sel: seq<SelectionModel>)
    requires sel != []
    ensures forall l :: MovesLink(sel[..|sel| - 1], l) ==> MovesLink(sel, l)
  {
    forall l | MovesLink(sel[..|sel| - 1], l)
      ensures MovesLink(sel, l)
    {
      var m :| m in sel[..|sel| - 1] && m.model.PointModel? && m.model.link == l;
      assert m in sel;
    }
  }

  /** An item of a selection other than the last is an item of the prefix. */
  lemma InInit(sel: seq<SelectionModel>, m: SelectionModel)
    requires m in sel && m != sel[|sel| - 1]
    ensures m in sel[..|sel| - 1]
  {
    var k :| 0 <= k < |sel| && sel[k] == m;
    assert sel[..|sel| - 1][k] == m;
  }

  /**
   * Dropping on a port in the middle of an attached link: the link is cut at the point.
   * The original keeps its source, ends at the dropped-on port and keeps the points up
   * to the cut; a clone, with a fresh id, runs from the port to the old target with the
   * points from the cut on. The steps are those of the handler, in its order.
   */
  function Split(g: Graph, lid: ID, pid: ID, port: PortRef): Graph
    requires lid in g.links && g.links[lid].target.Some?
  {
    var link := g.links[lid];
    var g5 := SplitRewire(g, lid, port);
    var i := PointIndex(link.points, pid);
    var clonePoints := if i >= 0 then RemovePointsBefore(link.points, link.points[i].id) else link.points;
    var g6 := WithLink(g5, lid, g5.links[lid].(points := RemovePointsAfter(g5.links[lid].points, pid)));
    AddLink(g6, g.nextUid, link.(source := Some(port), target := link.target, points := clonePoints))
  }

  /**
   * The first steps of a split: draw the clone's id, register the clone with the port
   * and with the old target, point the original at the port and take it off the old
   * target.
   */
  function SplitRewire(g: Graph, lid: ID, port: PortRef): (r: Graph)
    requires lid in g.links && g.links[lid].target.Some?
    ensures r.nextUid == g.nextUid + 1
    ensures r.links == g.links[lid := g.links[lid].(target := Some(port))]
  {
    var t := g.links[lid].target.value;
    var nid := g.nextUid;
    var g1 := g.(nextUid := nid + 1);
    var g2 := AddPortLink(g1, port, nid);
    var g3 := AddPortLink(g2, t, nid);
    var g4 := SetTargetPort(g3, lid, Some(port));
    RemovePortLink(g4, t, lid)
  }

  lemma SplitRewireOldTarget(g: Graph, lid: ID, port: PortRef)
    requires lid in g.links && g.links[lid].target.Some? && g.links[lid].target != Some(port)
    requires lid != g.nextUid && HasPort(g, g.links[lid].target.value)
    ensures var t := g.links[lid].target.value;
      PortLinks(SplitRewire(g, lid, port), t) == PortLinks(g, t) - {lid} + {g.nextUid}
  {
    var t := g.links[lid].target.value;
    var nid := g.nextUid;
    var g1 := g.(nextUid := nid + 1);
    assert PortLinks(g1, t) == PortLinks(g, t);
    var g2 := AddPortLink(g1, port, nid);
    assert PortOf(g2, t) == PortOf(g1, t);
    var g3 := AddPortLink(g2, t, nid);
    assert PortLinks(g3, t) == PortLinks(g, t) + {nid};
    var g4 := SetTargetPort(g3, lid, Some(port));
    assert PortLinks(g4, t) == PortLinks(g3, t);
    var g5 := RemovePortLink(g4, t, lid);
    assert PortLinks(g5, t) == PortLinks(g, t) + {nid} - {lid};
  }

  lemma SplitRewireNewPort(g: Graph, lid: ID, port: PortRef)
    requires lid in g.links && g.links[lid].target.Some? && g.links[lid].target != Some(port)
    requires HasPort(g, port)
    ensures PortLinks(SplitRewire(g, lid, port), port) == PortLinks(g, port) + {lid, g.nextUid}
  {
    var t := g.links[lid].target.value;
    var nid := g.nextUid;
    var g1 := g.(nextUid := nid + 1);
    assert PortLinks(g1, port) == PortLinks(g, port);
    var g2 := AddPortLink(g1, port, nid);
    assert PortLinks(g2, port) == PortLinks(g, port) + {nid};
    var g3 := AddPortLink(g2, t, nid);
    assert PortOf(g3, port) == PortOf(g2, port);
    var g4 := SetTargetPort(g3, lid, Some(port));
    assert PortLinks(g4, port) == PortLinks(g, port) + {nid} + {lid};
    var g5 := RemovePortLink(g4, t, lid);
    assert PortOf(g5, port) == PortOf(g4, port);
  }

  /** One item of the attach pass; `hit` is the unlocked port under the pointer, if any. */
  function AttachOne(g: Graph, m: SelectionModel, hit: Option<PortRef>): Graph
  {
    if m.model.PointModel? && hit.Some? && m.model.link in g.links then
      var lid := m.model.link;
      var link := g.links[lid];
      var p := hit.value;
      if link.target.Some? then
        if link.target != Some(p) && link.source != Some(p) then Split(g, lid, m.model.point, p)
        else if link.target == Some(p) then WithLink(g, lid, link.(points := RemovePointsAfter(link.points, m.model.point)))
        else WithLink(g, lid, link.(points := RemovePointsBefore(link.points, m.model.point)))
      else SetTargetPort(g, lid, Some(p))
    else g
  }

  function AttachAll(g: Graph, sel: seq<SelectionModel>, hit: Option<PortRef>): Graph
    decreases |sel|
  {
    if sel == [] then g else AttachOne(AttachAll(g, sel[..|sel| - 1], hit), sel[|sel| - 1], hit)
  }

  /** One item of the loose-link pass: a moved link missing an end is removed. */
  function LooseOne(g: Graph, m: SelectionModel): Graph
  {
    if m.model.PointModel? && m.model.link in g.links
       && (g.links[m.model.link].source.None? || g.links[m.model.link].target.None?)
    then RemoveLink(g, m.model.link)
    else g
  }

  function LooseAll(g: Graph, sel: seq<SelectionModel>): Graph
    decreases |sel|
  {
    if sel == [] then g else LooseOne(LooseAll(g, sel[..|sel| - 1]), sel[|sel| - 1])
  }

  /** Another link registered with the target port already joins it to the source port. */
  predicate IsDuplicate(g: Graph, lid: ID, s: PortRef, t: PortRef)
  {
    exists o :: o in PortLinks(g, t) && o != lid && o in g.links
      && (g.links[o].source == Some(s) || g.links[o].target == Some(s))
  }

  /** One item of the invalid-link pass: an attached moved link that is refused or a duplicate is removed. */
  function InvalidOne(g: Graph, m: SelectionModel): Graph
  {
    if m.model.PointModel? && m.model.link in g.links
       && g.links[m.model.link].source.Some? && g.links[m.model.link].target.Some?
    then
      var lid := m.model.link;
      var s := g.links[lid].source.value;
      var t := g.links[lid].target.value;
      if !CanLinkToPort(g, s, t) then RemoveLink(g, lid)
      else if IsDuplicate(g, lid, s, t) then RemoveLink(g, lid)
      else g
    else g
  }

  function InvalidAll(g: Graph, sel: seq<SelectionModel>): Graph
    decreases |sel|
  {
    if sel == [] then g else InvalidOne(InvalidAll(g, sel[..|sel| - 1]), sel[|sel| - 1])
  }

  /** Everything the pointer-up handler does to the graph after a move. */
  function Commit(g: Graph, sel: seq<SelectionModel>, hit: Option<PortRef>, allowLooseLinks: bool): Graph
  {
    var attached := AttachAll(g, sel, hit);
    var kept := if allowLooseLinks then attached else LooseAll(attached, sel);
    InvalidAll(kept, sel)
  }

  // ----- the four cases of attaching

  /** A link with no target that is dropped on a port gets the port as its target. */
  lemma AttachLooseEnd(g: Graph, lid: ID, pid: ID, initial: Coords, p: PortRef)
    requires lid in g.links && g.links[lid].target.None?
    ensures var r := AttachOne(g, SelectionModel(PointModel(lid, pid), initial), Some(p));
      r.links == g.links[lid := g.links[lid].(target := Some(p))] && r.nextUid == g.nextUid
      && (HasPort(g, p) ==> PortLinks(r, p) == PortLinks(g, p) + {lid})
  {
  }

  /** The link records after a split: the original up to the cut, the clone from it on. */
  lemma SplitLinks(g: Graph, lid: ID, pid: ID, p: PortRef)
    requires lid in g.links && g.links[lid].target.Some?
    requires PointIndex(g.links[lid].points, pid) >= 0
    ensures var link := g.links[lid];
      var i := PointIndex(link.points, pid);
      var r := Split(g, lid, pid, p);
      r.nextUid == g.nextUid + 1
      && r.links == g.links[lid := link.(target := Some(p), points := link.points[..i + 1])]
                           [g.nextUid := link.(source := Some(p), target := link.target, points := link.points[i..])]
  {
    var pts := g.links[lid].points;
    var i := PointIndex(pts, pid);
    assert RemovePointsAfter(pts, pid) == pts[..i + 1];
    assert RemovePointsBefore(pts, pts[i].id) == pts[i..];
  }

  /** The port sets after a split: the old target swaps the original for the clone; the new port gains both. */
  lemma SplitPorts(g: Graph, lid: ID, pid: ID, p: PortRef)
    requires lid in g.links && g.links[lid].target.Some? && g.links[lid].target != Some(p)
    requires lid != g.nextUid
    ensures var t := g.links[lid].target.value;
      var r := Split(g, lid, pid, p);
      (HasPort(g, t) ==> PortLinks(r, t) == PortLinks(g, t) - {lid} + {g.nextUid})
      && (HasPort(g, p) ==> PortLinks(r, p) == PortLinks(g, p) + {lid, g.nextUid})
  {
    var t := g.links[lid].target.value;
    var r := Split(g, lid, pid, p);
    assert r.nodes == SplitRewire(g, lid, p).nodes;
    if HasPort(g, t) {
      SplitRewireOldTarget(g, lid, p);
    }
    if HasPort(g, p) {
      SplitRewireNewPort(g, lid, p);
    }
  }

  /**
   * Dropping the middle of an attached link on a third port cuts it in two at the
   * point: the two halves share the cut point and together hold the old points; the
   * old target port loses the original link and gains the clone; the dropped-on port
   * gains both.
   */
  lemma SplitLink(g: Graph, lid: ID, pid: ID, initial: Coords, p: PortRef)
    requires FreshUids(g) && lid in g.links
    requires g.links[lid].target.Some? && g.links[lid].target != Some(p) && g.links[lid].source != Some(p)
    requires PointIndex(g.links[lid].points, pid) >= 0
    ensures var r := AttachOne(g, SelectionModel(PointModel(lid, pid), initial), Some(p));
      var link := g.links[lid];
      var i := PointIndex(link.points, pid);
      var t := link.target.value;
      var nid := g.nextUid;
      r.nextUid == nid + 1 && FreshUids(r) && nid !in g.links
      && r.links == g.links[lid := link.(target := Some(p), points := link.points[..i + 1])]
                           [nid := link.(source := Some(p), target := Some(t), points := link.points[i..])]
      && r.links[lid].points + r.links[nid].points[1..] == link.points
      && r.links[lid].points[|r.links[lid].points| - 1] == r.links[nid].points[0]
      && (HasPort(g, t) ==> PortLinks(r, t) == PortLinks(g, t) - {lid} + {nid})
      && (HasPort(g, p) ==> PortLinks(r, p) == PortLinks(g, p) + {lid, nid})
  {
    var link := g.links[lid];
    var i := PointIndex(link.points, pid);
    var nid := g.nextUid;
    assert nid !in g.links;
    var r := AttachOne(g, SelectionModel(PointModel(lid, pid), initial), Some(p));
    assert r == Split(g, lid, pid, p);
    SplitLinks(g, lid, pid, p);
    SplitPorts(g, lid, pid, p);
    assert r.links[lid].points == link.points[..i + 1];
    assert r.links[nid].points == link.points[i..];
    assert link.points[..i + 1] + link.points[i..][1..] == link.points;
  }

  /** Dropping a point on the link's own target port drops the points after it. */
  lemma AttachAtTarget(g: Graph, lid: ID, pid: ID, initial: Coords, p: PortRef)
    requires lid in g.links && g.links[lid].target == Some(p)
    ensures var r := AttachOne(g, SelectionModel(PointModel(lid, pid), initial), Some(p));
      var pts := g.links[lid].points;
      var i := PointIndex(pts, pid);
      r.nodes == g.nodes && r.nextUid == g.nextUid
      && r.links == g.links[lid := g.links[lid].(points := if i >= 0 then pts[..i + 1] else pts)]
  {
  }

  /** Dropping a point on the link's own source port drops the points before it. */
  lemma AttachAtSource(g: Graph, lid: ID, pid: ID, initial: Coords, p: PortRef)
    requires lid in g.links && g.links[lid].target.Some? && g.links[lid].target != Some(p)
    requires g.links[lid].source == Some(p)
    ensures var r := AttachOne(g, SelectionModel(PointModel(lid, pid), initial), Some(p));
      var pts := g.links[lid].points;
      var i := PointIndex(pts, pid);
      r.nodes == g.nodes && r.nextUid == g.nextUid
      && r.links == g.links[lid := g.links[lid].(points := if i >= 0 then pts[i..] else pts)]
  {
  }

  // ----- what the attach pass leaves alone

  /** One attach step only rewrites the item's own link and may add one fresh link. */
  lemma AttachOneFrame(g: Graph, m: SelectionModel, hit: Option<PortRef>)
    requires FreshUids(g)
    ensures var r := AttachOne(g, m, hit);
      FreshUids(r) && r.nextUid >= g.nextUid && g.links.Keys <= r.links.Keys
      && (forall l :: l in r.links && l !in g.links ==> l >= g.nextUid)
      && forall l :: l in g.links && !(m.model.PointModel? && m.model.link == l) ==> r.links[l] == g.links[l]
  {
  }

  /**
   * The attach pass keeps every link, never reuses an id, and leaves each link that
   * no item of the selection is a point of exactly as it was.
   */
  lemma {:induction false} AttachAllKeepsUnmoved(g: Graph, sel: seq<SelectionModel>, hit: Option<PortRef>)
    requires FreshUids(g)
    ensures var r := AttachAll(g, sel, hit);
      FreshUids(r) && r.nextUid >= g.nextUid && g.links.Keys <= r.links.Keys
      && forall l :: l in g.links && !MovesLink(sel, l) ==> r.links[l] == g.links[l]
    decreases |sel|
  {
    if sel != [] {
      var init := sel[..|sel| - 1];
      var last := sel[|sel| - 1];
      AttachAllKeepsUnmoved(g, init, hit);
      var r1 := AttachAll(g, init, hit);
      AttachOneFrame(r1, last, hit);
      MovesLinkInit(sel);
      forall l | l in g.links && !MovesLink(sel, l)
        ensures AttachAll(g, sel, hit).links[l] == g.links[l]
      {
        assert !(last.model.PointModel? && last.model.link == l) by {
          assert last in sel;
        }
      }
    }
  }

  /** With no unlocked port under the pointer, the attach pass changes nothing. */
  lemma {:induction false} AttachAllNoHit(g: Graph, sel: seq<SelectionModel>)
    ensures AttachAll(g, sel, None) == g
    decreases |sel|
  {
    if sel != [] {
      AttachAllNoHit(g, sel[..|sel| - 1]);
    }
  }

  // ----- the pruning passes only remove links

  /** `r` is `g` with some links removed and nothing else changed that the prune passes read. */
  ghost predicate Shrinks(g: Graph, r: Graph)
  {
    r.nextUid == g.nextUid && r.links.Keys <= g.links.Keys
    && (forall l :: l in r.links ==> r.links[l] == g.links[l])
    && (forall q :: PortLinks(r, q) <= PortLinks(g, q))
    && (forall s, t :: CanLinkToPort(r, s, t) == CanLinkToPort(g, s, t))
  }

  lemma ShrinksTrans(a: Graph, b: Graph, c: Graph)
    requires Shrinks(a, b) && Shrinks(b, c)
    ensures Shrinks(a, c)
  {
  }

  /** A duplicate in a graph with fewer links was a duplicate before. */
  lemma DuplicateShrinks(g: Graph, r: Graph, lid: ID, s: PortRef, t: PortRef)
    requires Shrinks(g, r) && IsDuplicate(r, lid, s, t)
    ensures IsDuplicate(g, lid, s, t)
  {
    var o :| o in PortLinks(r, t) && o != lid && o in r.links
      && (r.links[o].source == Some(s) || r.links[o].target == Some(s));
    assert o in PortLinks(g, t);
  }

  lemma DuplicateShrinksAll(g: Graph, r: Graph)
    requires Shrinks(g, r)
    ensures forall lid, s, t :: IsDuplicate(r, lid, s, t) ==> IsDuplicate(g, lid, s, t)
  {
    forall lid, s, t | IsDuplicate(r, lid, s, t)
      ensures IsDuplicate(g, lid, s, t)
    {
      DuplicateShrinks(g, r, lid, s, t);
    }
  }

  /**
   * The loose-link pass only removes links, only moved ones, and afterwards every moved
   * link still in the diagram has both ends.
   */
  lemma {:induction false} LooseAllPrunes(g: Graph, sel: seq<SelectionModel>)
    ensures var r := LooseAll(g, sel);
      Shrinks(g, r)
      && (forall l :: l in g.links && !MovesLink(sel, l) ==> l in r.links)
      && forall m :: m in sel && m.model.PointModel? && m.model.link in r.links ==>
           r.links[m.model.link].source.Some? && r.links[m.model.link].target.Some?
    decreases |sel|
  {
    if sel != [] {
      var init := sel[..|sel| - 1];
      var last := sel[|sel| - 1];
      LooseAllPrunes(g, init);
      var r1 := LooseAll(g, init);
      var r := LooseOne(r1, last);
      assert Shrinks(r1, r);
      ShrinksTrans(g, r1, r);
      MovesLinkInit(sel);
      forall l | l in g.links && !MovesLink(sel, l)
        ensures l in r.links
      {
        assert last in sel;
      }
      forall m | m in sel && m.model.PointModel? && m.model.link in r.links
        ensures r.links[m.model.link].source.Some? && r.links[m.model.link].target.Some?
      {
        if m != last {
          InInit(sel, m);
        }
      }
    }
  }

  /**
   * The invalid-link pass only removes links, only moved ones, never one missing an
   * end, and afterwards every attached moved link still in the diagram is allowed by
   * its source port and has no duplicate.
   */
  lemma {:induction false} InvalidAllPrunes(g: Graph, sel: seq<SelectionModel>)
    ensures var r := InvalidAll(g, sel);
      Shrinks(g, r)
      && (forall l :: l in g.links && !MovesLink(sel, l) ==> l in r.links)
      && (forall l :: l in g.links && (g.links[l].source.None? || g.links[l].target.None?) ==> l in r.links)
      && forall m :: m in sel && m.model.PointModel? && m.model.link in r.links ==>
           var k := r.links[m.model.link];
           k.source.Some? && k.target.Some? ==>
             CanLinkToPort(r, k.source.value, k.target.value)
             && !IsDuplicate(r, m.model.link, k.source.value, k.target.value)
    decreases |sel|
  {
    if sel != [] {
      var init := sel[..|sel| - 1];
      var last := sel[|sel| - 1];
      InvalidAllPrunes(g, init);
      var r1 := InvalidAll(g, init);
      var r := InvalidOne(r1, last);
      assert Shrinks(r1, r);
      ShrinksTrans(g, r1, r);
      MovesLinkInit(sel);
      forall l | l in g.links && !MovesLink(sel, l)
        ensures l in r.links
      {
        assert last in sel;
      }
      forall m | m in sel && m.model.PointModel? && m.model.link in r.links
          && r.links[m.model.link].source.Some? && r.links[m.model.link].target.Some?
        ensures CanLinkToPort(r, r.links[m.model.link].source.value, r.links[m.model.link].target.value)
        ensures !IsDuplicate(r, m.model.link, r.links[m.model.link].source.value, r.links[m.model.link].target.value)
      {
        DuplicateShrinksAll(r1, r);
        if m != last {
          InInit(sel, m);
        }
      }
    }
  }

  /**
   * Releasing a move with loose links disallowed: every moved link still in the
   * diagram runs between two ports, is allowed by its source port and has no duplicate;
   * links nobody moved are untouched.
   */
  lemma CommitWithoutLooseLinks(g: Graph, sel: seq<SelectionModel>, hit: Option<PortRef>)
    requires FreshUids(g)
    ensures var r := Commit(g, sel, hit, false);
      (forall l :: l in g.links && !MovesLink(sel, l) ==> l in r.links && r.links[l] == g.links[l])
      && forall m :: m in sel && m.model.PointModel? && m.model.link in r.links ==>
           var k := r.links[m.model.link];
           k.source.Some? && k.target.Some?
           && CanLinkToPort(r, k.source.value, k.target.value)
           && !IsDuplicate(r, m.model.link, k.source.value, k.target.value)
  {
    var a := AttachAll(g, sel, hit);
    AttachAllKeepsUnmoved(g, sel, hit);
    LooseAllPrunes(a, sel);
    var b := LooseAll(a, sel);
    InvalidAllPrunes(b, sel);
  }

  /**
   * Releasing a move with loose links allowed: a moved link left without an end by the
   * attach pass stays in the diagram; links nobody moved are untouched.
   */
  lemma CommitWithLooseLinks(g: Graph, sel: seq<SelectionModel>, hit: Option<PortRef>)
    requires FreshUids(g)
    ensures var a := AttachAll(g, sel, hit);
      var r := Commit(g, sel, hit, true);
      (forall l :: l in g.links && !MovesLink(sel, l) ==> l in r.links && r.links[l] == g.links[l])
      && forall l :: l in a.links && (a.links[l].source.None? || a.links[l].target.None?) ==>
           l in r.links && r.links[l] == a.links[l]
  {
    var a := AttachAll(g, sel, hit);
    AttachAllKeepsUnmoved(g, sel, hit);
    InvalidAllPrunes(a, sel);
  }
}
