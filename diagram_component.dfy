/**
 * `NgxDiagramComponent`: the pointer-interaction state machine of the diagram. It
 * keeps the action in progress, reports actions started, still firing and stopped,
 * registers the document-level move and release listeners, and drives the diagram
 * model through the gestures of module Gestures.
 */
module Component {
  import opened Wrappers
  import opened Geometry
  import opened GraphModel
  import opened Gestures
  import opened MouseElement
  import opened Diagram

  /**
   * A pointer event. `target` is the chain of elements from the event target to the
   * root; `relative` and `relativeMouse` are what the engine's `getRelativePoint` and
   * `getRelativeMousePoint` measure on the page for this event.
   */
  datatype MouseEvent = MouseEvent(
    button: int,
    clientX: real,
    clientY: real,
    shiftKey: bool,
    target: seq<Element>,
    relative: Coords,
    relativeMouse: Coords)

  /** A wheel event and the bounding box of the element it was caught on. */
  datatype WheelEvent = WheelEvent(
    deltaY: real,
    ctrlKey: bool,
    clientX: real,
    clientY: real,
    rectLeft: real,
    rectTop: real,
    rectWidth: real,
    rectHeight: real)

  // ---------------------------------------------------------------------------
  // Pressing on an element

  /** `model.getSelected()` for what the pointer resolved to; ports carry no flag here. */
  predicate IsSelected(g: Graph, ref: ModelRef)
  {
    match ref
    case NodeModel(n) => n in g.nodes && g.nodes[n].selected
    case LinkModel(l) => l in g.links && g.links[l].selected
    case PointModel(l, pid) =>
      l in g.links && PointIndex(g.links[l].points, pid) >= 0
      && g.links[l].points[PointIndex(g.links[l].points, pid)].selected
    case PortModel(_) => false
  }

  /** The reference names a node, link or point of the graph. */
  predicate Resolves(g: Graph, ref: ModelRef)
  {
    match ref
    case NodeModel(n) => n in g.nodes
    case LinkModel(l) => l in g.links
    case PointModel(l, pid) => l in g.links && PointIndex(g.links[l].points, pid) >= 0
    case PortModel(_) => false
  }

  /** `model.setSelected()`. */
  function SelectModel(g: Graph, ref: ModelRef): (r: Graph)
    ensures r.nodes.Keys == g.nodes.Keys && r.links.Keys == g.links.Keys && r.nextUid == g.nextUid
    ensures Resolves(g, ref) ==> IsSelected(r, ref)
  {
    match ref
    case NodeModel(n) => if n in g.nodes then g.(nodes := g.nodes[n := g.nodes[n].(selected := true)]) else g
    case LinkModel(l) => if l in g.links then WithLink(g, l, g.links[l].(selected := true)) else g
    case PointModel(l, pid) =>
      if l in g.links && PointIndex(g.links[l].points, pid) >= 0 then
        var pts := g.links[l].points;
        var i := PointIndex(pts, pid);
        PointIndexSameIds(pts, pts[i := pts[i].(selected := true)], pid);
        WithLink(g, l, g.links[l].(points := pts[i := pts[i].(selected := true)]))
      else g
    case PortModel(_) => g
  }

  /** Whether a press clears the selection first: without shift, on an element not yet selected. */
  predicate ClearsSelectionOnPress(shiftKey: bool, selected: bool)
  {
    !shiftKey && !selected
  }

  /** The graph after pressing on a node, link or point. */
  function PressSelect(g: Graph, ref: ModelRef, shiftKey: bool): Graph
  {
    var base := if ClearsSelectionOnPress(shiftKey, IsSelected(g, ref)) then ClearSelection(g) else g;
    SelectModel(base, ref)
  }

  /**
   * The press as the handler is written: `!selectedModel.model.getSelected` tests the
   * method itself, which is always truthy, so the selection is never cleared.
   */
  function PressSelectAsWritten(g: Graph, ref: ModelRef, shiftKey: bool): Graph
  {
    var getSelectedIsTruthy := true;
    var base := if !shiftKey && !getSelectedIsTruthy then ClearSelection(g) else g;
    SelectModel(base, ref)
  }

  /**
   * Pressing without shift on an element that is not selected replaces the selection:
   * afterwards that element is the only node, link or point selected.
   */
  lemma PressReplacesSelection(g: Graph, ref: ModelRef)
    requires Resolves(g, ref) && !IsSelected(g, ref)
    ensures var r := PressSelect(g, ref, false);
      IsSelected(r, ref)
      && (forall n :: n in r.nodes ==> (r.nodes[n].selected <==> ref == NodeModel(n)))
      && (forall l :: l in r.links ==> (r.links[l].selected <==> ref == LinkModel(l)))
      && forall l, i :: l in r.links && 0 <= i < |r.links[l].points| && r.links[l].points[i].selected ==>
           ref == PointModel(l, r.links[l].points[i].id)
  {
    var c := ClearSelection(g);
    assert forall l :: l in c.links ==> |c.links[l].points| == |g.links[l].points|;
  }

  /** Pressing with shift, or on an element already selected, keeps everything that was selected. */
  lemma PressKeepsSelection(g: Graph, ref: ModelRef, shiftKey: bool)
    requires shiftKey || IsSelected(g, ref)
    ensures PressSelect(g, ref, shiftKey) == SelectModel(g, ref)
    ensures var r := PressSelect(g, ref, shiftKey);
      (forall n :: n in g.nodes && g.nodes[n].selected ==> r.nodes[n].selected)
      && (forall l :: l in g.links && g.links[l].selected ==> r.links[l].selected)
      && forall l, i :: l in g.links && 0 <= i < |g.links[l].points| && g.links[l].points[i].selected ==>
           |r.links[l].points| == |g.links[l].points| && r.links[l].points[i].selected
  {
  }

  /**
   * The handler as written leaves a previous selection in place: with node 0 selected,
   * pressing node 1 without shift keeps node 0 selected, where the corrected press
   * deselects it.
   */
  lemma PressAsWrittenKeepsOtherSelection()
    ensures var n0 := Node("default", Coords(0.0, 0.0), true, false, map[]);
      var n1 := Node("default", Coords(0.0, 0.0), false, false, map[]);
      var g := Graph(map[0 := n0, 1 := n1], map[], 0);
      PressSelectAsWritten(g, NodeModel(1), false).nodes[0].selected
      && !PressSelect(g, NodeModel(1), false).nodes[0].selected
  {
  }

  /**
   * The press as written only ever adds to the selection: it is `setSelected` on the
   * pressed element, and everything selected before stays selected.
   */
  lemma PressAsWrittenKeepsSelection(g: Graph, ref: ModelRef, shiftKey: bool)
    ensures PressSelectAsWritten(g, ref, shiftKey) == SelectModel(g, ref)
    ensures Resolves(g, ref) ==> IsSelected(PressSelectAsWritten(g, ref, shiftKey), ref)
    ensures var r := PressSelectAsWritten(g, ref, shiftKey);
      (forall n :: n in g.nodes && g.nodes[n].selected ==> r.nodes[n].selected)
      && (forall l :: l in g.links && g.links[l].selected ==> r.links[l].selected)
      && forall l, i :: l in g.links && 0 <= i < |g.links[l].points| && g.links[l].points[i].selected ==>
           |r.links[l].points| == |g.links[l].points| && r.links[l].points[i].selected
  {
    PressKeepsSelection(g, ref, true);
  }

  // ---------------------------------------------------------------------------
  // Pressing on an unlocked port: dragging out a new link

  /** `port.createLinkModel()` after the handler's set-up: two points at the pointer, the last one selected. */
  function NewLinkFrom(g: Graph, p: PortRef, c: Coords): Link
    requires HasPort(g, p)
  {
    var lid := g.nextUid;
    Link(g.nodes[p.node].ports[p.port].linkType, Some(p), None,
         [Point(lid + 1, c, false), Point(lid + 2, c, true)], false)
  }

  /** The graph after pressing on an unlocked port: link id and point ids drawn, port registered, selection cleared, link added. */
  function DragNewLink(g: Graph, p: PortRef, c: Coords): Graph
    requires HasPort(g, p)
  {
    var lid := g.nextUid;
    var g1 := AddPortLink(g.(nextUid := lid + 3), p, lid);
    AddLink(ClearSelection(g1), lid, NewLinkFrom(g, p, c))
  }

  /**
   * Dragging out a link adds one link under a fresh id, running from the port with no
   * target, registered with the port; afterwards the only thing selected is the
   * link's last point.
   */
  lemma DragNewLinkState(g: Graph, p: PortRef, c: Coords)
    requires FreshUids(g) && HasPort(g, p)
    ensures var r := DragNewLink(g, p, c);
      var lid := g.nextUid;
      FreshUids(r) && lid !in g.links && r.links.Keys == g.links.Keys + {lid}
      && r.links[lid].source == Some(p) && r.links[lid].target.None?
      && |r.links[lid].points| == 2 && r.links[lid].points[0].coords == c && r.links[lid].points[1].coords == c
      && PortLinks(r, p) == PortLinks(g, p) + {lid}
      && (forall n :: n in r.nodes ==> !r.nodes[n].selected)
      && (forall l :: l in r.links ==> !r.links[l].selected)
      && forall l, i :: l in r.links && 0 <= i < |r.links[l].points| ==>
           (r.links[l].points[i].selected <==> l == lid && i == 1)
  {
    var lid := g.nextUid;
    var g1 := AddPortLink(g.(nextUid := lid + 3), p, lid);
    assert PortLinks(ClearSelection(g1), p) == PortLinks(g1, p);
  }

  // ---------------------------------------------------------------------------
  // Gathering the items to move (`new MoveItemsAction(..)`)

  /** An item the move gathers: a selected unlocked node, or a selected point, each at its current position. */
  ghost predicate Gathered(g: Graph, m: SelectionModel)
  {
    match m.model
    case NodeModel(n) => n in g.nodes && g.nodes[n].selected && !g.nodes[n].locked && m.initial == g.nodes[n].coords
    case PointModel(l, pid) =>
      l in g.links
      && exists i :: (0 <= i < |g.links[l].points| && g.links[l].points[i].id == pid
                      && g.links[l].points[i].selected && m.initial == g.links[l].points[i].coords)
    case _ => false
  }

  /** `sel` holds exactly the gathered items (each at least once). */
  ghost predicate GathersAll(g: Graph, sel: seq<SelectionModel>)
  {
    (forall m :: m in sel ==> Gathered(g, m))
    && (forall n :: n in g.nodes && g.nodes[n].selected && !g.nodes[n].locked ==>
          SelectionModel(NodeModel(n), g.nodes[n].coords) in sel)
    && (forall l, i :: l in g.links && 0 <= i < |g.links[l].points| && g.links[l].points[i].selected ==>
          SelectionModel(PointModel(l, g.links[l].points[i].id), g.links[l].points[i].coords) in sel)
  }

  /** After dragging out a link, the move gathers exactly the new link's last point. */
  lemma DragGathersNewEnd(g: Graph, p: PortRef, c: Coords, sel: seq<SelectionModel>)
    requires FreshUids(g) && HasPort(g, p)
    requires GathersAll(DragNewLink(g, p, c), sel)
    ensures var end := SelectionModel(PointModel(g.nextUid, g.nextUid + 2), c);
      end in sel && forall m :: m in sel ==> m == end
  {
    DragNewLinkState(g, p, c);
    var r := DragNewLink(g, p, c);
    var lid := g.nextUid;
    assert r.links[lid].points[1].selected && r.links[lid].points[1].id == lid + 2;
    forall m | m in sel
      ensures m == SelectionModel(PointModel(lid, lid + 2), c)
    {
      assert Gathered(r, m);
      assert m.model.PointModel?;
      var l := m.model.link;
      var pid := m.model.point;
      var i :| 0 <= i < |r.links[l].points| && r.links[l].points[i].id == pid
        && r.links[l].points[i].selected && m.initial == r.links[l].points[i].coords;
      assert l == lid && i == 1;
    }
  }

  /** `new MoveItemsAction(x, y, engine)`: every selected unlocked node and every selected point, with where it is now. */
  method NewMoveItemsAction(mouseX: real, mouseY: real, g: Graph) returns (a: Action)
    ensures a.MoveItemsAction? && a.mouseX == mouseX && a.mouseY == mouseY
    ensures GathersAll(g, a.selectionModels)
  {
    var sel: seq<SelectionModel> := [];
    var nodes := g.nodes.Keys;
    while nodes != {}
      invariant nodes <= g.nodes.Keys
      invariant forall m :: m in sel ==> Gathered(g, m)
      invariant forall n :: n in g.nodes && n !in nodes && g.nodes[n].selected && !g.nodes[n].locked ==>
        SelectionModel(NodeModel(n), g.nodes[n].coords) in sel
      decreases nodes
    {
      var n :| n in nodes;
      if g.nodes[n].selected && !g.nodes[n].locked {
        sel := sel + [SelectionModel(NodeModel(n), g.nodes[n].coords)];
      }
      nodes := nodes - {n};
    }
    var links := g.links.Keys;
    while links != {}
      invariant links <= g.links.Keys
      invariant forall m :: m in sel ==> Gathered(g, m)
      invariant forall n :: n in g.nodes && g.nodes[n].selected && !g.nodes[n].locked ==>
        SelectionModel(NodeModel(n), g.nodes[n].coords) in sel
      invariant forall l, i :: l in g.links && l !in links && 0 <= i < |g.links[l].points| && g.links[l].points[i].selected ==>
        SelectionModel(PointModel(l, g.links[l].points[i].id), g.links[l].points[i].coords) in sel
      decreases links
    {
      var l :| l in links;
      var pts := g.links[l].points;
      var i := 0;
      while i < |pts|
        invariant 0 <= i <= |pts|
        invariant forall m :: m in sel ==> Gathered(g, m)
        invariant forall n :: n in g.nodes && g.nodes[n].selected && !g.nodes[n].locked ==>
          SelectionModel(NodeModel(n), g.nodes[n].coords) in sel
        invariant forall l', j :: l' in g.links && l' !in links && 0 <= j < |g.links[l'].points| && g.links[l'].points[j].selected ==>
          SelectionModel(PointModel(l', g.links[l'].points[j].id), g.links[l'].points[j].coords) in sel
        invariant forall j :: 0 <= j < i && pts[j].selected ==> SelectionModel(PointModel(l, pts[j].id), pts[j].coords) in sel
      {
        if pts[i].selected {
          sel := sel + [SelectionModel(PointModel(l, pts[i].id), pts[i].coords)];
        }
        i := i + 1;
      }
      links := links - {l};
    }
    a := MoveItemsAction(mouseX, mouseY, sel);
  }

  // ---------------------------------------------------------------------------
  // The wheel

  /**
   * The zoom step of one wheel event: the delta (negated when zoom is inverted) divided
   * by 3 for a pinch (ctrl held and a fractional delta) and by 60 otherwise.
   */
  function ScrollDelta(deltaY: real, ctrlKey: bool, inverseZoom: bool): (d: real)
    ensures var s := if inverseZoom then -deltaY else deltaY;
      (ctrlKey && s != s.Floor as real ==> d * 3.0 == s) && (!(ctrlKey && s != s.Floor as real) ==> d * 60.0 == s)
  {
    var s := if inverseZoom then -deltaY else deltaY;
    if ctrlKey && s != s.Floor as real then s / 3.0 else s / 60.0
  }

  /** The zoom level after a step: applied only when it stays above 10. */
  function NextZoomLevel(current: real, delta: real): (z: real)
    ensures z == current || (z == current + delta && z > 10.0)
    ensures current > 0.0 ==> z > 0.0
    ensures current + delta > 10.0 <==> z == current + delta && z > 10.0
  {
    if current + delta > 10.0 then current + delta else current
  }

  /** The offset on one axis after zooming from factor `oldF` to `f`, anchored at the cursor. */
  function AnchoredOffset(offset: real, cursor: real, size: real, oldF: real, f: real): real
    requires oldF != 0.0 && size != 0.0
  {
    var diff := size * f - size * oldF;
    var factor := (cursor - offset) / oldF / size;
    offset - diff * factor
  }

  /**
   * Zooming keeps the diagram point under the cursor where it is: its model coordinate
   * `(cursor - offset) / factor` is the same before and after.
   */
  lemma AnchoredOffsetKeepsCursorPoint(offset: real, cursor: real, size: real, oldF: real, f: real)
    requires oldF > 0.0 && f > 0.0 && size > 0.0
    ensures (cursor - AnchoredOffset(offset, cursor, size, oldF, f)) / f == (cursor - offset) / oldF
  {
    var w := cursor - offset;
    var q := w / oldF;
    var factor := q / size;
    assert factor * size == q;
    var diff := size * f - size * oldF;
    var step := diff * factor;
    assert step == (f - oldF) * (factor * size);
    assert step == (f - oldF) * q;
    assert q * oldF == w;
    var moved := w + step;
    assert moved == q * oldF + (f - oldF) * q;
    assert moved == q * f;
  }

  // ---------------------------------------------------------------------------
  // The component

  class NgxDiagramComponent {
    const diagram: DiagramModel
    /** The `allowCanvasZoon` input. */
    var allowCanvasZoom: bool
    var allowCanvasTranslation: bool
    var inverseZoom: bool
    var allowLooseLinks: bool

    /** `action$`: the action in progress. */
    var action: Option<Action>
    /** What `actionStartedFiring`, `actionStillFiring` and `actionStoppedFiring` have emitted. */
    var startedFiring: seq<Action>
    var stillFiring: seq<Action>
    var stoppedFiring: seq<Option<Action>>

    /** Document listeners registered, and how many of them the component can still unregister. */
    var liveListeners: nat
    var heldListeners: nat

    ghost predicate Valid()
      reads this, diagram
    {
      diagram.Valid() && heldListeners <= liveListeners
    }

    constructor(model: DiagramModel)
      requires model.Valid()
      ensures diagram == model && Valid()
      ensures allowCanvasZoom && allowCanvasTranslation && inverseZoom && allowLooseLinks
      ensures action.None? && startedFiring == [] && stillFiring == [] && stoppedFiring == []
      ensures liveListeners == 0 && heldListeners == 0
    {
      diagram := model;
      allowCanvasZoom := true;
      allowCanvasTranslation := true;
      inverseZoom := true;
      allowLooseLinks := true;
      action := None;
      startedFiring := [];
      stillFiring := [];
      stoppedFiring := [];
      liveListeners := 0;
      heldListeners := 0;
    }

    /** `fireAction()`: report the action in progress, if any. */
    method FireAction()
      modifies this`stillFiring
      ensures stillFiring == old(stillFiring) + (if action.Some? then [action.value] else [])
    {
      if action.Some? {
        stillFiring := stillFiring + [action.value];
      }
    }

    /** `stopFiringAction(skip)`: report the action unless told not to, then go idle. */
    method StopFiringAction(shouldSkipEvent: bool)
      modifies this`stoppedFiring, this`action
      ensures action.None?
      ensures stoppedFiring == old(stoppedFiring) + (if shouldSkipEvent then [] else [old(action)])
    {
      if !shouldSkipEvent {
        stoppedFiring := stoppedFiring + [action];
      }
      action := None;
    }

    /** `startFiringAction(a)`: the new action replaces the old one and is reported. */
    method StartFiringAction(a: Action)
      modifies this`startedFiring, this`action
      ensures action == Some(a) && startedFiring == old(startedFiring) + [a]
    {
      action := Some(a);
      startedFiring := startedFiring + [a];
    }

    // ----- pointer down

    /** Drag a new link out of an unlocked port. */
    method DragLinkFrom(p: PortRef, c: Coords)
      requires Valid() && HasPort(diagram.graph, p)
      modifies diagram`graph
      ensures Valid() && diagram.graph == DragNewLink(old(diagram.graph), p, c)
    {
      ghost var g0 := diagram.graph;
      var linkType := diagram.graph.nodes[p.node].ports[p.port].linkType;
      var lid := diagram.Uid();
      var first := diagram.Uid();
      var last := diagram.Uid();
      var link := Link(linkType, None, None, [Point(first, Coords(0.0, 0.0), false), Point(last, Coords(0.0, 0.0), false)], false);
      diagram.AddPortLink(p, lid);
      link := link.(source := Some(p));
      link := link.(points := RemoveMiddlePoints(link.points));
      link := link.(target := None);
      link := link.(points := link.points[0 := link.points[0].(coords := c)]);
      link := link.(points := link.points[|link.points| - 1 := link.points[|link.points| - 1].(coords := c)]);
      diagram.ClearSelection();
      link := link.(points := link.points[|link.points| - 1 := link.points[|link.points| - 1].(selected := true)]);
      assert link == NewLinkFrom(g0, p, c);
      diagram.AddLink(lid, link);
    }

    /**
     * Select what was pressed, as the handler is written: its test for clearing the
     * selection first reads `getSelected` without calling it, a method reference that
     * is always truthy, so nothing is ever deselected here (see `PressSelectAsWritten`).
     */
    method SelectPressed(ref: ModelRef, shiftKey: bool)
      requires Valid()
      modifies diagram`graph
      ensures Valid() && diagram.graph == PressSelectAsWritten(old(diagram.graph), ref, shiftKey)
    {
      match ref
      case NodeModel(n) =>
        if n in diagram.graph.nodes {
          diagram.SetNodeSelected(n, true);
        }
      case LinkModel(l) =>
        if l in diagram.graph.links {
          diagram.SetLinkSelected(l);
        }
      case PointModel(l, pid) =>
        if l in diagram.graph.links && PointIndex(diagram.graph.links[l].points, pid) >= 0 {
          diagram.SetPointSelected(l, PointIndex(diagram.graph.links[l].points, pid), true);
        }
      case PortModel(_) =>
    }

    /** A press on the canvas. */
    method PressCanvas(e: MouseEvent)
      requires Valid()
      modifies diagram`graph, this`action, this`startedFiring
      ensures Valid()
      ensures e.shiftKey ==>
        diagram.graph == old(diagram.graph)
        && action == Some(SelectingAction(e.relative.x, e.relative.y, e.relative.x, e.relative.y))
      ensures !e.shiftKey ==>
        diagram.graph == ClearSelection(old(diagram.graph))
        && action == Some(MoveCanvasAction(e.clientX, e.clientY, diagram.offsetX, diagram.offsetY))
      ensures startedFiring == old(startedFiring) + [action.value]
    {
      if e.shiftKey {
        StartFiringAction(SelectingAction(e.relative.x, e.relative.y, e.relative.x, e.relative.y));
      } else {
        diagram.ClearSelection();
        StartFiringAction(MoveCanvasAction(e.clientX, e.clientY, diagram.offsetX, diagram.offsetY));
      }
    }

    /** A press on a port: an unlocked one starts dragging a new link, a locked one only clears the selection. */
    method PressPort(e: MouseEvent, p: PortRef)
      requires Valid() && HasPort(diagram.graph, p)
      modifies diagram`graph, this`action, this`startedFiring
      ensures Valid()
      ensures IsPortLocked(old(diagram.graph), p) ==>
        diagram.graph == ClearSelection(old(diagram.graph))
        && action == old(action) && startedFiring == old(startedFiring)
      ensures !IsPortLocked(old(diagram.graph), p) ==>
        var g0 := old(diagram.graph);
        var end := SelectionModel(PointModel(g0.nextUid, g0.nextUid + 2), e.relativeMouse);
        diagram.graph == DragNewLink(g0, p, e.relativeMouse)
        && action.Some? && action.value.MoveItemsAction?
        && action.value.mouseX == e.clientX && action.value.mouseY == e.clientY
        && end in action.value.selectionModels && (forall m :: m in action.value.selectionModels ==> m == end)
        && startedFiring == old(startedFiring) + [action.value]
    {
      if !IsPortLocked(diagram.graph, p) {
        ghost var g0 := diagram.graph;
        DragLinkFrom(p, e.relativeMouse);
        var a := NewMoveItemsAction(e.clientX, e.clientY, diagram.graph);
        DragGathersNewEnd(g0, p, e.relativeMouse, a.selectionModels);
        StartFiringAction(a);
      } else {
        diagram.ClearSelection();
      }
    }

    /** A press on a node, link or point: select it and start moving the selection. */
    method PressElement(e: MouseEvent, ref: ModelRef)
      requires Valid()
      modifies diagram`graph, this`action, this`startedFiring
      ensures Valid()
      ensures diagram.graph == PressSelectAsWritten(old(diagram.graph), ref, e.shiftKey)
      ensures action.Some? && action.value.MoveItemsAction?
      ensures action.value.mouseX == e.clientX && action.value.mouseY == e.clientY
      ensures GathersAll(diagram.graph, action.value.selectionModels)
      ensures startedFiring == old(startedFiring) + [action.value]
    {
      SelectPressed(ref, e.shiftKey);
      var a := NewMoveItemsAction(e.clientX, e.clientY, diagram.graph);
      StartFiringAction(a);
    }

    /** What a press does once the element under the pointer has resolved. */
    method PressOn(e: MouseEvent, el: Option<ModelRef>)
      requires Valid()
      requires el.Some? && el.value.PortModel? ==> HasPort(diagram.graph, el.value.port)
      modifies this, diagram`graph
      ensures Valid()
      ensures allowCanvasZoom == old(allowCanvasZoom) && allowCanvasTranslation == old(allowCanvasTranslation)
      ensures inverseZoom == old(inverseZoom) && allowLooseLinks == old(allowLooseLinks)
      ensures stillFiring == old(stillFiring) && stoppedFiring == old(stoppedFiring)
      ensures liveListeners == old(liveListeners) + 2 && heldListeners == 2
      ensures el.None? ==>
        (e.shiftKey ==>
          diagram.graph == old(diagram.graph)
          && action == Some(SelectingAction(e.relative.x, e.relative.y, e.relative.x, e.relative.y))
          && startedFiring == old(startedFiring) + [action.value])
        && (!e.shiftKey ==>
          diagram.graph == ClearSelection(old(diagram.graph))
          && action == Some(MoveCanvasAction(e.clientX, e.clientY, diagram.offsetX, diagram.offsetY))
          && startedFiring == old(startedFiring) + [action.value])
      ensures el.Some? && el.value.PortModel? && IsPortLocked(old(diagram.graph), el.value.port) ==>
        diagram.graph == ClearSelection(old(diagram.graph))
        && action == old(action) && startedFiring == old(startedFiring)
      ensures el.Some? && el.value.PortModel? && !IsPortLocked(old(diagram.graph), el.value.port) ==>
        var g0 := old(diagram.graph);
        var end := SelectionModel(PointModel(g0.nextUid, g0.nextUid + 2), e.relativeMouse);
        diagram.graph == DragNewLink(g0, el.value.port, e.relativeMouse)
        && action.Some? && action.value.MoveItemsAction?
        && action.value.mouseX == e.clientX && action.value.mouseY == e.clientY
        && end in action.value.selectionModels && (forall m :: m in action.value.selectionModels ==> m == end)
        && startedFiring == old(startedFiring) + [action.value]
      ensures el.Some? && !el.value.PortModel? ==>
        diagram.graph == PressSelectAsWritten(old(diagram.graph), el.value, e.shiftKey)
        && action.Some? && action.value.MoveItemsAction?
        && action.value.mouseX == e.clientX && action.value.mouseY == e.clientY
        && GathersAll(diagram.graph, action.value.selectionModels)
        && startedFiring == old(startedFiring) + [action.value]
    {
      if el.None? {
        PressCanvas(e);
      } else if el.value.PortModel? {
        PressPort(e, el.value.port);
      } else {
        PressElement(e, el.value);
      }
      liveListeners := liveListeners + 2;
      heldListeners := 2;
    }

    /**
     * `onMouseDown(event)`. A press of button 3 is ignored and a failed lookup changes
     * nothing. On the canvas, shift starts a rubber band at the pointer; otherwise the
     * selection is cleared and canvas dragging starts from the current offset. On an
     * unlocked port a new link is dragged out and its last point moved; on a locked
     * port the selection is only cleared. On anything else the element is selected and
     * the selected items start moving. Both document listeners are then registered.
     */
    method OnMouseDown(e: MouseEvent) returns (r: Outcome<LookupError>)
      requires Valid()
      modifies this, diagram
      ensures Valid()
      ensures allowCanvasZoom == old(allowCanvasZoom) && allowCanvasTranslation == old(allowCanvasTranslation)
      ensures inverseZoom == old(inverseZoom) && allowLooseLinks == old(allowLooseLinks)
      ensures stillFiring == old(stillFiring) && stoppedFiring == old(stoppedFiring)
      ensures diagram.zoomLevel == old(diagram.zoomLevel)
      ensures diagram.offsetX == old(diagram.offsetX) && diagram.offsetY == old(diagram.offsetY)
      ensures e.button == 3 ==> r.Pass? && unchanged(this) && unchanged(diagram)
      ensures e.button != 3 && GetMouseElement(old(diagram.graph), e.target).Failure? ==>
        r == Fail(GetMouseElement(old(diagram.graph), e.target).error) && unchanged(this) && unchanged(diagram)
      ensures e.button != 3 && GetMouseElement(old(diagram.graph), e.target).Success? ==>
        r.Pass? && liveListeners == old(liveListeners) + 2 && heldListeners == 2
      ensures e.button != 3 && GetMouseElement(old(diagram.graph), e.target) == Success(None) ==>
        (e.shiftKey ==>
          diagram.graph == old(diagram.graph)
          && action == Some(SelectingAction(e.relative.x, e.relative.y, e.relative.x, e.relative.y))
          && startedFiring == old(startedFiring) + [action.value])
        && (!e.shiftKey ==>
          diagram.graph == ClearSelection(old(diagram.graph))
          && action == Some(MoveCanvasAction(e.clientX, e.clientY, old(diagram.offsetX), old(diagram.offsetY)))
          && startedFiring == old(startedFiring) + [action.value])
      ensures e.button != 3 && GetMouseElement(old(diagram.graph), e.target).Success? ==>
        var el := GetMouseElement(old(diagram.graph), e.target).value;
        (el.Some? && el.value.PortModel? && IsPortLocked(old(diagram.graph), el.value.port) ==>
          diagram.graph == ClearSelection(old(diagram.graph))
          && action == old(action) && startedFiring == old(startedFiring))
        && (el.Some? && el.value.PortModel? && !IsPortLocked(old(diagram.graph), el.value.port) ==>
          var g0 := old(diagram.graph);
          var end := SelectionModel(PointModel(g0.nextUid, g0.nextUid + 2), e.relativeMouse);
          diagram.graph == DragNewLink(g0, el.value.port, e.relativeMouse)
          && action.Some? && action.value.MoveItemsAction?
          && action.value.mouseX == e.clientX && action.value.mouseY == e.clientY
          && end in action.value.selectionModels && (forall m :: m in action.value.selectionModels ==> m == end)
          && startedFiring == old(startedFiring) + [action.value])
        && (el.Some? && !el.value.PortModel? ==>
          diagram.graph == PressSelectAsWritten(old(diagram.graph), el.value, e.shiftKey)
          && action.Some? && action.value.MoveItemsAction?
          && action.value.mouseX == e.clientX && action.value.mouseY == e.clientY
          && GathersAll(diagram.graph, action.value.selectionModels)
          && startedFiring == old(startedFiring) + [action.value])
    {
      if e.button == 3 {
        return Pass;
      }
      var selected := GetMouseElement(diagram.graph, e.target);
      if selected.Failure? {
        return Fail(selected.error);
      }
      PressOn(e, selected.value);
      r := Pass;
    }

    // ----- pointer move

    /** The node half of a selecting move. */
    method BoxSelectNodes(a: Action)
      requires Valid() && a.SelectingAction?
      modifies diagram`graph
      ensures Valid()
      ensures diagram.graph == old(diagram.graph).(nodes := BoxSelect(old(diagram.graph), a, diagram.View()).nodes)
    {
      ghost var g0 := diagram.graph;
      var vp := diagram.View();
      var todo := diagram.graph.nodes.Keys;
      while todo != {}
        invariant Valid() && todo <= g0.nodes.Keys
        invariant diagram.graph.links == g0.links && diagram.graph.nextUid == g0.nextUid
        invariant diagram.graph.nodes.Keys == g0.nodes.Keys
        invariant forall n :: n in g0.nodes ==>
          diagram.graph.nodes[n] == if n in todo then g0.nodes[n] else g0.nodes[n].(selected := ContainsElement(a, g0.nodes[n].coords, vp))
        decreases todo
      {
        var n :| n in todo;
        diagram.SetNodeSelected(n, ContainsElement(a, diagram.graph.nodes[n].coords, vp));
        todo := todo - {n};
      }
    }

    /** The points of one link in a selecting move, then the link when all were inside. */
    method BoxSelectOneLink(a: Action, l: ID)
      requires Valid() && a.SelectingAction? && l in diagram.graph.links
      modifies diagram`graph
      ensures Valid()
      ensures diagram.graph == WithLink(old(diagram.graph), l, BoxSelectLink(old(diagram.graph.links[l]), a, diagram.View()))
    {
      ghost var g0 := diagram.graph;
      var vp := diagram.View();
      var link0 := diagram.graph.links[l];
      var allSelected := true;
      var j := 0;
      while j < |link0.points|
        invariant Valid() && 0 <= j <= |link0.points|
        invariant diagram.graph.nodes == g0.nodes && diagram.graph.nextUid == g0.nextUid
        invariant diagram.graph.links.Keys == g0.links.Keys
        invariant forall k :: k in g0.links && k != l ==> diagram.graph.links[k] == g0.links[k]
        invariant diagram.graph.links[l].(points := link0.points) == link0
        invariant |diagram.graph.links[l].points| == |link0.points|
        invariant forall k :: 0 <= k < |link0.points| ==>
          diagram.graph.links[l].points[k] == if k < j then link0.points[k].(selected := ContainsElement(a, link0.points[k].coords, vp)) else link0.points[k]
        invariant allSelected <==> forall k :: 0 <= k < j ==> ContainsElement(a, link0.points[k].coords, vp)
      {
        var inside := ContainsElement(a, diagram.graph.links[l].points[j].coords, vp);
        diagram.SetPointSelected(l, j, inside);
        if !inside {
          allSelected := false;
        }
        j := j + 1;
      }
      assert diagram.graph.links[l].points == BoxSelectPoints(link0.points, a, vp);
      if allSelected {
        diagram.SetLinkSelected(l);
      }
      assert diagram.graph.links == g0.links[l := BoxSelectLink(link0, a, vp)];
    }

    /** The link half of a selecting move. */
    method BoxSelectLinks(a: Action)
      requires Valid() && a.SelectingAction?
      modifies diagram`graph
      ensures Valid()
      ensures diagram.graph == old(diagram.graph).(links := BoxSelect(old(diagram.graph), a, diagram.View()).links)
    {
      ghost var g0 := diagram.graph;
      var vp := diagram.View();
      var todo := diagram.graph.links.Keys;
      while todo != {}
        invariant Valid() && todo <= g0.links.Keys
        invariant diagram.graph.nodes == g0.nodes && diagram.graph.nextUid == g0.nextUid
        invariant diagram.graph.links.Keys == g0.links.Keys
        invariant forall l :: l in g0.links ==>
          diagram.graph.links[l] == if l in todo then g0.links[l] else BoxSelectLink(g0.links[l], a, vp)
        decreases todo
      {
        var l :| l in todo;
        BoxSelectOneLink(a, l);
        todo := todo - {l};
      }
    }

    /** One item of a move. */
    method MoveItem(m: SelectionModel, amount: Coords, z: real)
      requires Valid() && z != 0.0
      modifies diagram`graph
      ensures Valid() && diagram.graph == MoveOne(old(diagram.graph), m, amount, z, diagram.gridSize)
    {
      match m.model
      case NodeModel(n) =>
        if n in diagram.graph.nodes {
          diagram.MoveNodeTo(n, MovedCoords(m, amount, z, diagram.gridSize, true));
        }
      case PointModel(l, pid) =>
        if l in diagram.graph.links && PointIndex(diagram.graph.links[l].points, pid) >= 0 {
          var link := diagram.graph.links[l];
          var i := PointIndex(link.points, pid);
          diagram.MovePointTo(l, i, MovedCoords(m, amount, z, diagram.gridSize, !IsConnectedToPort(link, i)));
        }
      case _ =>
    }

    /** Every item of a move, in the order of the selection. */
    method MoveItems(sel: seq<SelectionModel>, amount: Coords, z: real)
      requires Valid() && z != 0.0
      modifies diagram`graph
      ensures Valid() && diagram.graph == MoveAll(old(diagram.graph), sel, amount, z, diagram.gridSize)
    {
      ghost var g0 := diagram.graph;
      var k := 0;
      while k < |sel|
        invariant Valid() && 0 <= k <= |sel|
        invariant diagram.graph == MoveAll(g0, sel[..k], amount, z, diagram.gridSize)
      {
        assert sel[..k + 1][..k] == sel[..k];
        MoveItem(sel[k], amount, z);
        k := k + 1;
      }
      assert sel[..|sel|] == sel;
    }

    /**
     * `onMouseMove(event)`. Idle: nothing. Selecting: nodes and points are selected by
     * the current box, the box's second corner follows the pointer and the action is
     * reported. Moving items: each item moves by the pointer travel over the zoom
     * factor, and the action is reported. Moving the canvas: when allowed, the offset
     * follows the pointer and the action is reported.
     */
    method OnMouseMove(e: MouseEvent)
      requires Valid()
      modifies this, diagram
      ensures Valid()
      ensures allowCanvasZoom == old(allowCanvasZoom) && allowCanvasTranslation == old(allowCanvasTranslation)
      ensures inverseZoom == old(inverseZoom) && allowLooseLinks == old(allowLooseLinks)
      ensures startedFiring == old(startedFiring) && stoppedFiring == old(stoppedFiring)
      ensures liveListeners == old(liveListeners) && heldListeners == old(heldListeners)
      ensures diagram.zoomLevel == old(diagram.zoomLevel)
      ensures old(action).None? ==> unchanged(this) && unchanged(diagram)
      ensures old(action).Some? && old(action).value.SelectingAction? ==>
        var a := old(action).value;
        diagram.graph == BoxSelect(old(diagram.graph), a, Viewport(old(diagram.zoomLevel), old(diagram.offsetX), old(diagram.offsetY)))
        && diagram.offsetX == old(diagram.offsetX) && diagram.offsetY == old(diagram.offsetY)
        && action == Some(a.(mouseX2 := e.relative.x, mouseY2 := e.relative.y))
        && stillFiring == old(stillFiring) + [action.value]
      ensures old(action).Some? && old(action).value.MoveItemsAction? ==>
        var a := old(action).value;
        diagram.graph == MoveAll(old(diagram.graph), a.selectionModels, Coords(e.clientX - a.mouseX, e.clientY - a.mouseY),
                                 old(diagram.zoomLevel) / 100.0, diagram.gridSize)
        && diagram.offsetX == old(diagram.offsetX) && diagram.offsetY == old(diagram.offsetY)
        && action == old(action) && stillFiring == old(stillFiring) + [a]
      ensures old(action).Some? && old(action).value.MoveCanvasAction? ==>
        var a := old(action).value;
        diagram.graph == old(diagram.graph) && action == old(action)
        && (allowCanvasTranslation ==>
              diagram.offsetX == a.initialOffsetX + (e.clientX - a.mouseX)
              && diagram.offsetY == a.initialOffsetY + (e.clientY - a.mouseY)
              && stillFiring == old(stillFiring) + [a])
        && (!allowCanvasTranslation ==>
              diagram.offsetX == old(diagram.offsetX) && diagram.offsetY == old(diagram.offsetY)
              && stillFiring == old(stillFiring))
    {
      if action.None? {
        return;
      }
      var a := action.value;
      match a
      case SelectingAction(_, _, _, _) =>
        ghost var g0 := diagram.graph;
        BoxSelectNodes(a);
        ghost var g1 := diagram.graph;
        BoxSelectLinks(a);
        assert diagram.graph == BoxSelect(g0, a, diagram.View());
        action := Some(a.(mouseX2 := e.relative.x, mouseY2 := e.relative.y));
        FireAction();
      case MoveItemsAction(mouseX, mouseY, sel) =>
        var amount := Coords(e.clientX - mouseX, e.clientY - mouseY);
        var amountZoom := diagram.zoomLevel / 100.0;
        MoveItems(sel, amount, amountZoom);
        FireAction();
      case MoveCanvasAction(mouseX, mouseY, initialOffsetX, initialOffsetY) =>
        if allowCanvasTranslation {
          diagram.SetOffset(initialOffsetX + (e.clientX - mouseX), initialOffsetY + (e.clientY - mouseY));
          FireAction();
        }
    }

    // ----- pointer up

    /** The steps of cutting a link in two at a dropped point, in the handler's order. */
    method SplitLinkAt(lid: ID, pid: ID, p: PortRef)
      requires Valid() && lid in diagram.graph.links && diagram.graph.links[lid].target.Some?
      modifies diagram`graph
      ensures Valid() && diagram.graph == Split(old(diagram.graph), lid, pid, p)
    {
      var link := diagram.graph.links[lid];
      var targetPort := link.target.value;
      var nid := diagram.Uid();
      var newLink := link;
      diagram.AddPortLink(p, nid);
      newLink := newLink.(source := Some(p));
      diagram.AddPortLink(targetPort, nid);
      newLink := newLink.(target := Some(targetPort));
      diagram.SetTargetPort(lid, Some(p));
      diagram.RemovePortLink(targetPort, lid);
      var i := PointIndex(link.points, pid);
      if i >= 0 {
        newLink := newLink.(points := RemovePointsBefore(newLink.points, newLink.points[i].id));
      }
      diagram.RemovePointsAfter(lid, pid);
      diagram.AddLink(nid, newLink);
    }

    /** One item of the attach pass. */
    method AttachPoint(m: SelectionModel, hit: Option<PortRef>)
      requires Valid()
      modifies diagram`graph
      ensures Valid() && diagram.graph == AttachOne(old(diagram.graph), m, hit)
    {
      if m.model.PointModel? && hit.Some? && m.model.link in diagram.graph.links {
        var lid := m.model.link;
        var link := diagram.graph.links[lid];
        var p := hit.value;
        if link.target.Some? {
          if link.target != Some(p) && link.source != Some(p) {
            SplitLinkAt(lid, m.model.point, p);
          } else if link.target == Some(p) {
            diagram.RemovePointsAfter(lid, m.model.point);
          } else {
            diagram.RemovePointsBefore(lid, m.model.point);
          }
        } else {
          diagram.SetTargetPort(lid, Some(p));
        }
      }
    }

    method AttachPoints(sel: seq<SelectionModel>, hit: Option<PortRef>)
      requires Valid()
      modifies diagram`graph
      ensures Valid() && diagram.graph == AttachAll(old(diagram.graph), sel, hit)
    {
      ghost var g0 := diagram.graph;
      var k := 0;
      while k < |sel|
        invariant Valid() && 0 <= k <= |sel|
        invariant diagram.graph == AttachAll(g0, sel[..k], hit)
      {
        assert sel[..k + 1][..k] == sel[..k];
        AttachPoint(sel[k], hit);
        k := k + 1;
      }
      assert sel[..|sel|] == sel;
    }

    method RemoveLooseLinks(sel: seq<SelectionModel>)
      requires Valid()
      modifies diagram`graph
      ensures Valid() && diagram.graph == LooseAll(old(diagram.graph), sel)
    {
      ghost var g0 := diagram.graph;
      var k := 0;
      while k < |sel|
        invariant Valid() && 0 <= k <= |sel|
        invariant diagram.graph == LooseAll(g0, sel[..k])
      {
        assert sel[..k + 1][..k] == sel[..k];
        var m := sel[k];
        if m.model.PointModel? && m.model.link in diagram.graph.links {
          var link := diagram.graph.links[m.model.link];
          if link.source.None? || link.target.None? {
            diagram.RemoveLink(m.model.link);
          }
        }
        k := k + 1;
      }
      assert sel[..|sel|] == sel;
    }

    method RemoveInvalidLinks(sel: seq<SelectionModel>)
      requires Valid()
      modifies diagram`graph
      ensures Valid() && diagram.graph == InvalidAll(old(diagram.graph), sel)
    {
      ghost var g0 := diagram.graph;
      var k := 0;
      while k < |sel|
        invariant Valid() && 0 <= k <= |sel|
        invariant diagram.graph == InvalidAll(g0, sel[..k])
      {
        assert sel[..k + 1][..k] == sel[..k];
        var m := sel[k];
        if m.model.PointModel? && m.model.link in diagram.graph.links {
          var lid := m.model.link;
          var link := diagram.graph.links[lid];
          if link.source.Some? && link.target.Some? {
            var s := link.source.value;
            var t := link.target.value;
            if !CanLinkToPort(diagram.graph, s, t) {
              diagram.RemoveLink(lid);
            } else if IsDuplicate(diagram.graph, lid, s, t) {
              diagram.RemoveLink(lid);
            }
          }
        }
        k := k + 1;
      }
      assert sel[..|sel|] == sel;
    }

    /** The unlocked port under the pointer, if it resolved to one. */
    static function DropTarget(g: Graph, element: Option<ModelRef>): (hit: Option<PortRef>)
      ensures hit.Some? <==> element.Some? && element.value.PortModel? && !IsPortLocked(g, element.value.port)
      ensures hit.Some? ==> hit.value == element.value.port
    {
      if element.Some? && element.value.PortModel? && !IsPortLocked(g, element.value.port)
      then Some(element.value.port) else None
    }

    /**
     * `onMouseUp(event)`. After a move, the moved points are attached to the unlocked
     * port under the pointer, loose moved links are removed when loose links are not
     * allowed, and refused or duplicate moved links are removed. In every case the
     * action is reported as stopped, the listeners are unregistered and the component
     * goes idle. A failed lookup of the element under the pointer changes nothing.
     */
    method OnMouseUp(e: MouseEvent) returns (r: Outcome<LookupError>)
      requires Valid()
      modifies this, diagram
      ensures Valid()
      ensures allowCanvasZoom == old(allowCanvasZoom) && allowCanvasTranslation == old(allowCanvasTranslation)
      ensures inverseZoom == old(inverseZoom) && allowLooseLinks == old(allowLooseLinks)
      ensures startedFiring == old(startedFiring) && stillFiring == old(stillFiring)
      ensures diagram.zoomLevel == old(diagram.zoomLevel)
      ensures diagram.offsetX == old(diagram.offsetX) && diagram.offsetY == old(diagram.offsetY)
      ensures var moving := old(action).Some? && old(action).value.MoveItemsAction?;
        var element := GetMouseElement(old(diagram.graph), e.target);
        if moving && element.Failure? then
          r == Fail(element.error) && unchanged(this) && unchanged(diagram)
        else
          r.Pass? && action.None? && stoppedFiring == old(stoppedFiring) + [old(action)]
          && heldListeners == 0 && liveListeners == old(liveListeners) - old(heldListeners)
          && (!moving ==> diagram.graph == old(diagram.graph))
          && (moving ==> diagram.graph == Commit(old(diagram.graph), old(action).value.selectionModels,
                                                 DropTarget(old(diagram.graph), element.value), allowLooseLinks))
    {
      if action.Some? && action.value.MoveItemsAction? {
        var sel := action.value.selectionModels;
        var element := GetMouseElement(diagram.graph, e.target);
        if element.Failure? {
          return Fail(element.error);
        }
        var hit := DropTarget(diagram.graph, element.value);
        AttachPoints(sel, hit);
        if !allowLooseLinks {
          RemoveLooseLinks(sel);
        }
        RemoveInvalidLinks(sel);
        StopFiringAction(false);
      } else {
        StopFiringAction(false);
      }
      liveListeners := liveListeners - heldListeners;
      heldListeners := 0;
      action := None;
      r := Pass;
    }

    // ----- the wheel

    /**
     * `onMouseWheel(event)`. When zoom is allowed, the zoom level takes one step (kept
     * above 10) and the offset is moved so that the point under the cursor stays put.
     */
    method OnMouseWheel(e: WheelEvent)
      requires Valid() && e.rectWidth > 0.0 && e.rectHeight > 0.0
      modifies diagram`zoomLevel, diagram`offsetX, diagram`offsetY
      ensures Valid()
      ensures !allowCanvasZoom ==> unchanged(diagram)
      ensures allowCanvasZoom ==>
        var oldF := old(diagram.zoomLevel) / 100.0;
        var f := diagram.zoomLevel / 100.0;
        diagram.zoomLevel == NextZoomLevel(old(diagram.zoomLevel), ScrollDelta(e.deltaY, e.ctrlKey, inverseZoom))
        && (e.clientX - e.rectLeft - diagram.offsetX) / f == (e.clientX - e.rectLeft - old(diagram.offsetX)) / oldF
        && (e.clientY - e.rectTop - diagram.offsetY) / f == (e.clientY - e.rectTop - old(diagram.offsetY)) / oldF
    {
      if allowCanvasZoom {
        var currentZoomLevel := diagram.zoomLevel;
        var oldZoomFactor := currentZoomLevel / 100.0;
        var scrollDelta := ScrollDelta(e.deltaY, e.ctrlKey, inverseZoom);
        diagram.SetZoomLevel(NextZoomLevel(currentZoomLevel, scrollDelta));
        var zoomFactor := diagram.zoomLevel / 100.0;
        var clientX := e.clientX - e.rectLeft;
        var clientY := e.clientY - e.rectTop;
        var ox := diagram.offsetX;
        var oy := diagram.offsetY;
        AnchoredOffsetKeepsCursorPoint(ox, clientX, e.rectWidth, oldZoomFactor, zoomFactor);
        AnchoredOffsetKeepsCursorPoint(oy, clientY, e.rectHeight, oldZoomFactor, zoomFactor);
        diagram.SetOffset(AnchoredOffset(ox, clientX, e.rectWidth, oldZoomFactor, zoomFactor),
                          AnchoredOffset(oy, clientY, e.rectHeight, oldZoomFactor, zoomFactor));
      }
    }
  }

  /** A press followed by a release gives back both listeners the press registered. */
  method PressThenRelease(c: NgxDiagramComponent, down: MouseEvent, up: MouseEvent) returns (released: Outcome<LookupError>)
    requires c.Valid() && down.button != 3
    requires GetMouseElement(c.diagram.graph, down.target).Success?
    modifies c, c.diagram
    ensures c.Valid()
    ensures released.Pass? ==> c.liveListeners == old(c.liveListeners) && c.heldListeners == 0 && c.action.None?
  {
    var pressed := c.OnMouseDown(down);
    released := c.OnMouseUp(up);
  }
}
