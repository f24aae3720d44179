/**
 * `getMouseElement`: which model the element under the pointer stands for. The page is
 * modelled as the chain of elements from the event target up to the document root,
 * each with the `data-*` attributes it carries.
 */
module MouseElement {
  import opened Wrappers
  import opened GraphModel
  import opened Gestures

  /** A page element and its id-valued `data-*` attributes. */
  datatype Element = Element(attributes: map<string, ID>)

  const PortAttribute := "data-portid"
  const NodeAttribute := "data-nodeid"
  const PointAttribute := "data-pointid"
  const LinkAttribute := "data-linkid"

  /** Why a lookup failed: the handler throws and nothing changes. */
  datatype LookupError =
    | MissingElement(attribute: string)
    | MissingAttribute(attribute: string)
    | NodeNotFound(node: ID)
    | PortNotFound(port: PortRef)
    | LinkNotFound(link: ID)
    | PointNotFound(link: ID, point: ID)

  /** `target.closest('[attr]')`: the nearest element of the chain carrying the attribute. */
  function Closest(chain: seq<Element>, attr: string): (r: Option<nat>)
    ensures r.Some? ==>
      r.value < |chain| && attr in chain[r.value].attributes
      && forall j :: 0 <= j < r.value ==> attr !in chain[j].attributes
    ensures r.None? <==> forall j :: 0 <= j < |chain| ==> attr !in chain[j].attributes
    decreases |chain|
  {
    if chain == [] then None
    else if attr in chain[0].attributes then Some(0)
    else
      var k := Closest(chain[1..], attr);
      if k.Some? then Some(k.value + 1) else None
  }

  /** Some element of the chain carries the attribute. */
  predicate Carries(chain: seq<Element>, attr: string)
  {
    exists j :: 0 <= j < |chain| && attr in chain[j].attributes
  }

  /** The value of `attr` on the nearest element carrying it (`closest(..).getAttribute(attr)`). */
  function NearestValue(chain: seq<Element>, attr: string): (r: Option<ID>)
    ensures r.Some? <==> Carries(chain, attr)
    ensures r.Some? ==> exists j :: 0 <= j < |chain| && attr in chain[j].attributes && r.value == chain[j].attributes[attr]
    ensures r.Some? ==> r.value == chain[Closest(chain, attr).value].attributes[attr]
  {
    var k := Closest(chain, attr);
    if k.Some? then Some(chain[k.value].attributes[attr]) else None
  }

  /** The attributes of the nearest point element, which also names the point's link. */
  function PointElement(chain: seq<Element>): (r: Option<map<string, ID>>)
    ensures r.Some? <==> Carries(chain, PointAttribute)
    ensures r.Some? ==> PointAttribute in r.value && r.value == chain[Closest(chain, PointAttribute).value].attributes
  {
    var k := Closest(chain, PointAttribute);
    if k.Some? then Some(chain[k.value].attributes) else None
  }

  /** The port the chain names: the nearest port id, inside the nearest node id. */
  function PortTarget(chain: seq<Element>): (r: Option<PortRef>)
    ensures r.Some? <==> Carries(chain, PortAttribute) && Carries(chain, NodeAttribute)
    ensures r.Some? ==>
      r.value == PortRef(NearestValue(chain, NodeAttribute).value, NearestValue(chain, PortAttribute).value)
  {
    var n := NearestValue(chain, NodeAttribute);
    var p := NearestValue(chain, PortAttribute);
    if n.Some? && p.Some? then Some(PortRef(n.value, p.value)) else None
  }

  /**
   * Ports first, then points, then links, then nodes; `Success(None)` is the canvas.
   * A port is looked up through the nearest node element; a point through the link id
   * its own element carries. Each model found is the one the nearest element names,
   * and each failure is the lookup that threw.
   */
  function GetMouseElement(g: Graph, chain: seq<Element>): (r: Result<Option<ModelRef>, LookupError>)
    // the canvas, exactly when no element names anything
    ensures r == Success(None) <==>
      !Carries(chain, PortAttribute) && !Carries(chain, PointAttribute)
      && !Carries(chain, LinkAttribute) && !Carries(chain, NodeAttribute)
    // a port, exactly when a port element names an existing port of the nearest node
    ensures (r.Success? && r.value.Some? && r.value.value.PortModel?) <==>
      PortTarget(chain).Some? && HasPort(g, PortTarget(chain).value)
    ensures r.Success? && r.value.Some? && r.value.value.PortModel? ==> r.value.value.port == PortTarget(chain).value
    // a point, exactly when there is no port element and the nearest point element names an existing point
    ensures (r.Success? && r.value.Some? && r.value.value.PointModel?) <==>
      !Carries(chain, PortAttribute) && PointElement(chain).Some?
      && LinkAttribute in PointElement(chain).value
      && PointElement(chain).value[LinkAttribute] in g.links
      && PointIndex(g.links[PointElement(chain).value[LinkAttribute]].points, PointElement(chain).value[PointAttribute]) >= 0
    ensures r.Success? && r.value.Some? && r.value.value.PointModel? ==>
      r.value.value.link == PointElement(chain).value[LinkAttribute]
      && r.value.value.point == PointElement(chain).value[PointAttribute]
    // a link, exactly when no port or point element and the nearest link element names an existing link
    ensures (r.Success? && r.value.Some? && r.value.value.LinkModel?) <==>
      !Carries(chain, PortAttribute) && !Carries(chain, PointAttribute)
      && NearestValue(chain, LinkAttribute).Some? && NearestValue(chain, LinkAttribute).value in g.links
    ensures r.Success? && r.value.Some? && r.value.value.LinkModel? ==>
      r.value.value.link == NearestValue(chain, LinkAttribute).value
    // a node, exactly when only node elements name something and the nearest names an existing node
    ensures (r.Success? && r.value.Some? && r.value.value.NodeModel?) <==>
      !Carries(chain, PortAttribute) && !Carries(chain, PointAttribute) && !Carries(chain, LinkAttribute)
      && NearestValue(chain, NodeAttribute).Some? && NearestValue(chain, NodeAttribute).value in g.nodes
    ensures r.Success? && r.value.Some? && r.value.value.NodeModel? ==>
      r.value.value.node == NearestValue(chain, NodeAttribute).value
    // the failures: which lookup threw, and on what
    ensures r.Failure? && r.error.MissingElement? <==>
      Carries(chain, PortAttribute) && !Carries(chain, NodeAttribute)
    ensures r.Failure? && r.error.MissingElement? ==> r.error.attribute == NodeAttribute
    ensures r.Failure? && r.error.MissingAttribute? <==>
      !Carries(chain, PortAttribute) && PointElement(chain).Some? && LinkAttribute !in PointElement(chain).value
    ensures r.Failure? && r.error.MissingAttribute? ==> r.error.attribute == LinkAttribute
    ensures r.Failure? && r.error.NodeNotFound? ==>
      r.error.node !in g.nodes && NearestValue(chain, NodeAttribute) == Some(r.error.node)
      && (Carries(chain, PortAttribute)
          || (!Carries(chain, PointAttribute) && !Carries(chain, LinkAttribute)))
    ensures r.Failure? && r.error.PortNotFound? ==>
      PortTarget(chain) == Some(r.error.port) && r.error.port.node in g.nodes && !HasPort(g, r.error.port)
    ensures r.Failure? && r.error.LinkNotFound? ==>
      r.error.link !in g.links && !Carries(chain, PortAttribute)
      && ((PointElement(chain).Some? && LinkAttribute in PointElement(chain).value
           && PointElement(chain).value[LinkAttribute] == r.error.link)
          || (!Carries(chain, PointAttribute) && NearestValue(chain, LinkAttribute) == Some(r.error.link)))
    ensures r.Failure? && r.error.PointNotFound? ==>
      !Carries(chain, PortAttribute) && PointElement(chain).Some?
      && LinkAttribute in PointElement(chain).value
      && r.error.link == PointElement(chain).value[LinkAttribute]
      && r.error.point == PointElement(chain).value[PointAttribute]
      && r.error.link in g.links && PointIndex(g.links[r.error.link].points, r.error.point) < 0
  {
    var portEl := Closest(chain, PortAttribute);
    var pointEl := Closest(chain, PointAttribute);
    var linkEl := Closest(chain, LinkAttribute);
    var nodeEl := Closest(chain, NodeAttribute);
    if portEl.Some? then
      if nodeEl.None? then Failure(MissingElement(NodeAttribute))
      else
        var n := chain[nodeEl.value].attributes[NodeAttribute];
        var p := PortRef(n, chain[portEl.value].attributes[PortAttribute]);
        if n !in g.nodes then Failure(NodeNotFound(n))
        else if !HasPort(g, p) then Failure(PortNotFound(p))
        else Success(Some(PortModel(p)))
    else if pointEl.Some? then
      var attrs := chain[pointEl.value].attributes;
      if LinkAttribute !in attrs then Failure(MissingAttribute(LinkAttribute))
      else
        var l := attrs[LinkAttribute];
        var pid := attrs[PointAttribute];
        if l !in g.links then Failure(LinkNotFound(l))
        else if PointIndex(g.links[l].points, pid) < 0 then Failure(PointNotFound(l, pid))
        else Success(Some(PointModel(l, pid)))
    else if linkEl.Some? then
      var l := chain[linkEl.value].attributes[LinkAttribute];
      if l !in g.links then Failure(LinkNotFound(l)) else Success(Some(LinkModel(l)))
    else if nodeEl.Some? then
      var n := chain[nodeEl.value].attributes[NodeAttribute];
      if n !in g.nodes then Failure(NodeNotFound(n)) else Success(Some(NodeModel(n)))
    else Success(None)
  }

  /**
   * The nearest element carrying the highest-priority attribute decides: pressing on a
   * port element inside a node element resolves to the port, not the node.
   */
  lemma PortBeatsNode(g: Graph, chain: seq<Element>, n: ID, port: ID)
    requires |chain| >= 1 && chain[0] == Element(map[PortAttribute := port])
    requires forall j :: 1 <= j < |chain| ==> chain[j] == Element(map[NodeAttribute := n])
    requires |chain| >= 2 && HasPort(g, PortRef(n, port))
    ensures GetMouseElement(g, chain) == Success(Some(PortModel(PortRef(n, port))))
  {
    assert NodeAttribute in chain[1].attributes;
    assert NodeAttribute !in chain[0].attributes;
    assert Closest(chain, NodeAttribute) == Some(1);
  }

  /** A point element carrying its link's id resolves to that point of that link. */
  lemma PointResolves(g: Graph, rest: seq<Element>, l: ID, i: nat)
    requires l in g.links && i < |g.links[l].points|
    requires forall j :: 0 <= j < |rest| ==> PortAttribute !in rest[j].attributes
    ensures var pid := g.links[l].points[i].id;
      GetMouseElement(g, [Element(map[PointAttribute := pid, LinkAttribute := l])] + rest)
        == Success(Some(PointModel(l, pid)))
  {
    var pid := g.links[l].points[i].id;
    var chain := [Element(map[PointAttribute := pid, LinkAttribute := l])] + rest;
    assert PortAttribute !in chain[0].attributes;
    assert forall j :: 1 <= j < |chain| ==> chain[j] == rest[j - 1];
    assert Closest(chain, PointAttribute) == Some(0);
  }
}
