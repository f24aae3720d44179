/**
 * The diagram engine's widget-factory registries: three dictionaries, one per entity
 * kind, each keyed by the type tag of the factories registered in it. A lookup of a tag
 * nobody registered fails with a "cannot find factory" error.
 */
module Engine {
  import opened Wrappers
  import GraphModel

  /**
   * A widget factory: the type tag it renders, and which implementation it is (two
   * factories for the same tag are told apart by the latter).
   */
  datatype Factory = Factory(factoryType: string, implementation: string)

  datatype Kind = NodeKind | PortKind | LinkKind

  /** `cannot find factory for <kind> of type: [<type>]`. */
  datatype FactoryError = CannotFindFactory(kind: Kind, factoryType: string)

  /** Every factory is filed under its own type tag. */
  ghost predicate Keyed(registry: map<string, Factory>)
  {
    forall t :: t in registry ==> registry[t].factoryType == t
  }

  /** `registry[factory.type] = factory`. */
  function Register(registry: map<string, Factory>, f: Factory): (r: map<string, Factory>)
    ensures f.factoryType in r && r[f.factoryType] == f
    ensures r.Keys == registry.Keys + {f.factoryType}
    ensures forall t :: t in registry && t != f.factoryType ==> r[t] == registry[t]
    ensures Keyed(registry) ==> Keyed(r)
  {
    registry[f.factoryType := f]
  }

  /** `if (registry[type]) return registry[type]; throw …`. */
  function Lookup(registry: map<string, Factory>, kind: Kind, t: string): (r: Result<Factory, FactoryError>)
    ensures r.Success? <==> t in registry
    ensures r.Success? ==> r.value == registry[t]
    ensures r.Success? && Keyed(registry) ==> r.value.factoryType == t
    ensures r.Failure? ==> r.error == CannotFindFactory(kind, t)
  {
    if t in registry then Success(registry[t]) else Failure(CannotFindFactory(kind, t))
  }

  /** A factory just registered is what a lookup of its type returns. */
  lemma LookupAfterRegister(registry: map<string, Factory>, kind: Kind, f: Factory)
    ensures Lookup(Register(registry, f), kind, f.factoryType) == Success(f)
  {
  }

  /** Registering under one tag does not change the lookup of any other tag. */
  lemma LookupOtherAfterRegister(registry: map<string, Factory>, kind: Kind, f: Factory, t: string)
    requires t != f.factoryType
    ensures Lookup(Register(registry, f), kind, t) == Lookup(registry, kind, t)
  {
  }

  /** A second factory with the same type replaces the first. */
  lemma RegisterOverwrites(registry: map<string, Factory>, f: Factory, f2: Factory)
    requires f2.factoryType == f.factoryType
    ensures Register(Register(registry, f), f2) == Register(registry, f2)
  {
  }

  class DiagramEngine {
    var nodeFactories: map<string, Factory>
    var portFactories: map<string, Factory>
    var linkFactories: map<string, Factory>

    ghost predicate Valid()
      reads this
    {
      Keyed(nodeFactories) && Keyed(portFactories) && Keyed(linkFactories)
    }

    /** A new engine knows no factories. */
    constructor()
      ensures nodeFactories == map[] && portFactories == map[] && linkFactories == map[]
      ensures Valid()
    {
      nodeFactories := map[];
      portFactories := map[];
      linkFactories := map[];
    }

    method RegisterNodeFactory(f: Factory)
      requires Valid()
      modifies this`nodeFactories
      ensures Valid() && nodeFactories == Register(old(nodeFactories), f)
    {
      nodeFactories := Register(nodeFactories, f);
    }

    method RegisterPortFactory(f: Factory)
      requires Valid()
      modifies this`portFactories
      ensures Valid() && portFactories == Register(old(portFactories), f)
    {
      portFactories := Register(portFactories, f);
    }

    method RegisterLinkFactory(f: Factory)
      requires Valid()
      modifies this`linkFactories
      ensures Valid() && linkFactories == Register(old(linkFactories), f)
    {
      linkFactories := Register(linkFactories, f);
    }

    /**
     * Registers the default node and port factories. The default link factory does not
     * exist, so the link registry is left as it was.
     */
    method RegisterDefaultFactories(defaultNode: Factory, defaultPort: Factory)
      requires Valid()
      modifies this`nodeFactories, this`portFactories
      ensures Valid()
      ensures nodeFactories == Register(old(nodeFactories), defaultNode)
      ensures portFactories == Register(old(portFactories), defaultPort)
    {
      RegisterNodeFactory(defaultNode);
      RegisterPortFactory(defaultPort);
    }

    function GetNodeFactory(t: string): (r: Result<Factory, FactoryError>)
      reads this
      ensures r.Success? <==> t in nodeFactories
      ensures r.Success? ==> r.value == nodeFactories[t]
      ensures r.Failure? ==> r.error == CannotFindFactory(NodeKind, t)
    {
      Lookup(nodeFactories, NodeKind, t)
    }

    function GetPortFactory(t: string): (r: Result<Factory, FactoryError>)
      reads this
      ensures r.Success? <==> t in portFactories
      ensures r.Success? ==> r.value == portFactories[t]
      ensures r.Failure? ==> r.error == CannotFindFactory(PortKind, t)
    {
      Lookup(portFactories, PortKind, t)
    }

    function GetLinkFactory(t: string): (r: Result<Factory, FactoryError>)
      reads this
      ensures r.Success? <==> t in linkFactories
      ensures r.Success? ==> r.value == linkFactories[t]
      ensures r.Failure? ==> r.error == CannotFindFactory(LinkKind, t)
    {
      Lookup(linkFactories, LinkKind, t)
    }

    /** The factory for a node is the one registered under the node's type tag. */
    function GetFactoryForNode(node: GraphModel.Node): (r: Result<Factory, FactoryError>)
      requires Valid()
      reads this
      ensures r.Success? <==> node.nodeType in nodeFactories
      ensures r.Success? ==> r.value.factoryType == node.nodeType
    {
      GetNodeFactory(node.nodeType)
    }

    function GetFactoryForPort(port: GraphModel.Port): (r: Result<Factory, FactoryError>)
      requires Valid()
      reads this
      ensures r.Success? <==> port.portType in portFactories
      ensures r.Success? ==> r.value.factoryType == port.portType
    {
      GetPortFactory(port.portType)
    }

    function GetFactoryForLink(link: GraphModel.Link): (r: Result<Factory, FactoryError>)
      requires Valid()
      reads this
      ensures r.Success? <==> link.linkType in linkFactories
      ensures r.Success? ==> r.value.factoryType == link.linkType
    {
      GetLinkFactory(link.linkType)
    }
  }

  /**
   * On a fresh engine with the defaults registered, nodes and ports of the default
   * types find their factories, and every link lookup fails.
   */
  method DefaultsWithoutLinkFactory(defaultNode: Factory, defaultPort: Factory, t: string)
    returns (node: Result<Factory, FactoryError>, port: Result<Factory, FactoryError>,
             link: Result<Factory, FactoryError>)
    ensures node == Success(defaultNode) && port == Success(defaultPort)
    ensures link == Failure(CannotFindFactory(LinkKind, t))
  {
    var e := new DiagramEngine();
    e.RegisterDefaultFactories(defaultNode, defaultPort);
    node := e.GetNodeFactory(defaultNode.factoryType);
    port := e.GetPortFactory(defaultPort.factoryType);
    link := e.GetLinkFactory(t);
  }

  /**
   * Registering in one registry leaves the lookups of the other two as they were, and a
   * later registration of the same type wins.
   */
  method RegisterIsolated(e: DiagramEngine, f: Factory, f2: Factory, t: string)
    returns (node: Result<Factory, FactoryError>, port: Result<Factory, FactoryError>,
             link: Result<Factory, FactoryError>)
    requires e.Valid() && f2.factoryType == f.factoryType
    modifies e
    ensures node == Success(f2)
    ensures port == old(e.GetPortFactory(t)) && link == old(e.GetLinkFactory(t))
  {
    e.RegisterNodeFactory(f);
    e.RegisterNodeFactory(f2);
    node := e.GetNodeFactory(f.factoryType);
    port := e.GetPortFactory(t);
    link := e.GetLinkFactory(t);
  }
}
