/**
 * The layout and routing orchestration of a circuit `Group` node:
 * materialising manual trace hints as `TraceHint` children, deciding
 * between trace-by-trace routing and an external autorouter service (and
 * building the one request sent to it), and gathering the schematic
 * components and ports of the group's descendants before the schematic
 * auto-layout runs.
 */
module GroupComponent {
  import opened Wrappers

  // ---------------------------------------------------------------------
  // Props
  // ---------------------------------------------------------------------

  /** One offset of a manual trace hint; it is carried through unchanged. */
  datatype Offset = Offset(x: real, y: real)

  /** An entry of `layout.manual_trace_hints`. */
  datatype ManualTraceHint = ManualTraceHint(pcbPortSelector: string, offsets: seq<Offset>)

  datatype Layout = Layout(manualTraceHints: Option<seq<ManualTraceHint>>)

  /** The `autorouter` prop; only its `serverUrl` is consulted. */
  datatype AutorouterConfig = AutorouterConfig(serverUrl: Option<string>)

  datatype GroupProps = GroupProps(
    layout: Option<Layout>,
    schAutoLayoutEnabled: Option<bool>,
    autorouter: Option<AutorouterConfig>)

  /** JavaScript truthiness of an optional string: `undefined` and `""` are falsy. */
  function TruthyString(s: Option<string>): (r: bool)
    ensures r <==> s.Some? && |s.value| > 0
  {
    s.Some? && s.value != ""
  }

  /** JavaScript truthiness of an optional boolean: `undefined` and `false` are falsy. */
  function TruthyBool(b: Option<bool>): (r: bool)
    ensures r <==> b.Some? && b.value
  {
    b == Some(true)
  }

  /** `props.layout?.manual_trace_hints`: an array, even an empty one, is truthy. */
  function ManualTraceHints(props: GroupProps): (r: Option<seq<ManualTraceHint>>)
    ensures r.Some? <==> props.layout.Some? && props.layout.value.manualTraceHints.Some?
    ensures r.Some? ==> r.value == props.layout.value.manualTraceHints.value
  {
    match props.layout
    case None => None
    case Some(layout) => layout.manualTraceHints
  }

  // ---------------------------------------------------------------------
  // Children and trace hints
  // ---------------------------------------------------------------------

  /** A child of the group: a trace hint created from props, or any other component. */
  datatype Child =
    | TraceHint(portSelector: string, offsets: seq<Offset>)
    | Component(componentName: string)

  /** The `TraceHint` child built from one manual hint: `for` and `offsets` copied as they are. */
  function TraceHintOf(hint: ManualTraceHint): (c: Child)
    ensures c.TraceHint?
    ensures c.portSelector == hint.pcbPortSelector && c.offsets == hint.offsets
  {
    TraceHint(hint.pcbPortSelector, hint.offsets)
  }

  /** The children added for `hints`, one per hint, in input order. */
  function TraceHintsOf(hints: seq<ManualTraceHint>): (r: seq<Child>)
    ensures |r| == |hints|
    ensures forall c :: c in r ==> c.TraceHint?
  {
    if hints == [] then []
    else TraceHintsOf(hints[..|hints| - 1]) + [TraceHintOf(hints[|hints| - 1])]
  }

  /** The i-th added child carries the i-th hint's selector and offsets. */
  lemma {:induction false} TraceHintsOfAt(hints: seq<ManualTraceHint>, i: int)
    requires 0 <= i < |hints|
    ensures TraceHintsOf(hints)[i] == TraceHint(hints[i].pcbPortSelector, hints[i].offsets)
  {
    if i < |hints| - 1 {
      TraceHintsOfAt(hints[..|hints| - 1], i);
    }
  }

  /** Adding the children for `hints` is the same as adding them hint by hint. */
  lemma {:induction false} TraceHintsOfAppend(hints: seq<ManualTraceHint>, more: seq<ManualTraceHint>)
    ensures TraceHintsOf(hints + more) == TraceHintsOf(hints) + TraceHintsOf(more)
    decreases |more|
  {
    if more != [] {
      var init := more[..|more| - 1];
      assert (hints + more)[..|hints + more| - 1] == hints + init;
      assert (hints + more)[|hints + more| - 1] == more[|more| - 1];
      TraceHintsOfAppend(hints, init);
    } else {
      assert hints + more == hints;
    }
  }

  // ---------------------------------------------------------------------
  // Routing input and the autorouter request
  // ---------------------------------------------------------------------

  datatype Point = Point(x: real, y: real)

  datatype Bounds = Bounds(minX: real, maxX: real, minY: real, maxY: real)

  /** A rectangular obstacle of the routing problem. */
  datatype Obstacle = Obstacle(center: Point, width: real, height: real, layers: seq<string>, connectedTo: seq<string>)

  datatype ConnectionPoint = ConnectionPoint(x: real, y: real, layer: string)

  datatype Connection = Connection(name: string, pointsToConnect: seq<ConnectionPoint>)

  /** The routing-problem record sent to an autorouter. */
  datatype SimpleRouteJson = SimpleRouteJson(
    bounds: Bounds,
    obstacles: seq<Obstacle>,
    connections: seq<Connection>,
    layerCount: int,
    minTraceWidth: real)

  /**
   * A sanity condition of this model on a routing input (ordered bounds, at
   * least one layer, a positive width); the source itself states no such
   * condition.
   */
  predicate WellFormedRouteJson(j: SimpleRouteJson)
  {
    && j.bounds.minX <= j.bounds.maxX
    && j.bounds.minY <= j.bounds.maxY
    && j.layerCount >= 1
    && j.minTraceWidth > 0.0
  }

  /**
   * The routing input of the group. `traces` stands for the group's trace
   * descendants; the returned record is a placeholder that does not depend
   * on them.
   */
  function SimpleRouteJsonFromPcbTraces<Trace>(traces: seq<Trace>): (r: SimpleRouteJson)
    ensures WellFormedRouteJson(r)
    ensures r.bounds == Bounds(0.0, 0.0, 0.0, 0.0)
    ensures r.obstacles == [] && r.connections == []
    ensures r.layerCount == 2 && r.minTraceWidth == 0.1
  {
    SimpleRouteJson(Bounds(0.0, 0.0, 0.0, 0.0), [], [], 2, 0.1)
  }

  /** The routing input is the same whatever traces the group has. */
  lemma RouteJsonIgnoresTraces<Trace>(traces: seq<Trace>, others: seq<Trace>)
    ensures SimpleRouteJsonFromPcbTraces(traces) == SimpleRouteJsonFromPcbTraces(others)
  {
  }

  /**
   * Trace-by-trace routing (each trace routes itself in a well-known order)
   * applies unless an `autorouter` prop is given.
   */
  function ShouldUseTraceByTraceRouting(props: GroupProps): (r: bool)
    ensures r <==> props.autorouter.None?
  {
    if props.autorouter.Some? then false else true
  }

  const SimpleRouteJsonFormat: string := "simple_route_json"

  datatype RouteRequestBody = RouteRequestBody(simpleRouteJson: SimpleRouteJson, responseFormat: string)

  /** A deferred request to the autorouter server; the network call itself is not modelled. */
  datatype AutorouterRequest = AutorouterRequest(url: string, httpMethod: string, body: RouteRequestBody)

  /** The configured autorouter server address, when it is a non-empty string. */
  function HasServerUrl(props: GroupProps): (r: bool)
    ensures r ==> !ShouldUseTraceByTraceRouting(props)
    ensures r <==> && props.autorouter.Some?
                   && props.autorouter.value.serverUrl.Some?
                   && |props.autorouter.value.serverUrl.value| > 0
  {
    props.autorouter.Some? && TruthyString(props.autorouter.value.serverUrl)
  }

  /**
   * The request that the PCB trace render pass queues, if any: none under
   * trace-by-trace routing or without a server address, otherwise one POST
   * to the server carrying the routing input.
   */
  function AutorouteRequest<Trace>(props: GroupProps, traces: seq<Trace>): (r: Option<AutorouterRequest>)
    ensures ShouldUseTraceByTraceRouting(props) ==> r.None?
    ensures r.Some? <==> HasServerUrl(props)
    ensures r.Some? ==> && r.value.url == props.autorouter.value.serverUrl.value
                        && r.value.url != ""
                        && r.value.httpMethod == "POST"
                        && r.value.body.responseFormat == "simple_route_json"
                        && r.value.body.simpleRouteJson == SimpleRouteJson(Bounds(0.0, 0.0, 0.0, 0.0), [], [], 2, 0.1)
  {
    if ShouldUseTraceByTraceRouting(props) then None
    else if TruthyString(props.autorouter.value.serverUrl) then
      Some(AutorouterRequest(props.autorouter.value.serverUrl.value, "POST",
                             RouteRequestBody(SimpleRouteJsonFromPcbTraces(traces), SimpleRouteJsonFormat)))
    else None
  }

  /** The queued effects of a render pass: as a sequence, at most one request. */
  function QueuedRequests<Trace>(props: GroupProps, traces: seq<Trace>): (r: seq<AutorouterRequest>)
    ensures |r| <= 1
    ensures |r| == 1 <==> HasServerUrl(props)
    ensures ShouldUseTraceByTraceRouting(props) ==> r == []
  {
    match AutorouteRequest(props, traces)
    case None => []
    case Some(request) => [request]
  }

  /** A group with an autorouter but no usable server address routes nothing and queues nothing. */
  lemma AutorouterWithoutServerQueuesNothing<Trace>(props: GroupProps, traces: seq<Trace>)
    requires props.autorouter.Some? && !TruthyString(props.autorouter.value.serverUrl)
    ensures !ShouldUseTraceByTraceRouting(props)
    ensures QueuedRequests(props, traces) == []
  {
  }

  // ---------------------------------------------------------------------
  // Schematic layout inputs
  // ---------------------------------------------------------------------

  datatype SchematicComponent = SchematicComponent(schematicComponentId: string, center: Point)

  datatype SchematicPort = SchematicPort(schematicPortId: string, schematicComponentId: string, center: Point)

  /** The shared design database, restricted to schematic components and ports. */
  datatype Db = Db(schematicComponents: map<string, SchematicComponent>, schematicPorts: seq<SchematicPort>)

  /** A db whose component records are filed under their own ids, as the design database keeps them. */
  predicate ValidDb(db: Db)
  {
    forall k | k in db.schematicComponents :: db.schematicComponents[k].schematicComponentId == k
  }

  /** A descendant of the group; only its optional schematic component id matters here. */
  datatype Descendant = Descendant(schematicComponentId: Option<string>)

  /** The components and ports gathered for one layout pass. */
  datatype LayoutInputs = LayoutInputs(components: seq<SchematicComponent>, ports: seq<SchematicPort>)

  /** `db.schematic_component.get(id)`. */
  function GetSchematicComponent(db: Db, id: string): (r: Option<SchematicComponent>)
    ensures r.Some? <==> id in db.schematicComponents
    ensures r.Some? ==> r.value == db.schematicComponents[id]
    ensures ValidDb(db) && r.Some? ==> r.value.schematicComponentId == id
  {
    if id in db.schematicComponents then Some(db.schematicComponents[id]) else None
  }

  /** The record a descendant resolves to: it needs an id, and the id must be in the db. */
  function ComponentOf(db: Db, d: Descendant): (r: Option<SchematicComponent>)
    ensures r.Some? <==> d.schematicComponentId.Some? && d.schematicComponentId.value in db.schematicComponents
    ensures r.Some? ==> r.value == db.schematicComponents[d.schematicComponentId.value]
  {
    match d.schematicComponentId
    case None => None
    case Some(id) => GetSchematicComponent(db, id)
  }

  /** The ports of `ports` owned by `componentId`, in their original order. */
  function PortsOf(ports: seq<SchematicPort>, componentId: string): (r: seq<SchematicPort>)
    ensures |r| <= |ports|
    ensures forall p :: p in r ==> p in ports && p.schematicComponentId == componentId
  {
    if ports == [] then []
    else (if ports[0].schematicComponentId == componentId then [ports[0]] else [])
         + PortsOf(ports[1..], componentId)
  }

  /** No owned port is dropped by the filter. */
  lemma {:induction false} PortsOfComplete(ports: seq<SchematicPort>, componentId: string, p: SchematicPort)
    requires p in ports && p.schematicComponentId == componentId
    ensures p in PortsOf(ports, componentId)
  {
    if ports[0] != p {
      PortsOfComplete(ports[1..], componentId, p);
    }
  }

  /** The filter keeps every owned port as often as it occurs and drops the others. */
  lemma {:induction false} PortsOfCount(ports: seq<SchematicPort>, componentId: string, p: SchematicPort)
    ensures multiset(PortsOf(ports, componentId))[p]
            == if p.schematicComponentId == componentId then multiset(ports)[p] else 0
  {
    if ports != [] {
      PortsOfCount(ports[1..], componentId, p);
      assert ports == [ports[0]] + ports[1..];
    }
  }

  /** The record contributed by one descendant, as a sequence. */
  function ComponentBlock(db: Db, d: Descendant): (r: seq<SchematicComponent>)
    ensures |r| <= 1
    ensures ComponentOf(db, d).None? ==> r == []
    ensures ComponentOf(db, d).Some? ==> r == [db.schematicComponents[d.schematicComponentId.value]]
  {
    match ComponentOf(db, d)
    case None => []
    case Some(c) => [c]
  }

  /** The ports contributed by one descendant: those owned by the record it resolves to. */
  function PortBlock(db: Db, d: Descendant): (r: seq<SchematicPort>)
    ensures ComponentOf(db, d).None? ==> r == []
    ensures ComponentOf(db, d).Some? ==>
              r == PortsOf(db.schematicPorts, db.schematicComponents[d.schematicComponentId.value].schematicComponentId)
  {
    match ComponentOf(db, d)
    case None => []
    case Some(c) => PortsOf(db.schematicPorts, c.schematicComponentId)
  }

  /** The components gathered from `ds`, in descendant order. */
  function GatheredComponents(db: Db, ds: seq<Descendant>): (r: seq<SchematicComponent>)
    ensures |r| <= |ds|
  {
    if ds == [] then []
    else GatheredComponents(db, ds[..|ds| - 1]) + ComponentBlock(db, ds[|ds| - 1])
  }

  /** The ports gathered from `ds`, one block per resolved descendant. */
  function GatheredPorts(db: Db, ds: seq<Descendant>): (r: seq<SchematicPort>)
    ensures forall p :: p in r ==> p in db.schematicPorts
  {
    if ds == [] then []
    else GatheredPorts(db, ds[..|ds| - 1]) + PortBlock(db, ds[|ds| - 1])
  }

  /** Gathering from two runs of descendants is gathering from each, one after the other. */
  lemma {:induction false} GatheredComponentsAppend(db: Db, a: seq<Descendant>, b: seq<Descendant>)
    ensures GatheredComponents(db, a + b) == GatheredComponents(db, a) + GatheredComponents(db, b)
    decreases |b|
  {
    if b != [] {
      var init := b[..|b| - 1];
      assert (a + b)[..|a + b| - 1] == a + init;
      assert (a + b)[|a + b| - 1] == b[|b| - 1];
      GatheredComponentsAppend(db, a, init);
    } else {
      assert a + b == a;
    }
  }

  /** A single descendant contributes exactly its resolved record, if any. */
  lemma GatheredComponentsSingle(db: Db, d: Descendant)
    ensures GatheredComponents(db, [d]) == ComponentBlock(db, d)
  {
    assert [d][..0] == [];
  }

  /** The positions of the descendants of `ds` that resolve to `c`. */
  function ResolvingIndices(db: Db, ds: seq<Descendant>, c: SchematicComponent): set<int>
  {
    set i | 0 <= i < |ds| && ComponentOf(db, ds[i]) == Some(c)
  }

  /** Extending `ds` by one descendant adds its position exactly when it resolves to `c`. */
  lemma ResolvingIndicesStep(db: Db, ds: seq<Descendant>, c: SchematicComponent)
    requires ds != []
    ensures |ResolvingIndices(db, ds, c)|
            == |ResolvingIndices(db, ds[..|ds| - 1], c)| + (if ComponentOf(db, ds[|ds| - 1]) == Some(c) then 1 else 0)
  {
    var n := |ds| - 1;
    var init := ds[..n];
    var s := ResolvingIndices(db, init, c);
    var t := ResolvingIndices(db, ds, c);
    if ComponentOf(db, ds[n]) == Some(c) {
      forall i ensures i in t <==> i in s + {n} {
        if 0 <= i < n { assert ds[i] == init[i]; }
      }
      assert t == s + {n};
      assert n !in s;
    } else {
      forall i ensures i in t <==> i in s {
        if 0 <= i < n { assert ds[i] == init[i]; }
      }
      assert t == s;
    }
  }

  /** Each record is gathered once per descendant that resolves to it. */
  lemma {:induction false} GatheredComponentsCount(db: Db, ds: seq<Descendant>, c: SchematicComponent)
    ensures multiset(GatheredComponents(db, ds))[c] == |ResolvingIndices(db, ds, c)|
  {
    if ds == [] {
      assert ResolvingIndices(db, ds, c) == {};
    } else {
      GatheredComponentsCount(db, ds[..|ds| - 1], c);
      ResolvingIndicesStep(db, ds, c);
      assert GatheredComponents(db, ds)
             == GatheredComponents(db, ds[..|ds| - 1]) + ComponentBlock(db, ds[|ds| - 1]);
    }
  }

  /** The concatenation of the owned-port blocks of `cs`, in the order of `cs`. */
  function PortsOfAll(ports: seq<SchematicPort>, cs: seq<SchematicComponent>): (r: seq<SchematicPort>)
  {
    if cs == [] then []
    else PortsOfAll(ports, cs[..|cs| - 1]) + PortsOf(ports, cs[|cs| - 1].schematicComponentId)
  }

  /**
   * The gathered components are exactly the db records of the descendants
   * that have a schematic component id found in the db.
   */
  lemma {:induction false} GatheredComponentsExactly(db: Db, ds: seq<Descendant>, c: SchematicComponent)
    ensures c in GatheredComponents(db, ds) <==> exists i :: 0 <= i < |ds| && ComponentOf(db, ds[i]) == Some(c)
  {
    if ds != [] {
      var init := ds[..|ds| - 1];
      GatheredComponentsExactly(db, init, c);
      if c in GatheredComponents(db, ds) {
        if c !in GatheredComponents(db, init) {
          assert ComponentOf(db, ds[|ds| - 1]) == Some(c);
        } else {
          var i :| 0 <= i < |init| && ComponentOf(db, init[i]) == Some(c);
          assert ds[i] == init[i];
        }
      } else {
        forall i | 0 <= i < |ds|
          ensures ComponentOf(db, ds[i]) != Some(c)
        {
          if i < |init| {
            assert ds[i] == init[i];
          }
        }
      }
    }
  }

  /** The gathered ports are the per-component blocks of the gathered components, concatenated in order. */
  lemma {:induction false} GatheredPortsAreBlocks(db: Db, ds: seq<Descendant>)
    ensures GatheredPorts(db, ds) == PortsOfAll(db.schematicPorts, GatheredComponents(db, ds))
  {
    if ds != [] {
      var init := ds[..|ds| - 1];
      var d := ds[|ds| - 1];
      GatheredPortsAreBlocks(db, init);
      var cs := GatheredComponents(db, init);
      match ComponentOf(db, d)
      case None =>
        assert GatheredComponents(db, ds) == cs;
      case Some(c) =>
        var all := cs + [c];
        assert GatheredComponents(db, ds) == all;
        assert all[..|all| - 1] == cs;
    }
  }

  /** A port is in the concatenated blocks iff some listed component owns it. */
  lemma {:induction false} PortsOfAllExactly(ports: seq<SchematicPort>, cs: seq<SchematicComponent>, p: SchematicPort)
    ensures p in PortsOfAll(ports, cs)
            <==> p in ports && exists c :: c in cs && p.schematicComponentId == c.schematicComponentId
  {
    if cs != [] {
      var init := cs[..|cs| - 1];
      var last := cs[|cs| - 1];
      PortsOfAllExactly(ports, init, p);
      if p in ports && p.schematicComponentId == last.schematicComponentId {
        PortsOfComplete(ports, last.schematicComponentId, p);
      }
      if p in ports && (exists c :: c in cs && p.schematicComponentId == c.schematicComponentId) {
        var c :| c in cs && p.schematicComponentId == c.schematicComponentId;
        if c != last {
          assert c in init by {
            assert cs == init + [last];
          }
        }
      }
      assert forall c :: c in init ==> c in cs by {
        assert cs == init + [last];
      }
    }
  }

  /**
   * A gathered port is a db port owned by a gathered component, and every
   * db port owned by a gathered component is gathered.
   */
  lemma GatheredPortsExactly(db: Db, ds: seq<Descendant>, p: SchematicPort)
    ensures p in GatheredPorts(db, ds)
            <==> p in db.schematicPorts
                 && exists c :: c in GatheredComponents(db, ds) && p.schematicComponentId == c.schematicComponentId
  {
    GatheredPortsAreBlocks(db, ds);
    PortsOfAllExactly(db.schematicPorts, GatheredComponents(db, ds), p);
  }

  // ---------------------------------------------------------------------
  // The group node
  // ---------------------------------------------------------------------

  /**
   * A group node. Its subcircuit flag and props do not change here; its
   * children and the effects it queues with the host grow.
   */
  class Group {
    const isSubcircuit: bool
    const props: GroupProps
    var children: seq<Child>
    var pendingEffects: seq<AutorouterRequest>

    constructor (isSubcircuit: bool, props: GroupProps, children: seq<Child>)
      ensures this.isSubcircuit == isSubcircuit && this.props == props
      ensures this.children == children && pendingEffects == []
    {
      this.isSubcircuit := isSubcircuit;
      this.props := props;
      this.children := children;
      this.pendingEffects := [];
    }

    /**
     * Adds one `TraceHint` child per manual trace hint, in order, when the
     * group is a subcircuit and hints are given; otherwise does nothing.
     */
    method CreateTraceHintsFromProps()
      modifies this`children
      ensures !isSubcircuit || ManualTraceHints(props).None? ==> children == old(children)
      ensures isSubcircuit && ManualTraceHints(props).Some? ==>
                children == old(children) + TraceHintsOf(ManualTraceHints(props).value)
      ensures isSubcircuit && ManualTraceHints(props).Some? ==>
                && |children| == |old(children)| + |ManualTraceHints(props).value|
                && children[..|old(children)|] == old(children)
                && forall i :: 0 <= i < |ManualTraceHints(props).value| ==>
                     children[|old(children)| + i]
                     == TraceHint(ManualTraceHints(props).value[i].pcbPortSelector,
                                  ManualTraceHints(props).value[i].offsets)
    {
      if !isSubcircuit {
        return;
      }
      var manualTraceHints := ManualTraceHints(props);
      if manualTraceHints.None? {
        return;
      }
      var hints := manualTraceHints.value;
      for i := 0 to |hints|
        invariant children == old(children) + TraceHintsOf(hints[..i])
      {
        assert hints[..i + 1][..i] == hints[..i];
        children := children + [TraceHintOf(hints[i])];
      }
      assert hints[..|hints|] == hints;
      forall i | 0 <= i < |hints|
        ensures children[|old(children)| + i] == TraceHint(hints[i].pcbPortSelector, hints[i].offsets)
      {
        TraceHintsOfAt(hints, i);
      }
    }

    /**
     * The PCB trace render pass: under trace-by-trace routing, or without a
     * server address, nothing is queued; otherwise exactly one request to
     * the autorouter server is queued. The children are left alone.
     */
    method PcbTraceRender<Trace>(traces: seq<Trace>)
      modifies this`pendingEffects
      ensures pendingEffects == old(pendingEffects) + QueuedRequests(props, traces)
      ensures |pendingEffects| <= |old(pendingEffects)| + 1
      ensures ShouldUseTraceByTraceRouting(props) ==> pendingEffects == old(pendingEffects)
      ensures children == old(children)
    {
      if ShouldUseTraceByTraceRouting(props) {
        return;
      }
      if TruthyString(props.autorouter.value.serverUrl) {
        pendingEffects := pendingEffects + [AutorouteRequest(props, traces).value];
      }
    }

    /**
     * The schematic layout pass. Unless the group is a subcircuit with
     * schematic auto-layout enabled it gathers nothing and returns the db
     * as it was. Otherwise it gathers, in descendant order, each resolved
     * component with its owned ports, and then hands the whole db to the
     * placement library: `convertSoupToScene`, `ascendingCentralLrBug1`
     * and `mutateSoupForScene` are that library's three calls.
     */
    method SchematicLayout<Scene>(db: Db, descendants: seq<Descendant>,
                                  convertSoupToScene: Db -> Scene,
                                  ascendingCentralLrBug1: Scene -> Scene,
                                  mutateSoupForScene: (Db, Scene) -> Db)
      returns (gathered: Option<LayoutInputs>, newDb: Db)
      ensures gathered.Some? <==> isSubcircuit && TruthyBool(props.schAutoLayoutEnabled)
      ensures gathered.None? ==> newDb == db
      ensures gathered.Some? ==> && gathered.value.components == GatheredComponents(db, descendants)
                                 && gathered.value.ports == GatheredPorts(db, descendants)
                                 && |gathered.value.components| <= |descendants|
      ensures gathered.Some? ==> newDb == mutateSoupForScene(db, ascendingCentralLrBug1(convertSoupToScene(db)))
    {
      if !isSubcircuit {
        return None, db;
      }
      if !TruthyBool(props.schAutoLayoutEnabled) {
        return None, db;
      }
      var components: seq<SchematicComponent> := [];
      var ports: seq<SchematicPort> := [];
      for i := 0 to |descendants|
        invariant components == GatheredComponents(db, descendants[..i])
        invariant ports == GatheredPorts(db, descendants[..i])
      {
        assert descendants[..i + 1][..i] == descendants[..i];
        var descendant := descendants[i];
        if descendant.schematicComponentId.Some? {
          var component := GetSchematicComponent(db, descendant.schematicComponentId.value);
          if component.Some? {
            var schPorts := PortsOf(db.schematicPorts, component.value.schematicComponentId);
            components := components + [component.value];
            ports := ports + schPorts;
          }
        }
      }
      assert descendants[..|descendants|] == descendants;
      var scene := convertSoupToScene(db);
      var laidOutScene := ascendingCentralLrBug1(scene);
      newDb := mutateSoupForScene(db, laidOutScene);
      gathered := Some(LayoutInputs(components, ports));
    }
  }
}
