# Group orchestration core

A Dafny model of the orchestration logic of the circuit `Group` node
(`lib/components/primitive-components/Group/Group.ts`). It covers three parts:

- **Trace hints from props.** A subcircuit group turns each entry of
  `layout.manual_trace_hints` into one `TraceHint` child. The child gets the
  hint's `pcb_port_selector` as its `for` and the hint's `offsets` unchanged.
  Children are added in input order.
- **PCB trace render decision.** Trace-by-trace routing applies unless an
  `autorouter` prop is present. If an autorouter is configured with a
  non-empty `serverUrl`, the render pass queues exactly one deferred POST to
  that address. The body is `{simple_route_json, response_format:
  "simple_route_json"}`. The routing input is a placeholder record: zero
  bounds, no obstacles, no connections, two layers, minimum trace width 0.1.
- **Schematic layout gathering.** A subcircuit with `schAutoLayoutEnabled`
  walks its descendants. For each one whose schematic component id resolves
  in the db, it collects that component record and then the db ports owned
  by the record, in db order. After that it hands the whole db to the
  placement library.

The group is a `class Group` in module `GroupComponent` (`group.dfy`):

- `children` holds the child list and `pendingEffects` holds the requests
  queued with the host. Both are fields that the methods append to.
- `isSubcircuit` and `props` are constants, because the core never changes
  them.
- The db is a value: a map from schematic component id to record, plus the
  port list.
- The descendants are a sequence of optional schematic component ids.
- `wrappers.dfy` defines the `Option` type.

JavaScript truthiness is written out:

- a `serverUrl` counts only when it is defined and not empty;
- `schAutoLayoutEnabled` counts only when it is `true`;
- a `manual_trace_hints` array counts whenever it is defined, even when it
  is empty.

Each operation is specified by a function of its inputs. The lemmas state
what the source promises about that function: order-preserving one-per-hint
children, at most one request and when it exists, and the exact membership
and block structure of the gathered lists. Each method's `ensures` links the
new state or result to those functions.

## Model

| member | source | states |
|---|---|---|
| `GroupComponent.TruthyString` | lib/components/primitive-components/Group/Group.ts:69 | a `serverUrl` is truthy iff it is defined and non-empty |
| `GroupComponent.TruthyBool` | lib/components/primitive-components/Group/Group.ts:89 | `schAutoLayoutEnabled` is truthy iff it is defined and `true` |
| `GroupComponent.ManualTraceHints` | lib/components/primitive-components/Group/Group.ts:35 | hints are present exactly when `layout` and its `manual_trace_hints` are both defined |
| `GroupComponent.TraceHintOf` | lib/components/primitive-components/Group/Group.ts:40-45 | the child built from a hint is a `TraceHint` whose selector and offsets are the hint's own |
| `GroupComponent.TraceHintsOf` | lib/components/primitive-components/Group/Group.ts:39-46 | one child per hint (same length), and every added child is a `TraceHint` |
| `GroupComponent.TraceHintsOfAt` | lib/components/primitive-components/Group/Group.ts:39-46 | the i-th added child has `for == hints[i].pcb_port_selector` and `offsets == hints[i].offsets` |
| `GroupComponent.TraceHintsOfAppend` | lib/components/primitive-components/Group/Group.ts:39-46 | adding the hints of two lists is adding one list's children after the other's (order preserved) |
| `GroupComponent.Group.CreateTraceHintsFromProps` | lib/components/primitive-components/Group/Group.ts:27-47 | not a subcircuit, or no hints: children unchanged; otherwise the old children followed by exactly N trace hints, the i-th copying hint i |
| `GroupComponent.SimpleRouteJsonFromPcbTraces` | lib/components/primitive-components/Group/Group.ts:49-64 | the routing input has all four bounds 0, empty obstacles and connections, `layerCount == 2`, `minTraceWidth == 0.1`; it also meets this model's own sanity predicate (ordered bounds, a layer, a positive width), which the source does not state |
| `GroupComponent.RouteJsonIgnoresTraces` | lib/components/primitive-components/Group/Group.ts:50-63 | the routing input is the same whichever traces the group has |
| `GroupComponent.ShouldUseTraceByTraceRouting` | lib/components/primitive-components/Group/Group.ts:133-138 | trace-by-trace routing applies if and only if the `autorouter` prop is absent |
| `GroupComponent.HasServerUrl` | lib/components/primitive-components/Group/Group.ts:69 | the server test holds iff an autorouter is given with a defined, non-empty `serverUrl`; it then excludes trace-by-trace routing |
| `GroupComponent.AutorouteRequest` | lib/components/primitive-components/Group/Group.ts:66-83 | no request under trace-by-trace routing; a request exactly when an autorouter has a non-empty `serverUrl`; it is a POST to that URL with `response_format == "simple_route_json"` and the placeholder routing input |
| `GroupComponent.QueuedRequests` | lib/components/primitive-components/Group/Group.ts:66-83 | at most one request is queued, exactly one iff a server address is configured, none under trace-by-trace routing |
| `GroupComponent.AutorouterWithoutServerQueuesNothing` | lib/components/primitive-components/Group/Group.ts:67-69 | with an autorouter but a missing or empty `serverUrl`, trace-by-trace routing does not apply and still nothing is queued |
| `GroupComponent.Group.PcbTraceRender` | lib/components/primitive-components/Group/Group.ts:66-83 | the effect queue grows by exactly the queued requests (at most one) and is unchanged under trace-by-trace routing; children are unchanged |
| `GroupComponent.GetSchematicComponent` | lib/components/primitive-components/Group/Group.ts:99-101 | a lookup succeeds iff the id is in the db, and then yields that id's record, which in a db filing records under their own ids carries that id |
| `GroupComponent.ComponentOf` | lib/components/primitive-components/Group/Group.ts:98-102 | a descendant resolves iff it has a schematic component id that is in the db, and then to that id's record |
| `GroupComponent.PortsOf` | lib/components/primitive-components/Group/Group.ts:104-109 | the filtered ports are db ports owned by the given component, and no more than the db holds |
| `GroupComponent.PortsOfComplete` | lib/components/primitive-components/Group/Group.ts:104-109 | every db port owned by the component survives the filter |
| `GroupComponent.PortsOfCount` | lib/components/primitive-components/Group/Group.ts:104-109 | the filter keeps each owned port as many times as the db has it and drops every other port |
| `GroupComponent.ComponentBlock` | lib/components/primitive-components/Group/Group.ts:111 | a resolving descendant contributes exactly its db record, any other descendant nothing |
| `GroupComponent.PortBlock` | lib/components/primitive-components/Group/Group.ts:112 | a resolving descendant contributes exactly its record's owned db ports in db order, any other descendant nothing |
| `GroupComponent.GatheredComponents` | lib/components/primitive-components/Group/Group.ts:97-115 | never more components than descendants |
| `GroupComponent.GatheredComponentsAppend` | lib/components/primitive-components/Group/Group.ts:97-115 | gathering from two runs of descendants is the first run's records followed by the second's (descendant order) |
| `GroupComponent.GatheredComponentsSingle` | lib/components/primitive-components/Group/Group.ts:97-115 | one descendant on its own gathers exactly its block |
| `GroupComponent.GatheredComponentsCount` | lib/components/primitive-components/Group/Group.ts:97-115 | each record is gathered exactly once per descendant that resolves to it |
| `GroupComponent.GatheredPorts` | lib/components/primitive-components/Group/Group.ts:104-112 | every gathered port is a db port |
| `GroupComponent.GatheredComponentsExactly` | lib/components/primitive-components/Group/Group.ts:97-115 | a record is gathered iff some descendant has an id that resolves in the db to it |
| `GroupComponent.GatheredPortsAreBlocks` | lib/components/primitive-components/Group/Group.ts:97-115 | the gathered ports are, in order, the concatenation of each gathered component's owned db ports, with db order kept inside each block |
| `GroupComponent.PortsOfAllExactly` | lib/components/primitive-components/Group/Group.ts:104-112 | a port is in the concatenated blocks iff it is a db port owned by one of the listed components |
| `GroupComponent.GatheredPortsExactly` | lib/components/primitive-components/Group/Group.ts:97-115 | a port is gathered iff it is a db port owned by a gathered component |
| `GroupComponent.Group.SchematicLayout` | lib/components/primitive-components/Group/Group.ts:85-123 | without `isSubcircuit && schAutoLayoutEnabled`: nothing gathered and the db unchanged; otherwise the gathered lists are the specified ones and the new db is the placement library applied to the whole db |

## Left out

- `fetch`, the `.json()` parse and the `console.log` inside the queued effect (lines 72-80) are network I/O and logging. The response is discarded, so only the request record is modelled.
- `_queueAsyncEffect` scheduling, error reporting and cancellation belong to the host framework. A queued effect is a request appended to `pendingEffects`. The source reads the URL and builds the body when the effect runs; since the body is a constant and the props do not change, the model builds them when the request is queued.
- The placement library (`convertSoupToScene`, `ascendingCentralLrBug1`, `mutateSoupForScene`, lines 118-122) is foreign floating-point code. It enters as three function parameters. Its in-place update of the db is modelled as a returned new db.
- Because the placement library is abstract, the idempotence of repeated layout passes is not modelled. Neither is which components the library actually moves.
- The source never uses the gathered `components` and `ports` after the loop: the library receives the whole db (the TODO at line 117). The model returns the gathered lists so that their shape can be stated. The db it returns likewise depends only on the whole db.
- Zod prop parsing, the `config` getter (lines 20-25), the `this.root!` lookup, `selectAll("trace")` and `getDescendants()` belong to the component-tree framework. The traces and the descendants are inputs. `this.props` and `this._parsedProps` are one `props` value. The db fetched at line 29 is unused there and is left out.
- The `"schematic_component_id" in descendant` check is an optional id on the descendant. A property that is present but undefined behaves like an absent one, because the lookup then finds nothing.
- The `autorouter` prop is modelled as an optional record with an optional `serverUrl`. A falsy non-object value behaves like an absent prop. A truthy non-object value behaves like a record without `serverUrl`.
- `this.add` is modelled as appending to the child list. The framework's other work on a new child (parent link, the `TraceHint` node's own behaviour) is not modelled. Nor are offset fields other than `x` and `y`, which would be copied unchanged in the same way.
- `SimpleRouteJson`'s obstacle and connection shapes are given only in outline. The placeholder leaves both lists empty, and `lib/utils/autorouting/SimpleRouteJson` is not part of this model.
