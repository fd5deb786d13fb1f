/** The context graph: nodes for entities, applications, endpoints, resources and hosts, and weighted edges
    between them, filed under ids glued together from source, relation and target, with pruning by age. */
module Graph {
  import opened Basics
  import opened Capabilities

  datatype Category = Entity | Application | Resource | Endpoint | Host

  datatype Relation = AuthenticatesOn | Accesses | Probed | Calls | Exposes | Targets | Exercises | OriginatesFrom

  function Name(r: Relation): string {
    match r
    case AuthenticatesOn => "AUTHENTICATES_ON"
    case Accesses => "ACCESSES"
    case Probed => "PROBED"
    case Calls => "CALLS"
    case Exposes => "EXPOSES"
    case Targets => "TARGETS"
    case Exercises => "EXERCISES"
    case OriginatesFrom => "ORIGINATES_FROM"
  }

  /** The weight one observation adds, in half units. */
  function Weight(r: Relation): nat {
    match r
    case Exposes => 1
    case OriginatesFrom => 1
    case Targets => 3
    case _ => 2
  }

  datatype Node = Node(id: string, category: Category, caption: string, firstSeen: Time, lastSeen: Time, hitCount: nat)

  datatype Edge = Edge(id: string, source: string, target: string, relation: Relation, count: nat,
                       firstSeen: Time, lastSeen: Time, weight: nat)

  datatype Action = Action(verb: Option<string>, endpoint: Option<string>, statusCode: Option<nat>)

  datatype Event = Event(timestamp: Time, appId: string, eventType: string, action: Option<Action>,
                         resourceId: Option<string>, ip: Option<string>)

  datatype Graph = Graph(nodes: map<string, Node>, edges: map<string, Edge>)

  const EMPTY := Graph(map[], map[])

  function EdgeId(source: string, r: Relation, target: string): string {
    source + "-" + Name(r) + "-" + target
  }

  /** What an event does to the graph, one node or edge at a time. */
  datatype Touch = OnNode(id: string, category: Category, caption: string)
                 | OnEdge(source: string, relation: Relation, target: string)

  function TouchNode(nodes: map<string, Node>, t: Touch, ts: Time): map<string, Node>
    requires t.OnNode?
  {
    if t.id in nodes then
      var n := nodes[t.id];
      nodes[t.id := n.(hitCount := n.hitCount + 1, lastSeen := Max(n.lastSeen, ts))]
    else nodes[t.id := Node(t.id, t.category, t.caption, ts, ts, 1)]
  }

  function TouchEdge(edges: map<string, Edge>, t: Touch, ts: Time): map<string, Edge>
    requires t.OnEdge?
  {
    var id := EdgeId(t.source, t.relation, t.target);
    if id in edges then
      var e := edges[id];
      edges[id := e.(count := e.count + 1, weight := e.weight + Weight(t.relation), lastSeen := Max(e.lastSeen, ts))]
    else edges[id := Edge(id, t.source, t.target, t.relation, 1, ts, ts, Weight(t.relation))]
  }

  function Touched(g: Graph, t: Touch, ts: Time): Graph {
    if t.OnNode? then g.(nodes := TouchNode(g.nodes, t, ts)) else g.(edges := TouchEdge(g.edges, t, ts))
  }

  function AllTouched(g: Graph, touches: seq<Touch>, ts: Time): Graph {
    if touches == [] then g
    else Touched(AllTouched(g, touches[..|touches| - 1], ts), touches[|touches| - 1], ts)
  }

  function AppNode(e: Event): string {
    "app:" + e.appId
  }

  function AppTouches(e: Event, entity: string): seq<Touch> {
    [OnNode(entity, Entity, entity), OnNode(AppNode(e), Application, e.appId),
     OnEdge(entity, if "auth." <= e.eventType then AuthenticatesOn else Accesses, AppNode(e))]
  }

  function EndpointTouches(e: Event, entity: string): seq<Touch> {
    if e.action.Some? && e.action.value.endpoint.Some? then
      var a := e.action.value;
      var node := "endpoint:" + e.appId + ":" + a.endpoint.value;
      [OnNode(node, Endpoint, (if a.verb.Some? then a.verb.value else "REQ") + " " + a.endpoint.value),
       OnEdge(entity, if a.statusCode.Some? && a.statusCode.value >= 400 then Probed else Calls, node),
       OnEdge(AppNode(e), Exposes, node)]
    else []
  }

  function ResourceTouches(e: Event, entity: string): seq<Touch> {
    if e.resourceId.Some? then
      var node := "resource:" + e.resourceId.value;
      [OnNode(node, Resource, e.resourceId.value), OnEdge(entity, Targets, node)]
    else []
  }

  function CapabilityTouches(capabilities: seq<Capability>, entity: string): seq<Touch> {
    if capabilities == [] then []
    else
      var cap := CapabilityName(capabilities[|capabilities| - 1]);
      CapabilityTouches(capabilities[..|capabilities| - 1], entity)
      + [OnNode("capability:" + cap, Resource, cap), OnEdge(entity, Exercises, "capability:" + cap)]
  }

  function HostTouches(e: Event, entity: string): seq<Touch> {
    if e.ip.Some? then
      [OnNode("host:" + e.ip.value, Host, e.ip.value), OnEdge(entity, OriginatesFrom, "host:" + e.ip.value)]
    else []
  }

  function Touches(e: Event, entity: string, capabilities: seq<Capability>): seq<Touch> {
    AppTouches(e, entity) + EndpointTouches(e, entity) + ResourceTouches(e, entity)
    + CapabilityTouches(capabilities, entity) + HostTouches(e, entity)
  }

  function Pruned(g: Graph, cutoff: Time): Graph {
    var nodes := map id | id in g.nodes && g.nodes[id].lastSeen >= cutoff :: g.nodes[id];
    Graph(nodes, map k | k in g.edges && g.edges[k].lastSeen >= cutoff
                         && g.edges[k].source in nodes && g.edges[k].target in nodes :: g.edges[k])
  }

  /** All edges at an entity, and the live nodes at their ends. */
  ghost predicate IsSubgraph(around: Graph, g: Graph, entity: string) {
    && (forall k :: k in around.edges <==> k in g.edges && (g.edges[k].source == entity || g.edges[k].target == entity))
    && (forall k :: k in around.edges ==> around.edges[k] == g.edges[k])
    && (forall id :: id in around.nodes <==>
          id in g.nodes
          && (id == entity || exists k :: k in around.edges && (g.edges[k].source == id || g.edges[k].target == id)))
    && (forall id :: id in around.nodes ==> around.nodes[id] == g.nodes[id])
  }

  class MemoryContextGraph {
    var nodes: map<string, Node>
    var edges: map<string, Edge>
    const ttlSeconds: int

    function Contents(): Graph
      reads this
    {
      Graph(nodes, edges)
    }

    constructor (ttlSeconds: int)
      ensures Contents() == EMPTY && this.ttlSeconds == ttlSeconds
    {
      nodes, edges := map[], map[];
      this.ttlSeconds := ttlSeconds;
    }

    method EnsureNode(id: string, category: Category, caption: string, ts: Time)
      modifies this
      ensures Contents() == Touched(old(Contents()), OnNode(id, category, caption), ts)
    {
      if id in nodes {
        var n := nodes[id];
        n := n.(hitCount := n.hitCount + 1);
        if ts > n.lastSeen {
          n := n.(lastSeen := ts);
        }
        nodes := nodes[id := n];
      } else {
        nodes := nodes[id := Node(id, category, caption, ts, ts, 1)];
      }
    }

    method RecordEdge(source: string, target: string, relation: Relation, ts: Time)
      modifies this
      ensures Contents() == Touched(old(Contents()), OnEdge(source, relation, target), ts)
    {
      var id := EdgeId(source, relation, target);
      if id in edges {
        var e := edges[id];
        e := e.(count := e.count + 1, weight := e.weight + Weight(relation));
        if ts > e.lastSeen {
          e := e.(lastSeen := ts);
        }
        edges := edges[id := e];
      } else {
        edges := edges[id := Edge(id, source, target, relation, 1, ts, ts, Weight(relation))];
      }
    }

    /** A few touches in a row. */
    method Perform(touches: seq<Touch>, ts: Time)
      modifies this
      ensures Contents() == AllTouched(old(Contents()), touches, ts)
    {
      for i := 0 to |touches|
        invariant Contents() == AllTouched(old(Contents()), touches[..i], ts)
      {
        assert touches[..i + 1][..i] == touches[..i];
        match touches[i] {
          case OnNode(id, category, caption) => EnsureNode(id, category, caption, ts);
          case OnEdge(source, relation, target) => RecordEdge(source, target, relation, ts);
        }
      }
      assert touches[..|touches|] == touches;
    }

    method RecordCapabilities(capabilities: seq<Capability>, entity: string, ts: Time)
      modifies this
      ensures Contents() == AllTouched(old(Contents()), CapabilityTouches(capabilities, entity), ts)
    {
      for i := 0 to |capabilities|
        invariant Contents() == AllTouched(old(Contents()), CapabilityTouches(capabilities[..i], entity), ts)
      {
        assert capabilities[..i + 1][..i] == capabilities[..i];
        var cap := CapabilityName(capabilities[i]);
        var node := "capability:" + cap;
        TwoMore(old(Contents()), CapabilityTouches(capabilities[..i], entity),
                OnNode(node, Resource, cap), OnEdge(entity, Exercises, node), ts);
        EnsureNode(node, Resource, cap, ts);
        RecordEdge(entity, node, Exercises, ts);
      }
      assert capabilities[..|capabilities|] == capabilities;
    }

    method RecordEvent(e: Event, entity: string, capabilities: seq<Capability>)
      modifies this
      ensures Contents() == AllTouched(old(Contents()), Touches(e, entity, capabilities), e.timestamp)
    {
      hide AllTouched, AppTouches, EndpointTouches, ResourceTouches, CapabilityTouches, HostTouches;
      ghost var g := Contents();
      Perform(AppTouches(e, entity), e.timestamp);
      Perform(EndpointTouches(e, entity), e.timestamp);
      Perform(ResourceTouches(e, entity), e.timestamp);
      RecordCapabilities(capabilities, entity, e.timestamp);
      Perform(HostTouches(e, entity), e.timestamp);
      TouchesInOrder(g, e, entity, capabilities);
    }

    /** The nodes and edges around an entity. */
    method GetSubgraph(entity: string) returns (around: Graph)
      ensures IsSubgraph(around, Contents(), entity)
    {
      var ids, matched, todo := {entity}, map[], edges.Keys;
      while todo != {}
        invariant todo <= edges.Keys
        invariant forall k :: k in matched <==>
                    k in edges && k !in todo && (edges[k].source == entity || edges[k].target == entity)
        invariant forall k :: k in matched ==> matched[k] == edges[k]
        invariant forall id :: id in ids <==>
                    id == entity || exists k :: k in matched && (edges[k].source == id || edges[k].target == id)
        decreases todo
      {
        var k :| k in todo;
        var e := edges[k];
        if e.source == entity || e.target == entity {
          ids := ids + {e.source, e.target};
          matched := matched[k := e];
        }
        todo := todo - {k};
      }
      return Graph(map id | id in ids && id in nodes :: nodes[id], matched);
    }

    method PruneExpired(now: Time) returns (removed: int)
      modifies this
      ensures Contents() == Pruned(old(Contents()), now - ttlSeconds * SECOND)
      ensures removed == |old(nodes)| - |nodes|
    {
      var cutoff := now - ttlSeconds * SECOND;
      var before := |nodes|;
      nodes := map id | id in nodes && nodes[id].lastSeen >= cutoff :: nodes[id];
      edges := map k | k in edges && edges[k].lastSeen >= cutoff
                       && edges[k].source in nodes && edges[k].target in nodes :: edges[k];
      removed := before - |nodes|;
    }
  }

  lemma TwoMore(g: Graph, touches: seq<Touch>, a: Touch, b: Touch, ts: Time)
    ensures AllTouched(g, touches + [a, b], ts) == Touched(Touched(AllTouched(g, touches, ts), a, ts), b, ts)
  {
    assert (touches + [a, b])[..|touches| + 1] == touches + [a];
    assert (touches + [a])[..|touches|] == touches;
  }

  lemma {:induction false} TouchConcat(g: Graph, a: seq<Touch>, b: seq<Touch>, ts: Time)
    ensures AllTouched(g, a + b, ts) == AllTouched(AllTouched(g, a, ts), b, ts)
  {
    if b == [] {
      assert a + b == a;
    } else {
      assert (a + b)[..|a + b| - 1] == a + b[..|b| - 1];
      TouchConcat(g, a, b[..|b| - 1], ts);
      hide Touched;
    }
  }

  lemma TouchesInOrder(g: Graph, e: Event, entity: string, capabilities: seq<Capability>)
    ensures var ts := e.timestamp;
            AllTouched(g, Touches(e, entity, capabilities), ts)
            == AllTouched(AllTouched(AllTouched(AllTouched(AllTouched(g, AppTouches(e, entity), ts),
                                                           EndpointTouches(e, entity), ts),
                                                ResourceTouches(e, entity), ts),
                                     CapabilityTouches(capabilities, entity), ts),
                          HostTouches(e, entity), ts)
  {
    hide AllTouched, AppTouches, EndpointTouches, ResourceTouches, CapabilityTouches, HostTouches;
    var ts, a := e.timestamp, AppTouches(e, entity);
    var b := a + EndpointTouches(e, entity);
    var c := b + ResourceTouches(e, entity);
    var d := c + CapabilityTouches(capabilities, entity);
    TouchConcat(g, a, EndpointTouches(e, entity), ts);
    TouchConcat(g, b, ResourceTouches(e, entity), ts);
    TouchConcat(g, c, CapabilityTouches(capabilities, entity), ts);
    TouchConcat(g, d, HostTouches(e, entity), ts);
  }
}
