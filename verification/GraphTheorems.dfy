/** What the context graph keeps in every run: no edge dangles, edges are never younger than their ends, and
    edge counts account for hits; so pruning by age is exact and every subgraph is closed. */
module GraphTheorems {
  import opened Basics
  import opened Capabilities
  import opened EdgeIds
  import opened Graph
  import opened Sums

  // ---------- One event ----------

  /** Every edge touch comes after touches of both its ends. */
  ghost predicate Covered(touches: seq<Touch>) {
    forall i :: 0 <= i < |touches| && touches[i].OnEdge? ==>
      && OnNodeBefore(touches, i, touches[i].source)
      && OnNodeBefore(touches, i, touches[i].target)
  }

  ghost predicate OnNodeBefore(touches: seq<Touch>, i: nat, id: string) {
    exists j :: 0 <= j < i && j < |touches| && touches[j].OnNode? && touches[j].id == id
  }

  lemma OnNodeBeforeAppend(a: seq<Touch>, b: seq<Touch>, i: nat, k: nat, id: string)
    requires (i <= |a| && i <= k && OnNodeBefore(a, i, id)) || (k == |a| + i && OnNodeBefore(b, i, id))
    ensures OnNodeBefore(a + b, k, id)
  {
    if i <= |a| && i <= k && OnNodeBefore(a, i, id) {
      var j :| 0 <= j < i && j < |a| && a[j].OnNode? && a[j].id == id;
      assert (a + b)[j] == a[j];
    } else {
      var j :| 0 <= j < i && j < |b| && b[j].OnNode? && b[j].id == id;
      assert (a + b)[|a| + j] == b[j];
    }
  }

  lemma OnNodeBeforeEither(a: seq<Touch>, b: seq<Touch>, k: nat, id: string)
    requires OnNodeBefore(a, |a|, id) || OnNodeBefore(b, k, id)
    ensures OnNodeBefore(a + b, |a| + k, id)
  {
    if OnNodeBefore(a, |a|, id) {
      OnNodeBeforeAppend(a, b, |a|, |a| + k, id);
    } else {
      OnNodeBeforeAppend(a, b, k, |a| + k, id);
    }
  }

  /** A list of touches that needs only nodes touched before it. */
  ghost predicate CoveredAfter(a: seq<Touch>, b: seq<Touch>) {
    forall i :: 0 <= i < |b| && b[i].OnEdge? ==>
      && (OnNodeBefore(a, |a|, b[i].source) || OnNodeBefore(b, i, b[i].source))
      && (OnNodeBefore(a, |a|, b[i].target) || OnNodeBefore(b, i, b[i].target))
  }

  lemma CoveredConcat(a: seq<Touch>, b: seq<Touch>)
    requires Covered(a) && CoveredAfter(a, b)
    ensures Covered(a + b)
  {
    hide OnNodeBefore;
    forall i | 0 <= i < |a + b| && (a + b)[i].OnEdge?
      ensures OnNodeBefore(a + b, i, (a + b)[i].source) && OnNodeBefore(a + b, i, (a + b)[i].target)
    {
      if i < |a| {
        OnNodeBeforeAppend(a, b, i, i, a[i].source);
        OnNodeBeforeAppend(a, b, i, i, a[i].target);
      } else {
        var k := i - |a|;
        OnNodeBeforeEither(a, b, k, b[k].source);
        OnNodeBeforeEither(a, b, k, b[k].target);
      }
    }
  }

  /** The prefix of touches that names the entity and the application. */
  ghost predicate Introduces(a: seq<Touch>, e: Event, entity: string) {
    Covered(a) && OnNodeBefore(a, |a|, entity) && OnNodeBefore(a, |a|, AppNode(e))
  }

  lemma IntroducesMore(a: seq<Touch>, b: seq<Touch>, e: Event, entity: string)
    requires Introduces(a, e, entity) && CoveredAfter(a, b)
    ensures Introduces(a + b, e, entity)
  {
    CoveredConcat(a, b);
    OnNodeBeforeAppend(a, b, |a|, |a + b|, entity);
    OnNodeBeforeAppend(a, b, |a|, |a + b|, AppNode(e));
  }

  lemma AppIntroduces(e: Event, entity: string)
    ensures Introduces(AppTouches(e, entity), e, entity)
  {
    hide AppNode;
    var a := AppTouches(e, entity);
    assert a[0].id == entity && a[1].id == AppNode(e);
  }

  lemma PartsCovered(a: seq<Touch>, e: Event, entity: string)
    requires Introduces(a, e, entity)
    ensures CoveredAfter(a, EndpointTouches(e, entity))
    ensures CoveredAfter(a, ResourceTouches(e, entity))
    ensures CoveredAfter(a, HostTouches(e, entity))
  {
    hide Covered, AppNode;
    PairCovered(a, e, entity);
    var b := EndpointTouches(e, entity);
    if b != [] {
      assert b[0].OnNode? && b[1].target == b[0].id && b[2].target == b[0].id;
      assert OnNodeBefore(b, 1, b[0].id) && OnNodeBefore(b, 2, b[0].id);
    }
  }

  lemma PairCovered(a: seq<Touch>, e: Event, entity: string)
    requires Introduces(a, e, entity)
    ensures forall id, category, caption, r :: CoveredAfter(a, [OnNode(id, category, caption), OnEdge(entity, r, id)])
  {
    forall id, category, caption, r ensures CoveredAfter(a, [OnNode(id, category, caption), OnEdge(entity, r, id)]) {
      var b := [OnNode(id, category, caption), OnEdge(entity, r, id)];
      assert b[0].id == id;
      assert OnNodeBefore(b, 1, id);
    }
  }

  lemma {:induction false} CapabilitiesCovered(a: seq<Touch>, e: Event, entity: string, capabilities: seq<Capability>)
    requires Introduces(a, e, entity)
    ensures Introduces(a + CapabilityTouches(capabilities, entity), e, entity)
  {
    hide Introduces;
    if capabilities == [] {
      assert a + [] == a;
    } else {
      var init, cap := capabilities[..|capabilities| - 1], CapabilityName(capabilities[|capabilities| - 1]);
      var b := [OnNode("capability:" + cap, Resource, cap), OnEdge(entity, Exercises, "capability:" + cap)];
      CapabilitiesCovered(a, e, entity, init);
      PairCovered(a + CapabilityTouches(init, entity), e, entity);
      IntroducesMore(a + CapabilityTouches(init, entity), b, e, entity);
      assert a + CapabilityTouches(capabilities, entity) == a + CapabilityTouches(init, entity) + b;
    }
  }

  lemma EventIsCovered(e: Event, entity: string, capabilities: seq<Capability>)
    ensures Covered(Touches(e, entity, capabilities))
  {
    hide OnNodeBefore, Covered, AppTouches, EndpointTouches, ResourceTouches, CapabilityTouches, HostTouches, AppNode,
         CoveredAfter;
    var a := AppTouches(e, entity);
    AppIntroduces(e, entity);
    PartsCovered(a, e, entity);
    var b := a + EndpointTouches(e, entity);
    IntroducesMore(a, EndpointTouches(e, entity), e, entity);
    PartsCovered(b, e, entity);
    var c := b + ResourceTouches(e, entity);
    IntroducesMore(b, ResourceTouches(e, entity), e, entity);
    CapabilitiesCovered(c, e, entity, capabilities);
    var d := c + CapabilityTouches(capabilities, entity);
    PartsCovered(d, e, entity);
    IntroducesMore(d, HostTouches(e, entity), e, entity);
  }

  predicate HasEndpoint(e: Event) {
    e.action.Some? && e.action.value.endpoint.Some?
  }

  // ---------- Which edges occur ----------

  type Edges = s: set<Touch> | forall t :: t in s ==> t.OnEdge?

  function EdgesOf(touches: seq<Touch>): Edges {
    set t | t in touches && t.OnEdge?
  }

  /** No two of these edges share an id. */
  ghost predicate Apart(edges: Edges) {
    forall t, t' :: t in edges && t' in edges && SameId(t, t') ==> t == t'
  }

  predicate SameId(t: Touch, t': Touch)
    requires t.OnEdge? && t'.OnEdge?
  {
    EdgeId(t.source, t.relation, t.target) == EdgeId(t'.source, t'.relation, t'.target)
  }

  lemma EdgesSplit(touches: seq<Touch>)
    requires touches != []
    ensures EdgesOf(touches[..|touches| - 1]) <= EdgesOf(touches)
    ensures touches[|touches| - 1].OnEdge? ==> touches[|touches| - 1] in EdgesOf(touches)
  {
    assert touches[|touches| - 1] in touches;
  }

  // ---------- The invariant ----------

  /** One of these edges, filed under its own id between live nodes that were seen at least as late as it was. */
  ghost predicate Anchored(g: Graph, edges: Edges, k: string, e: Edge) {
    && k == EdgeId(e.source, e.relation, e.target) && OnEdge(e.source, e.relation, e.target) in edges
    && e.source in g.nodes && e.lastSeen <= g.nodes[e.source].lastSeen
    && e.target in g.nodes && e.lastSeen <= g.nodes[e.target].lastSeen
    && e.weight == e.count * Weight(e.relation)
  }

  ghost predicate Sound(g: Graph, edges: Edges) {
    forall k :: k in g.edges ==> Anchored(g, edges, k, g.edges[k])
  }

  ghost predicate SeenBy(g: Graph, id: string, ts: Time) {
    id in g.nodes && g.nodes[id].lastSeen >= ts
  }

  lemma NodeTouchKeepsSound(g: Graph, edges: Edges, t: Touch, ts: Time)
    requires Sound(g, edges) && t.OnNode?
    ensures Sound(Touched(g, t, ts), edges)
  {
    hide EdgeId;
    var g' := Touched(g, t, ts);
    forall k | k in g'.edges ensures Anchored(g', edges, k, g'.edges[k]) {
      assert Anchored(g, edges, k, g.edges[k]);
    }
  }

  /** An edge that is there already under the id of a touched one is the same edge. */
  lemma SameIdSameEdge(g: Graph, edges: Edges, t: Touch)
    requires Apart(edges)
    requires Sound(g, edges) && t in edges
    ensures var id := EdgeId(t.source, t.relation, t.target);
            id in g.edges ==>
              g.edges[id].source == t.source && g.edges[id].relation == t.relation && g.edges[id].target == t.target
  {
    hide EdgeId;
    var id := EdgeId(t.source, t.relation, t.target);
    if id in g.edges {
      var e := g.edges[id];
      assert Anchored(g, edges, id, e);
      assert SameId(OnEdge(e.source, e.relation, e.target), t);
    }
  }

  lemma EdgeTouchKeepsSound(g: Graph, edges: Edges, t: Touch, ts: Time)
    requires Apart(edges)
    requires Sound(g, edges) && t in edges && SeenBy(g, t.source, ts) && SeenBy(g, t.target, ts)
    ensures Sound(Touched(g, t, ts), edges)
  {
    SameIdSameEdge(g, edges, t);
    hide EdgeId, Apart, Weight;
    var g', id := Touched(g, t, ts), EdgeId(t.source, t.relation, t.target);
    forall k | k in g'.edges ensures Anchored(g', edges, k, g'.edges[k]) {
      if k != id {
        assert Anchored(g, edges, k, g.edges[k]);
      } else if id in g.edges {
        assert Anchored(g, edges, id, g.edges[id]);
        Distribute(g.edges[id].count, Weight(t.relation));
      }
    }
  }

  lemma Distribute(n: nat, w: nat)
    ensures n * w + w == (n + 1) * w
  {
  }

  lemma {:induction false} TouchedNodeIsSeen(g: Graph, touches: seq<Touch>, ts: Time, j: nat)
    requires j < |touches| && touches[j].OnNode?
    ensures SeenBy(AllTouched(g, touches, ts), touches[j].id, ts)
  {
    hide EdgeId;
    if j < |touches| - 1 {
      TouchedNodeIsSeen(g, touches[..|touches| - 1], ts, j);
    }
  }

  lemma CoveredPrefix(touches: seq<Touch>)
    requires touches != [] && Covered(touches)
    ensures Covered(touches[..|touches| - 1])
  {
    var init := touches[..|touches| - 1];
    forall i | 0 <= i < |init| && init[i].OnEdge?
      ensures OnNodeBefore(init, i, init[i].source) && OnNodeBefore(init, i, init[i].target)
    {
      BeforeInPrefix(touches, i, touches[i].source);
      BeforeInPrefix(touches, i, touches[i].target);
    }
  }

  /** When an edge is touched, its ends have been seen. */
  lemma EndsAreSeen(g: Graph, touches: seq<Touch>, ts: Time)
    requires touches != [] && Covered(touches) && touches[|touches| - 1].OnEdge?
    ensures var g', t := AllTouched(g, touches[..|touches| - 1], ts), touches[|touches| - 1];
            SeenBy(g', t.source, ts) && SeenBy(g', t.target, ts)
  {
    hide AllTouched, SeenBy;
    var init, t := touches[..|touches| - 1], touches[|touches| - 1];
    var i :| 0 <= i < |init| && touches[i].OnNode? && touches[i].id == t.source;
    var j :| 0 <= j < |init| && touches[j].OnNode? && touches[j].id == t.target;
    TouchedNodeIsSeen(g, init, ts, i);
    TouchedNodeIsSeen(g, init, ts, j);
  }

  lemma {:induction false} TouchesKeepSound(g: Graph, edges: Edges, touches: seq<Touch>, ts: Time)
    requires Apart(edges) && EdgesOf(touches) <= edges
    requires Sound(g, edges) && Covered(touches)
    ensures Sound(AllTouched(g, touches, ts), edges)
  {
    if touches != [] {
      hide Sound, Covered, EdgesOf, Apart, EdgeId, Touched, SeenBy;
      var init, t := touches[..|touches| - 1], touches[|touches| - 1];
      CoveredPrefix(touches);
      EdgesSplit(touches);
      TouchesKeepSound(g, edges, init, ts);
      if t.OnNode? {
        NodeTouchKeepsSound(AllTouched(g, init, ts), edges, t, ts);
      } else {
        EndsAreSeen(g, touches, ts);
        EdgeTouchKeepsSound(AllTouched(g, init, ts), edges, t, ts);
      }
    }
  }

  lemma BeforeInPrefix(touches: seq<Touch>, i: nat, id: string)
    requires touches != [] && i < |touches| && OnNodeBefore(touches, i, id)
    ensures OnNodeBefore(touches[..|touches| - 1], i, id)
  {
    var j :| 0 <= j < i && j < |touches| && touches[j].OnNode? && touches[j].id == id;
    assert touches[..|touches| - 1][j] == touches[j];
  }

  // ---------- Every run ----------

  datatype Op = Record(event: Event, entity: string, capabilities: seq<Capability>) | Prune(cutoff: Time)

  function Step(g: Graph, op: Op): Graph {
    match op
    case Record(e, entity, capabilities) => AllTouched(g, Touches(e, entity, capabilities), e.timestamp)
    case Prune(cutoff) => Pruned(g, cutoff)
  }

  function Run(ops: seq<Op>): Graph {
    if ops == [] then EMPTY else Step(Run(ops[..|ops| - 1]), ops[|ops| - 1])
  }

  /** The edges that are touched in a run. */
  function EdgesIn(ops: seq<Op>): Edges {
    if ops == [] then {}
    else
      EdgesIn(ops[..|ops| - 1])
      + match ops[|ops| - 1]
        case Record(e, entity, capabilities) => EdgesOf(Touches(e, entity, capabilities))
        case Prune(_) => {}
  }

  lemma PruneKeepsSound(g: Graph, edges: Edges, cutoff: Time)
    requires Sound(g, edges)
    ensures Sound(Pruned(g, cutoff), edges)
  {
    hide EdgeId;
    forall k | k in Pruned(g, cutoff).edges ensures Anchored(Pruned(g, cutoff), edges, k, g.edges[k]) {
      assert Anchored(g, edges, k, g.edges[k]);
    }
  }

  /** In every run, with events in any order of time, each edge lies between live nodes seen at least as late as
      the edge, and weighs its count times the constant of its relation, if no two edges share an id. */
  lemma {:induction false} RunIsSound(ops: seq<Op>, edges: Edges)
    requires Apart(edges) && EdgesIn(ops) <= edges
    ensures Sound(Run(ops), edges)
  {
    if ops != [] {
      var before, op := ops[..|ops| - 1], ops[|ops| - 1];
      hide Sound, Covered, EdgesOf, Touches, AllTouched, Pruned, Apart;
      RunIsSound(before, edges);
      match op {
        case Record(e, entity, capabilities) =>
          EventIsCovered(e, entity, capabilities);
          TouchesKeepSound(Run(before), edges, Touches(e, entity, capabilities), e.timestamp);
        case Prune(cutoff) => PruneKeepsSound(Run(before), edges, cutoff);
      }
    }
  }

  /** Pruning keeps this edge exactly when it is not older than the cutoff. */
  ghost predicate Exact(ops: seq<Op>, cutoff: Time, k: string) {
    k in Pruned(Run(ops), cutoff).edges <==> k in Run(ops).edges && Run(ops).edges[k].lastSeen >= cutoff
  }

  /** If no two edges of the run share an id, then pruning keeps exactly the edges not older than the cutoff. */
  lemma PruneIsExact(ops: seq<Op>, cutoff: Time, k: string)
    requires Apart(EdgesIn(ops))
    ensures Exact(ops, cutoff, k)
  {
    hide Run, EdgesIn, Apart, EdgeId;
    RunIsSound(ops, EdgesIn(ops));
    if k in Run(ops).edges {
      assert Anchored(Run(ops), EdgesIn(ops), k, Run(ops).edges[k]);
    }
  }

  // ---------- When no two edges share an id ----------

  /** The edges of an event, given by the shape of their ends. */
  ghost predicate AllRecordable(touches: seq<Touch>, entity: string, e: Event) {
    forall t :: t in touches && t.OnEdge? ==>
      && CanRecord(t.source, t.relation, t.target)
      && (if t.relation == Exposes then t.source == AppNode(e) && HasEndpoint(e) else t.source == entity)
  }

  lemma {:induction false} CapabilitiesRecordable(capabilities: seq<Capability>, entity: string, e: Event)
    ensures AllRecordable(CapabilityTouches(capabilities, entity), entity, e)
  {
    if capabilities != [] {
      CapabilitiesRecordable(capabilities[..|capabilities| - 1], entity, e);
    }
  }

  lemma EndpointRecordable(e: Event, entity: string)
    ensures AllRecordable(EndpointTouches(e, entity), entity, e)
  {
    if HasEndpoint(e) {
      var path := e.action.value.endpoint.value;
      var node := "endpoint:" + e.appId + ":" + path;
      assert AppNode(e)[4..] == e.appId;
      assert "endpoint:" + e.appId + ":" <= node;
      assert node[9..][|e.appId|] == ':';
      hide CapabilityName;
    }
  }

  lemma PartsRecordable(e: Event, entity: string)
    ensures AllRecordable(AppTouches(e, entity), entity, e) && AllRecordable(ResourceTouches(e, entity), entity, e)
    ensures AllRecordable(HostTouches(e, entity), entity, e)
  {
    hide CapabilityName;
  }

  lemma RecordableConcat(a: seq<Touch>, b: seq<Touch>, entity: string, e: Event)
    requires AllRecordable(a, entity, e) && AllRecordable(b, entity, e)
    ensures AllRecordable(a + b, entity, e)
  {
    hide CanRecord, HasEndpoint, AppNode;
  }

  lemma EventIsRecordable(e: Event, entity: string, capabilities: seq<Capability>)
    ensures AllRecordable(Touches(e, entity, capabilities), entity, e)
  {
    PartsRecordable(e, entity);
    EndpointRecordable(e, entity);
    CapabilitiesRecordable(capabilities, entity, e);
    hide AllRecordable, AppTouches, EndpointTouches, ResourceTouches, CapabilityTouches, HostTouches;
    var a := AppTouches(e, entity) + EndpointTouches(e, entity);
    var b := a + ResourceTouches(e, entity);
    RecordableConcat(AppTouches(e, entity), EndpointTouches(e, entity), entity, e);
    RecordableConcat(a, ResourceTouches(e, entity), entity, e);
    RecordableConcat(b, CapabilityTouches(capabilities, entity), entity, e);
    RecordableConcat(b + CapabilityTouches(capabilities, entity), HostTouches(e, entity), entity, e);
  }

  predicate PlainName(entity: string) {
    PlainEntity(entity) && !("app:" <= entity)
  }

  /** Entities do not look like applications, and they and the applications that expose an endpoint are plain. */
  ghost predicate PlainNames(ops: seq<Op>) {
    forall i :: 0 <= i < |ops| && ops[i].Record? ==>
      && PlainName(ops[i].entity)
      && (HasEndpoint(ops[i].event) ==> PlainApp(ops[i].event.appId))
  }

  ghost predicate PlainEdge(t: Touch) {
    t.OnEdge? && CanRecord(t.source, t.relation, t.target) && Usual(t.source, t.relation) && Plain(t.source, t.relation)
  }

  lemma {:induction false} PlainEdges(ops: seq<Op>, t: Touch)
    requires PlainNames(ops) && t in EdgesIn(ops)
    ensures PlainEdge(t)
  {
    hide CanRecord, PlainEntity, PlainApp, Touches, HasEndpoint;
    var before, op := ops[..|ops| - 1], ops[|ops| - 1];
    if t in EdgesIn(before) {
      PlainEdges(before, t);
    } else {
      EventIsRecordable(op.event, op.entity, op.capabilities);
      assert AppNode(op.event)[4..] == op.event.appId;
    }
  }

  /** Plain names keep edges apart. */
  lemma PlainNamesKeepApart(ops: seq<Op>)
    requires PlainNames(ops)
    ensures Apart(EdgesIn(ops))
  {
    hide CanRecord, EdgeId, Usual, Plain, EdgesIn, PlainNames;
    forall t, t' | t in EdgesIn(ops) && t' in EdgesIn(ops) && SameId(t, t') ensures t == t' {
      PlainEdges(ops, t);
      PlainEdges(ops, t');
      EdgeIdInjective(t.source, t.relation, t.target, t'.source, t'.relation, t'.target);
    }
  }

  // ---------- What holds whatever the names ----------

  /** No edge dangles. */
  ghost predicate Tied(g: Graph) {
    forall k :: k in g.edges ==> g.edges[k].source in g.nodes && g.edges[k].target in g.nodes
  }

  lemma {:induction false} TouchesKeepTied(g: Graph, touches: seq<Touch>, ts: Time)
    requires Tied(g) && Covered(touches)
    ensures Tied(AllTouched(g, touches, ts))
  {
    if touches != [] {
      hide Tied, Covered, Touched;
      var init, t := touches[..|touches| - 1], touches[|touches| - 1];
      CoveredPrefix(touches);
      TouchesKeepTied(g, init, ts);
      if t.OnEdge? {
        EndsAreSeen(g, touches, ts);
      }
      TouchKeepsTied(AllTouched(g, init, ts), t, ts);
    }
  }

  lemma TouchKeepsTied(g: Graph, t: Touch, ts: Time)
    requires Tied(g) && (t.OnEdge? ==> t.source in g.nodes && t.target in g.nodes)
    ensures Tied(Touched(g, t, ts))
  {
    hide EdgeId;
  }

  /** Whatever the names and the order of the events, no edge dangles. */
  lemma {:induction false} RunIsTied(ops: seq<Op>)
    ensures Tied(Run(ops))
  {
    if ops != [] {
      var before, op := ops[..|ops| - 1], ops[|ops| - 1];
      hide Covered, Touches, AllTouched;
      RunIsTied(before);
      if op.Record? {
        EventIsCovered(op.event, op.entity, op.capabilities);
        TouchesKeepTied(Run(before), Touches(op.event, op.entity, op.capabilities), op.event.timestamp);
      }
    }
  }

  /** So every subgraph contains both ends of each of its edges. */
  lemma SubgraphsAreClosed(ops: seq<Op>, entity: string, around: Graph, k: string)
    requires IsSubgraph(around, Run(ops), entity) && k in around.edges
    ensures around.edges[k].source in around.nodes && around.edges[k].target in around.nodes
  {
    hide Run;
    RunIsTied(ops);
  }

  // ---------- Accounting ----------

  predicate IsVisit(r: Relation) {
    r == Accesses || r == AuthenticatesOn
  }

  ghost function VisitCounts(g: Graph, entity: string): map<string, nat> {
    map k | k in g.edges && g.edges[k].source == entity && IsVisit(g.edges[k].relation) :: g.edges[k].count
  }

  /** The counts of an entity's ACCESSES and AUTHENTICATES_ON edges together. */
  ghost function Visits(g: Graph, entity: string): nat {
    Sum(VisitCounts(g, entity))
  }

  function Hits(g: Graph, id: string): nat {
    if id in g.nodes then g.nodes[id].hitCount else 0
  }

  function NodeTouches(touches: seq<Touch>, id: string): nat {
    if touches == [] then 0
    else
      var t := touches[|touches| - 1];
      NodeTouches(touches[..|touches| - 1], id) + (if t.OnNode? && t.id == id then 1 else 0)
  }

  function VisitTouches(touches: seq<Touch>, id: string): nat {
    if touches == [] then 0
    else
      var t := touches[|touches| - 1];
      VisitTouches(touches[..|touches| - 1], id) + (if t.OnEdge? && t.source == id && IsVisit(t.relation) then 1 else 0)
  }

  lemma VisitStep(g: Graph, t: Touch, ts: Time, id: string)
    requires t.OnEdge?
    requires var k := EdgeId(t.source, t.relation, t.target);
             k in g.edges ==>
               g.edges[k].source == t.source && g.edges[k].relation == t.relation && g.edges[k].target == t.target
    ensures Visits(Touched(g, t, ts), id) == Visits(g, id) + (if t.source == id && IsVisit(t.relation) then 1 else 0)
    ensures Hits(Touched(g, t, ts), id) == Hits(g, id)
  {
    hide EdgeId, Weight, IsVisit;
    var k, g' := EdgeId(t.source, t.relation, t.target), Touched(g, t, ts);
    var before, after := VisitCounts(g, id), VisitCounts(g', id);
    if t.source == id && IsVisit(t.relation) {
      var n := if k in g.edges then g.edges[k].count else 0;
      assert after == before[k := n + 1];
      SumUpdate(before, k, n + 1);
    } else {
      assert after == before;
    }
  }

  lemma {:induction false} TouchesAccount(g: Graph, edges: Edges, touches: seq<Touch>, ts: Time, id: string)
    requires Apart(edges) && EdgesOf(touches) <= edges
    requires Sound(g, edges) && Covered(touches)
    ensures Visits(AllTouched(g, touches, ts), id) == Visits(g, id) + VisitTouches(touches, id)
    ensures Hits(AllTouched(g, touches, ts), id) == Hits(g, id) + NodeTouches(touches, id)
  {
    if touches != [] {
      hide Sound, Covered, EdgesOf, Apart, EdgeId, Visits, Hits, Touched, SeenBy;
      var init, t := touches[..|touches| - 1], touches[|touches| - 1];
      CoveredPrefix(touches);
      EdgesSplit(touches);
      TouchesAccount(g, edges, init, ts, id);
      TouchesKeepSound(g, edges, init, ts);
      var g1 := AllTouched(g, init, ts);
      if t.OnEdge? {
        SameIdSameEdge(g1, edges, t);
        VisitStep(g1, t, ts, id);
      } else {
        HitStep(g1, t, ts, id);
        SameEdgesSameVisits(g1, Touched(g1, t, ts), id);
      }
    }
  }

  lemma HitStep(g: Graph, t: Touch, ts: Time, id: string)
    requires t.OnNode?
    ensures Touched(g, t, ts).edges == g.edges
    ensures Hits(Touched(g, t, ts), id) == Hits(g, id) + (if t.id == id then 1 else 0)
  {
  }

  lemma SameEdgesSameVisits(g: Graph, g': Graph, id: string)
    requires g.edges == g'.edges
    ensures Visits(g, id) == Visits(g', id)
  {
  }

  lemma {:induction false} TouchCountsConcat(a: seq<Touch>, b: seq<Touch>, id: string)
    ensures NodeTouches(a + b, id) == NodeTouches(a, id) + NodeTouches(b, id)
    ensures VisitTouches(a + b, id) == VisitTouches(a, id) + VisitTouches(b, id)
  {
    if b == [] {
      assert a + b == a;
    } else {
      assert (a + b)[..|a + b| - 1] == a + b[..|b| - 1];
      TouchCountsConcat(a, b[..|b| - 1], id);
    }
  }

  /** Ids the graph makes up itself for applications, endpoints, resources, capabilities and hosts. */
  predicate Derived(id: string) {
    "app:" <= id || "endpoint:" <= id || "resource:" <= id || "capability:" <= id || "host:" <= id
  }

  lemma AppCounts(e: Event, entity: string, id: string)
    ensures VisitTouches(AppTouches(e, entity), id) == if id == entity then 1 else 0
    ensures NodeTouches(AppTouches(e, entity), id) >= if id == entity then 1 else 0
    ensures !Derived(id) ==> NodeTouches(AppTouches(e, entity), id) == if id == entity then 1 else 0
  {
    var a := AppTouches(e, entity);
    assert !Derived(id) ==> AppNode(e) != id;
    hide AppNode, Derived;
    assert a[..2][..1] == [a[0]] && a[..1][..0] == [];
    assert NodeTouches(a[..1], id) == if a[0].id == id then 1 else 0;
    assert NodeTouches(a[..2], id) == NodeTouches(a[..1], id) + if a[1].id == id then 1 else 0;
    assert VisitTouches(a[..1], id) == 0 && VisitTouches(a[..2], id) == 0;
  }

  lemma OtherCounts(e: Event, entity: string, id: string)
    ensures VisitTouches(EndpointTouches(e, entity), id) == 0
    ensures VisitTouches(ResourceTouches(e, entity), id) == 0
    ensures VisitTouches(HostTouches(e, entity), id) == 0
    ensures !Derived(id) ==> NodeTouches(EndpointTouches(e, entity), id) == 0
    ensures !Derived(id) ==> NodeTouches(ResourceTouches(e, entity), id) == 0
    ensures !Derived(id) ==> NodeTouches(HostTouches(e, entity), id) == 0
  {
    NoVisits(EndpointTouches(e, entity), id);
    NoVisits(ResourceTouches(e, entity), id);
    NoVisits(HostTouches(e, entity), id);
    if !Derived(id) {
      NoHits(EndpointTouches(e, entity), id);
      NoHits(ResourceTouches(e, entity), id);
      NoHits(HostTouches(e, entity), id);
    }
  }

  lemma {:induction false} NoVisits(touches: seq<Touch>, id: string)
    requires forall i :: 0 <= i < |touches| ==> touches[i].OnEdge? ==> !IsVisit(touches[i].relation)
    ensures VisitTouches(touches, id) == 0
  {
    if touches != [] {
      NoVisits(touches[..|touches| - 1], id);
    }
  }

  lemma {:induction false} NoHits(touches: seq<Touch>, id: string)
    requires forall i :: 0 <= i < |touches| ==> touches[i].OnNode? ==> touches[i].id != id
    ensures NodeTouches(touches, id) == 0
  {
    if touches != [] {
      NoHits(touches[..|touches| - 1], id);
    }
  }

  lemma {:induction false} CapabilityCounts(capabilities: seq<Capability>, entity: string, id: string)
    ensures VisitTouches(CapabilityTouches(capabilities, entity), id) == 0
    ensures !Derived(id) ==> NodeTouches(CapabilityTouches(capabilities, entity), id) == 0
  {
    if capabilities != [] {
      var init, cap := capabilities[..|capabilities| - 1], CapabilityName(capabilities[|capabilities| - 1]);
      var b := [OnNode("capability:" + cap, Resource, cap), OnEdge(entity, Exercises, "capability:" + cap)];
      CapabilityCounts(init, entity, id);
      TouchCountsConcat(CapabilityTouches(init, entity), b, id);
      NoVisits(b, id);
      if !Derived(id) {
        NoHits(b, id);
      }
    }
  }

  /** An event visits once, on behalf of its entity, and hits its entity. */
  lemma EventCounts(e: Event, entity: string, capabilities: seq<Capability>, id: string)
    ensures VisitTouches(Touches(e, entity, capabilities), id) == if id == entity then 1 else 0
    ensures NodeTouches(Touches(e, entity, capabilities), id) >= if id == entity then 1 else 0
    ensures !Derived(id) ==> NodeTouches(Touches(e, entity, capabilities), id) == if id == entity then 1 else 0
  {
    hide AppTouches, EndpointTouches, ResourceTouches, CapabilityTouches, HostTouches, Derived, NodeTouches,
         VisitTouches;
    var a := AppTouches(e, entity);
    var b := a + EndpointTouches(e, entity);
    var c := b + ResourceTouches(e, entity);
    var d := c + CapabilityTouches(capabilities, entity);
    TouchCountsConcat(a, EndpointTouches(e, entity), id);
    TouchCountsConcat(b, ResourceTouches(e, entity), id);
    TouchCountsConcat(c, CapabilityTouches(capabilities, entity), id);
    TouchCountsConcat(d, HostTouches(e, entity), id);
    AppCounts(e, entity, id);
    OtherCounts(e, entity, id);
    CapabilityCounts(capabilities, entity, id);
  }

  lemma {:induction false} SumOfSubmap<K>(m: map<K, nat>, n: map<K, nat>)
    requires m.Keys <= n.Keys && forall k :: k in m ==> m[k] == n[k]
    ensures Sum(m) <= Sum(n)
    decreases |n|
  {
    if n != map[] {
      var k :| k in n;
      SumSplit(n, k);
      if k in m {
        SumSplit(m, k);
        SumOfSubmap(m - {k}, n - {k});
      } else {
        SumOfSubmap(m, n - {k});
      }
    } else {
      assert m == map[];
    }
  }

  lemma PruneAccounts(g: Graph, edges: Edges, cutoff: Time, id: string)
    requires Sound(g, edges)
    ensures Visits(Pruned(g, cutoff), id) <= Visits(g, id)
    ensures id in Pruned(g, cutoff).nodes ==> Hits(Pruned(g, cutoff), id) == Hits(g, id)
    ensures id !in Pruned(g, cutoff).nodes ==> Visits(Pruned(g, cutoff), id) == 0
  {
    hide EdgeId;
    SumOfSubmap(VisitCounts(Pruned(g, cutoff), id), VisitCounts(g, id));
    if id !in Pruned(g, cutoff).nodes {
      assert VisitCounts(Pruned(g, cutoff), id) == map[];
    }
  }

  lemma {:induction false} VisitsAccount(ops: seq<Op>, edges: Edges, id: string)
    requires Apart(edges) && EdgesIn(ops) <= edges
    ensures Visits(Run(ops), id) <= Hits(Run(ops), id)
    ensures (forall i :: 0 <= i < |ops| ==> ops[i].Record?) && !Derived(id)
            ==> Visits(Run(ops), id) == Hits(Run(ops), id)
  {
    if ops == [] {
      assert VisitCounts(EMPTY, id) == map[];
    } else {
      var before, op := ops[..|ops| - 1], ops[|ops| - 1];
      hide Sound, Covered, Touches, EdgesOf, Apart, AllTouched, Visits, Hits, Pruned, Derived;
      VisitsAccount(before, edges, id);
      RunIsSound(before, edges);
      match op {
        case Record(e, entity, capabilities) =>
          EventIsCovered(e, entity, capabilities);
          EventCounts(e, entity, capabilities, id);
          TouchesAccount(Run(before), edges, Touches(e, entity, capabilities), e.timestamp, id);
        case Prune(cutoff) =>
          PruneAccounts(Run(before), edges, cutoff, id);
      }
    }
  }

  /** In every run whose edges do not share ids the counts of an entity's ACCESSES and AUTHENTICATES_ON edges sum to at
      most its hits; and to exactly its hits as long as nothing was pruned, unless the entity's id is one the graph
      makes up itself. */
  lemma VisitsAccountForHits(ops: seq<Op>, id: string)
    requires Apart(EdgesIn(ops))
    ensures Visits(Run(ops), id) <= Hits(Run(ops), id)
    ensures (forall i :: 0 <= i < |ops| ==> ops[i].Record?) && !Derived(id)
            ==> Visits(Run(ops), id) == Hits(Run(ops), id)
  {
    hide *;
    VisitsAccount(ops, EdgesIn(ops), id);
  }
}
