/** What one event leaves in the context graph: which nodes and edges, and what becomes of those that were there. */
module Traces {
  import opened Basics
  import opened Capabilities
  import opened Graph
  import opened GraphTheorems

  // ---------- Which nodes and edges ----------

  /** The word for a relation. */
  predicate Reads(r: Relation, word: string) {
    (r, word) in {(AuthenticatesOn, "AUTHENTICATES_ON"), (Accesses, "ACCESSES"), (Probed, "PROBED"), (Calls, "CALLS"),
                  (Exposes, "EXPOSES"), (Targets, "TARGETS"), (Exercises, "EXERCISES"),
                  (OriginatesFrom, "ORIGINATES_FROM")}
  }

  /** What one observation adds to the weight of an edge, in halves. */
  predicate Weighs(r: Relation, halves: nat) {
    match r
    case Targets => halves == 3
    case Exposes => halves == 1
    case OriginatesFrom => halves == 1
    case _ => halves == 2
  }

  predicate Called(c: Capability, word: string) {
    (c, word) in {(DatabaseRead, "database.read"), (DatabaseWrite, "database.write"),
                  (NetworkConnect, "network.connect"), (FilesystemRead, "filesystem.read"),
                  (FilesystemWrite, "filesystem.write"),
                  (ProcessExecute, "process.execute"), (AdminOperation, "admin.operation"),
                  (SessionAuthenticate, "session.authenticate"), (DataExport, "data.export")}
  }

  lemma WordsAre(r: Relation, c: Capability, s: string, t: string)
    ensures Reads(r, Name(r)) && Weighs(r, Weight(r)) && Called(c, CapabilityName(c))
    ensures EdgeId(s, r, t) == s + "-" + Name(r) + "-" + t
    ensures forall word :: Called(c, word) ==> word == CapabilityName(c)
  {
  }

  /** The endpoint an event is about. */
  function Place(e: Event): Option<string> {
    match e.action
    case Some(Action(_, endpoint, _)) => endpoint
    case None => None
  }

  predicate AnsweredBadly(e: Event) {
    e.action.Some? && e.action.value.statusCode.Some? && e.action.value.statusCode.value >= 400
  }

  predicate IsLogin(e: Event) {
    "auth." <= e.eventType
  }

  /** The edges an event leaves. */
  ghost predicate Links(e: Event, entity: string, capabilities: seq<Capability>, s: string, r: Relation, t: string) {
    match r
    case AuthenticatesOn => s == entity && t == "app:" + e.appId && IsLogin(e)
    case Accesses => s == entity && t == "app:" + e.appId && !IsLogin(e)
    case Probed =>
      s == entity && Place(e).Some? && t == "endpoint:" + e.appId + ":" + Place(e).value && AnsweredBadly(e)
    case Calls =>
      s == entity && Place(e).Some? && t == "endpoint:" + e.appId + ":" + Place(e).value && !AnsweredBadly(e)
    case Exposes => s == "app:" + e.appId && Place(e).Some? && t == "endpoint:" + e.appId + ":" + Place(e).value
    case Targets => s == entity && e.resourceId.Some? && t == "resource:" + e.resourceId.value
    case Exercises => s == entity && exists c :: c in capabilities && t == "capability:" + CapabilityName(c)
    case OriginatesFrom => s == entity && e.ip.Some? && t == "host:" + e.ip.value
  }

  /** The nodes an event leaves, with their category and caption. */
  ghost predicate Marks(e: Event, entity: string, capabilities: seq<Capability>, id: string, category: Category,
                        caption: string)
  {
    match category
    case Entity => id == entity == caption
    case Application => id == "app:" + e.appId && caption == e.appId
    case Endpoint =>
      && Place(e).Some? && id == "endpoint:" + e.appId + ":" + Place(e).value
      && caption == (if e.action.value.verb.Some? then e.action.value.verb.value else "REQ") + " " + Place(e).value
    case Resource =>
      || (e.resourceId.Some? && id == "resource:" + e.resourceId.value && caption == e.resourceId.value)
      || exists c :: c in capabilities && id == "capability:" + CapabilityName(c) && caption == CapabilityName(c)
    case Host => e.ip.Some? && id == "host:" + e.ip.value && caption == e.ip.value
  }

  lemma {:induction false} CapabilityMarks(capabilities: seq<Capability>, entity: string, t: Touch)
    ensures t in CapabilityTouches(capabilities, entity) <==>
            exists c :: && c in capabilities
                        && t in {OnNode("capability:" + CapabilityName(c), Resource, CapabilityName(c)),
                                 OnEdge(entity, Exercises, "capability:" + CapabilityName(c))}
  {
    hide CapabilityName;
    if capabilities != [] {
      var init, last := capabilities[..|capabilities| - 1], capabilities[|capabilities| - 1];
      CapabilityMarks(init, entity, t);
      assert forall c :: c in capabilities <==> c in init || c == last;
    }
  }

  /** An event touches exactly these edges. */
  lemma EdgeIff(e: Event, entity: string, capabilities: seq<Capability>, s: string, r: Relation, t: string)
    ensures OnEdge(s, r, t) in Touches(e, entity, capabilities) <==> Links(e, entity, capabilities, s, r, t)
  {
    CapabilityMarks(capabilities, entity, OnEdge(s, r, t));
    hide CapabilityName, CapabilityTouches;
  }

  /** How many of the touches are edges of a relation. */
  function Kindred(touches: seq<Touch>, r: Relation): nat {
    if touches == [] then 0
    else
      var t := touches[|touches| - 1];
      Kindred(touches[..|touches| - 1], r) + (if t.OnEdge? && t.relation == r then 1 else 0)
  }

  lemma {:induction false} KindredConcat(a: seq<Touch>, b: seq<Touch>, r: Relation)
    ensures Kindred(a + b, r) == Kindred(a, r) + Kindred(b, r)
  {
    if b == [] {
      assert a + b == a;
    } else {
      assert (a + b)[..|a + b| - 1] == a + b[..|b| - 1];
      KindredConcat(a, b[..|b| - 1], r);
    }
  }

  lemma KindredThree(x: Touch, y: Touch, z: Touch, r: Relation)
    ensures Kindred([x], r) == if x.OnEdge? && x.relation == r then 1 else 0
    ensures Kindred([x, y], r) == Kindred([x], r) + Kindred([y], r)
    ensures Kindred([x, y, z], r) == Kindred([x], r) + Kindred([y], r) + Kindred([z], r)
  {
    assert [x][..0] == [] && [y][..0] == [] && [z][..0] == [] && [x, y][..1] == [x] && [x, y, z][..2] == [x, y];
  }

  lemma PartsKindred(e: Event, entity: string, r: Relation)
    ensures Kindred(AppTouches(e, entity), r) <= if r == AuthenticatesOn || r == Accesses then 1 else 0
    ensures Kindred(EndpointTouches(e, entity), r) <= if r == Probed || r == Calls || r == Exposes then 1 else 0
    ensures Kindred(ResourceTouches(e, entity), r) <= if r == Targets then 1 else 0
    ensures Kindred(HostTouches(e, entity), r) <= if r == OriginatesFrom then 1 else 0
  {
    var a, b, c, d := AppTouches(e, entity), EndpointTouches(e, entity), ResourceTouches(e, entity),
                      HostTouches(e, entity);
    assert a == [a[0], a[1], a[2]];
    KindredThree(a[0], a[1], a[2], r);
    if b != [] {
      assert b == [b[0], b[1], b[2]];
      KindredThree(b[0], b[1], b[2], r);
    }
    if c != [] {
      assert c == [c[0], c[1]];
      KindredThree(c[0], c[1], c[1], r);
    }
    if d != [] {
      assert d == [d[0], d[1]];
      KindredThree(d[0], d[1], d[1], r);
    }
  }

  lemma {:induction false} CapabilitiesKindred(capabilities: seq<Capability>, entity: string, r: Relation)
    ensures Kindred(CapabilityTouches(capabilities, entity), r) == if r == Exercises then |capabilities| else 0
  {
    if capabilities != [] {
      var init, cap := capabilities[..|capabilities| - 1], CapabilityName(capabilities[|capabilities| - 1]);
      var x, y := OnNode("capability:" + cap, Resource, cap), OnEdge(entity, Exercises, "capability:" + cap);
      CapabilitiesKindred(init, entity, r);
      KindredThree(x, y, y, r);
      KindredConcat(CapabilityTouches(init, entity), [x, y], r);
    }
  }

  /** An event records at most one edge of each relation, and one EXERCISES edge for each capability listed. */
  lemma EdgesOnce(e: Event, entity: string, capabilities: seq<Capability>, r: Relation)
    ensures r != Exercises ==> Kindred(Touches(e, entity, capabilities), r) <= 1
    ensures Kindred(Touches(e, entity, capabilities), Exercises) == |capabilities|
  {
    forall q ensures Kindred(Touches(e, entity, capabilities), q)
                     == Kindred(AppTouches(e, entity), q) + Kindred(EndpointTouches(e, entity), q)
                        + Kindred(ResourceTouches(e, entity), q) + Kindred(CapabilityTouches(capabilities, entity), q)
                        + Kindred(HostTouches(e, entity), q)
    {
      PartsAdd(e, entity, capabilities, q);
    }
    PartsKindred(e, entity, r);
    PartsKindred(e, entity, Exercises);
    CapabilitiesKindred(capabilities, entity, r);
    CapabilitiesKindred(capabilities, entity, Exercises);
    hide Kindred, Touches;
  }

  lemma PartsAdd(e: Event, entity: string, capabilities: seq<Capability>, r: Relation)
    ensures Kindred(Touches(e, entity, capabilities), r)
         == Kindred(AppTouches(e, entity), r) + Kindred(EndpointTouches(e, entity), r)
          + Kindred(ResourceTouches(e, entity), r) + Kindred(CapabilityTouches(capabilities, entity), r)
          + Kindred(HostTouches(e, entity), r)
  {
    hide AppTouches, EndpointTouches, ResourceTouches, CapabilityTouches, HostTouches, Kindred;
    var a := AppTouches(e, entity);
    var b := a + EndpointTouches(e, entity);
    var c := b + ResourceTouches(e, entity);
    var d := c + CapabilityTouches(capabilities, entity);
    KindredConcat(a, EndpointTouches(e, entity), r);
    KindredConcat(b, ResourceTouches(e, entity), r);
    KindredConcat(c, CapabilityTouches(capabilities, entity), r);
    KindredConcat(d, HostTouches(e, entity), r);
  }

  /** And exactly these nodes. */
  lemma NodeIff(e: Event, entity: string, capabilities: seq<Capability>, id: string, category: Category,
               caption: string)
    ensures OnNode(id, category, caption) in Touches(e, entity, capabilities)
       <==> Marks(e, entity, capabilities, id, category, caption)
  {
    CapabilityMarks(capabilities, entity, OnNode(id, category, caption));
    hide CapabilityName, CapabilityTouches;
  }

  // ---------- What becomes of them ----------

  /** A node that is touched was last seen at the later of its time and this one; a new one is as it was first touched;
      the others stay. */
  ghost predicate NodeFollows(g: Graph, g': Graph, touches: seq<Touch>, ts: Time, id: string) {
    var hits := NodeTouches(touches, id);
    if hits == 0 then
      (id in g'.nodes <==> id in g.nodes) && (id in g.nodes ==> g'.nodes[id] == g.nodes[id])
    else
      && id in g'.nodes && g'.nodes[id].id == (if id in g.nodes then g.nodes[id].id else id)
      && g'.nodes[id].hitCount == (if id in g.nodes then g.nodes[id].hitCount else 0) + hits
      && g'.nodes[id].lastSeen == (if id in g.nodes && g.nodes[id].lastSeen > ts then g.nodes[id].lastSeen else ts)
      && g'.nodes[id].firstSeen == (if id in g.nodes then g.nodes[id].firstSeen else ts)
      && if id in g.nodes then
           g'.nodes[id].category == g.nodes[id].category && g'.nodes[id].caption == g.nodes[id].caption
         else
           exists j :: && 0 <= j < |touches|
                       && touches[j] == OnNode(id, g'.nodes[id].category, g'.nodes[id].caption)
                       && forall i :: 0 <= i < j && touches[i].OnNode? ==> touches[i].id != id
  }

  lemma {:induction false} NodesFollow(g: Graph, touches: seq<Touch>, ts: Time, id: string)
    ensures NodeFollows(g, AllTouched(g, touches, ts), touches, ts, id)
  {
    hide EdgeId;
    if touches != [] {
      var init, last := touches[..|touches| - 1], touches[|touches| - 1];
      NodesFollow(g, init, ts, id);
      assert forall j :: 0 <= j < |init| ==> touches[j] == init[j];
      if NodeTouches(init, id) == 0 {
        NoneTouched(init, id);
      }
    }
  }

  lemma {:induction false} NoneTouched(touches: seq<Touch>, id: string)
    ensures NodeTouches(touches, id) == 0
       <==> forall i :: 0 <= i < |touches| && touches[i].OnNode? ==> touches[i].id != id
  {
    if touches != [] {
      NoneTouched(touches[..|touches| - 1], id);
    }
  }

  predicate Under(t: Touch, k: string) {
    t.OnEdge? && EdgeId(t.source, t.relation, t.target) == k
  }

  /** How often an edge id is touched, and with how much weight. */
  function EdgeTouches(touches: seq<Touch>, k: string): nat {
    if touches == [] then 0
    else EdgeTouches(touches[..|touches| - 1], k) + (if Under(touches[|touches| - 1], k) then 1 else 0)
  }

  function EdgeWeight(touches: seq<Touch>, k: string): nat {
    if touches == [] then 0
    else
      var t := touches[|touches| - 1];
      EdgeWeight(touches[..|touches| - 1], k) + (if Under(t, k) then Weight(t.relation) else 0)
  }

  /** The same for edges: counts and weights add up, and the ends of an edge stay. */
  ghost predicate EdgeFollows(g: Graph, g': Graph, touches: seq<Touch>, ts: Time, k: string) {
    var n := EdgeTouches(touches, k);
    if n == 0 then
      (k in g'.edges <==> k in g.edges) && (k in g.edges ==> g'.edges[k] == g.edges[k])
    else
      && k in g'.edges
      && g'.edges[k].count == (if k in g.edges then g.edges[k].count else 0) + n
      && g'.edges[k].weight == (if k in g.edges then g.edges[k].weight else 0) + EdgeWeight(touches, k)
      && g'.edges[k].lastSeen == (if k in g.edges && g.edges[k].lastSeen > ts then g.edges[k].lastSeen else ts)
      && g'.edges[k].firstSeen == (if k in g.edges then g.edges[k].firstSeen else ts)
      && (k in g.edges ==>
            && g'.edges[k].id == g.edges[k].id && g'.edges[k].source == g.edges[k].source
            && g'.edges[k].target == g.edges[k].target && g'.edges[k].relation == g.edges[k].relation)
  }

  lemma EdgeStep(g: Graph, t: Touch, ts: Time, k: string)
    ensures var g' := Touched(g, t, ts);
            if !Under(t, k) then
              (k in g'.edges <==> k in g.edges) && (k in g.edges ==> g'.edges[k] == g.edges[k])
            else
              && k in g'.edges
              && if k in g.edges then
                   var e := g.edges[k];
                   g'.edges[k] == e.(count := e.count + 1, weight := e.weight + Weight(t.relation),
                                     lastSeen := Max(e.lastSeen, ts))
                 else g'.edges[k] == Edge(k, t.source, t.target, t.relation, 1, ts, ts, Weight(t.relation))
  {
    hide EdgeId;
  }

  lemma {:induction false} EdgesFollow(g: Graph, touches: seq<Touch>, ts: Time, k: string)
    ensures EdgeFollows(g, AllTouched(g, touches, ts), touches, ts, k)
  {
    if touches != [] {
      var init, last := touches[..|touches| - 1], touches[|touches| - 1];
      EdgesFollow(g, init, ts, k);
      EdgeStep(AllTouched(g, init, ts), last, ts, k);
      assert AllTouched(g, touches, ts) == Touched(AllTouched(g, init, ts), last, ts);
      NoneUnder(init, k);
      hide Touched, AllTouched, Weight, Under;
    }
  }

  /** A new edge has the ends and the relation of the first touch under its id. */
  lemma {:induction false} NewEdgeIs(g: Graph, touches: seq<Touch>, ts: Time, k: string, j: nat)
    requires k !in g.edges && j < |touches| && Under(touches[j], k)
    requires forall i :: 0 <= i < j ==> !Under(touches[i], k)
    ensures var g', t := AllTouched(g, touches, ts), touches[j];
            && k in g'.edges && g'.edges[k].id == k
            && g'.edges[k].source == t.source && g'.edges[k].relation == t.relation && g'.edges[k].target == t.target
  {
    var init, last := touches[..|touches| - 1], touches[|touches| - 1];
    assert AllTouched(g, touches, ts) == Touched(AllTouched(g, init, ts), last, ts);
    EdgeStep(AllTouched(g, init, ts), last, ts, k);
    if j < |init| {
      NewEdgeIs(g, init, ts, k, j);
    } else {
      EdgesFollow(g, init, ts, k);
      NoneUnder(init, k);
    }
    hide Touched, AllTouched, EdgeId, Weight;
  }

  lemma {:induction false} NoneUnder(touches: seq<Touch>, k: string)
    ensures EdgeTouches(touches, k) == 0 <==> forall i :: 0 <= i < |touches| ==> !Under(touches[i], k)
    ensures EdgeTouches(touches, k) == 0 ==> EdgeWeight(touches, k) == 0
  {
    hide EdgeId;
    if touches != [] {
      NoneUnder(touches[..|touches| - 1], k);
    }
  }
}
