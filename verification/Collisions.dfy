/** Two events whose edges share an id make pruning inexact; and which edges can events record at all? */
module Collisions {
  import opened Basics
  import opened Capabilities
  import opened EdgeIds
  import opened Graph
  import opened GraphTheorems

  lemma {:induction false} OthersStay(g: Graph, touches: seq<Touch>, ts: Time, id: string)
    requires forall i :: 0 <= i < |touches| && touches[i].OnNode? ==> touches[i].id != id
    ensures id in AllTouched(g, touches, ts).nodes <==> id in g.nodes
    ensures id in g.nodes ==> AllTouched(g, touches, ts).nodes[id] == g.nodes[id]
  {
    hide EdgeId;
    if touches != [] {
      OthersStay(g, touches[..|touches| - 1], ts, id);
    }
  }

  lemma {:induction false} AllAtOnce(touches: seq<Touch>, ts: Time, id: string)
    requires id in AllTouched(EMPTY, touches, ts).nodes
    ensures AllTouched(EMPTY, touches, ts).nodes[id].lastSeen == ts
  {
    hide EdgeId;
    if touches != [] && id in AllTouched(EMPTY, touches[..|touches| - 1], ts).nodes {
      AllAtOnce(touches[..|touches| - 1], ts, id);
    }
  }

  /** An edge keeps its source whatever is touched. */
  lemma {:induction false} SourceStays(g: Graph, touches: seq<Touch>, ts: Time, k: string)
    requires k in g.edges
    ensures k in AllTouched(g, touches, ts).edges && AllTouched(g, touches, ts).edges[k].source == g.edges[k].source
  {
    hide EdgeId;
    if touches != [] {
      SourceStays(g, touches[..|touches| - 1], ts, k);
    }
  }

  lemma {:induction false} TouchedEdgeIsRecent(g: Graph, touches: seq<Touch>, ts: Time, j: nat)
    requires j < |touches| && touches[j].OnEdge?
    ensures var k := EdgeId(touches[j].source, touches[j].relation, touches[j].target);
            k in AllTouched(g, touches, ts).edges && AllTouched(g, touches, ts).edges[k].lastSeen >= ts
  {
    hide EdgeId;
    if j < |touches| - 1 {
      TouchedEdgeIsRecent(g, touches[..|touches| - 1], ts, j);
    }
  }

  // ---------- Two events that share an id ----------

  lemma OneEvent(x: Event, a: string, m: Touch)
    requires Apart(EdgesOf(Touches(x, a, []))) && m.OnEdge? && m in Touches(x, a, [])
    ensures var g, k := AllTouched(EMPTY, Touches(x, a, []), x.timestamp), EdgeId(m.source, m.relation, m.target);
            && g == Run([Record(x, a, [])]) && k in g.edges && g.edges[k].source == m.source
  {
    var op, touches := Record(x, a, []), Touches(x, a, []);
    var ops := [op];
    assert ops[..0] == [];
    hide Touches, AllTouched, EdgeId, EdgesOf, Apart, Sound;
    var g := AllTouched(EMPTY, touches, x.timestamp);
    assert Run(ops) == Step(Run(ops[..0]), op) == g;
    assert EdgesIn(ops) == EdgesIn(ops[..0]) + EdgesOf(touches) == EdgesOf(touches);
    var j :| 0 <= j < |touches| && touches[j] == m;
    TouchedEdgeIsRecent(EMPTY, touches, x.timestamp, j);
    RunIsSound(ops, EdgesIn(ops));
    assert m in EdgesIn(ops) by {
      InEdges(touches, m);
    }
    SameIdSameEdge(g, EdgesIn(ops), m);
  }

  lemma InEdges(touches: seq<Touch>, m: Touch)
    requires m in touches && m.OnEdge?
    ensures m in EdgesOf(touches)
  {
  }

  /** Two events a hundred nanoseconds apart: an edge of the second is filed under the id of an edge of the first, and
      the second does not touch the first one's source. */
  ghost predicate Collide(x: Event, a: string, m: Touch, y: Event, b: string, n: Touch) {
    && x.timestamp == 0 && y.timestamp == 100 && Apart(EdgesOf(Touches(x, a, [])))
    && m.OnEdge? && m in Touches(x, a, []) && n.OnEdge? && n in Touches(y, b, []) && SameId(m, n)
    && var second := Touches(y, b, []);
       forall i :: 0 <= i < |second| && second[i].OnNode? ==> second[i].id != m.source
  }

  /** Then pruning with a cutoff between the two drops the recent edge. */
  lemma CollisionIsInexact(x: Event, a: string, m: Touch, y: Event, b: string, n: Touch)
    requires Collide(x, a, m, y, b, n)
    ensures !Exact([Record(x, a, []), Record(y, b, [])], 50, EdgeId(n.source, n.relation, n.target))
  {
    OneEvent(x, a, m);
    hide Touches, EdgeId, EdgesOf, Apart;
    var first, second := Touches(x, a, []), Touches(y, b, []);
    var g, k := AllTouched(EMPTY, first, 0), EdgeId(n.source, n.relation, n.target);
    var g' := AllTouched(g, second, 100);
    SecondStep(x, a, y, b);
    SourceStays(g, second, 100, k);
    OthersStay(g, second, 100, m.source);
    if m.source in g.nodes {
      AllAtOnce(first, 0, m.source);
    }
    var j :| 0 <= j < |second| && second[j] == n;
    TouchedEdgeIsRecent(g, second, 100, j);
  }

  lemma SecondStep(x: Event, a: string, y: Event, b: string)
    ensures Run([Record(x, a, []), Record(y, b, [])])
         == AllTouched(Run([Record(x, a, [])]), Touches(y, b, []), y.timestamp)
  {
    hide Touches, AllTouched;
    var ops := [Record(x, a, []), Record(y, b, [])];
    assert ops[..1] == [Record(x, a, [])];
    assert Run(ops) == Step(Run(ops[..1]), ops[1]);
  }

  lemma PlainEventIsApart(x: Event, a: string)
    requires PlainName(a) && (HasEndpoint(x) ==> PlainApp(x.appId))
    ensures Apart(EdgesOf(Touches(x, a, [])))
  {
    hide Touches, EdgesOf, Apart, PlainEntity, PlainApp;
    var ops := [Record(x, a, [])];
    assert EdgesIn(ops[..0]) == {};
    assert EdgesIn(ops) == EdgesIn(ops[..0]) + EdgesOf(Touches(x, a, [])) == EdgesOf(Touches(x, a, []));
    PlainNamesKeepApart(ops);
  }

  // ---------- Which edges events record ----------

  /** The first part of a text up to a colon, and the rest. */
  lemma {:induction false} SplitAtColon(w: string) returns (z: string, path: string)
    requires ':' in w
    ensures w == z + ":" + path && ':' !in z
  {
    if w[0] == ':' {
      z, path := "", w[1..];
    } else {
      z, path := SplitAtColon(w[1..]);
      z := [w[0]] + z;
    }
  }

  /** The edge of an entity is among the touches of an event at time 0, whose application is plain. */
  ghost predicate Records(e: Event, a: string, q: Relation, u: string) {
    e.timestamp == 0 && (HasEndpoint(e) ==> PlainApp(e.appId)) && OnEdge(a, q, u) in Touches(e, a, [])
  }

  lemma EndpointProbe(a: string, q: Relation, w: string) returns (e: Event)
    requires q in {Calls, Probed} && ':' in w
    ensures Records(e, a, q, "endpoint:" + w)
  {
    var z, path := SplitAtColon(w);
    e := Event(0, z, "", Some(Action(None, Some(path), if q == Calls then None else Some(400))), None, None);
    ColonFreeIsPlain(z);
    hide PlainApp;
    assert "endpoint:" + z + ":" + path == "endpoint:" + w;
    assert EndpointTouches(e, a)[1] == OnEdge(a, q, "endpoint:" + w);
  }

  lemma AppProbe(a: string, q: Relation, w: string) returns (e: Event)
    requires q in {Accesses, AuthenticatesOn}
    ensures Records(e, a, q, "app:" + w)
  {
    e := Event(0, w, if q == Accesses then "" else "auth.", None, None, None);
    assert |""| < |"auth."|;
    assert AppTouches(e, a)[2] == OnEdge(a, q, "app:" + w);
  }

  /** An entity finds an endpoint of an application. */
  function Finding(at: Time, y: string, path: string): Event {
    Event(at, y, "", Some(Action(None, Some(path), None)), None, None)
  }

  lemma EasyEntity()
    ensures PlainName("e")
  {
    hide Name, TargetPrefix;
  }

  lemma TouchesOfFinding(at: Time, y: string, path: string, entity: string)
    ensures var node := "endpoint:" + y + ":" + path;
            Touches(Finding(at, y, path), entity, [])
            == [OnNode(entity, Entity, entity), OnNode("app:" + y, Application, y),
                OnEdge(entity, Accesses, "app:" + y),
                OnNode(node, Endpoint, "REQ" + " " + path), OnEdge(entity, Calls, node),
                OnEdge("app:" + y, Exposes, node)]
  {
    assert |""| < |"auth."|;
  }

  function Visit(app: string): Event {
    Event(100, app, "", None, None, None)
  }

  lemma TouchesOfVisit(app: string, s: string)
    ensures Touches(Visit(app), s, []) == [OnNode(s, Entity, s), OnNode("app:" + app, Application, app),
                                           OnEdge(s, Accesses, "app:" + app)]
  {
    assert |""| < |"auth."|;
  }

  /** Edges of other kinds than calls are recorded without an endpoint. */
  lemma SimpleProbe(a: string, q: Relation, u: string) returns (e: Event)
    requires q in {Targets, OriginatesFrom} && TargetPrefix(q) <= u
    ensures !HasEndpoint(e) && e.timestamp == 0 && OnEdge(a, q, u) in Touches(e, a, [])
  {
    var w := u[|TargetPrefix(q)|..];
    assert u == TargetPrefix(q) + w;
    hide Name;
    if q == Targets {
      e := Event(0, "", "", None, Some(w), None);
      assert ResourceTouches(e, a)[1] == OnEdge(a, q, u);
    } else {
      e := Event(0, "", "", None, None, Some(w));
      assert HostTouches(e, a)[1] == OnEdge(a, q, u);
    }
  }

  /** Events can record every edge of an entity whose target has the shape that its relation asks for. */
  lemma Probe(a: string, q: Relation, u: string) returns (e: Event)
    requires CanRecord(a, q, u) && q !in {Exposes, Exercises}
    ensures Records(e, a, q, u)
  {
    var w := u[|TargetPrefix(q)|..];
    assert u == TargetPrefix(q) + w;
    hide Touches;
    match q
    case Calls => e := EndpointProbe(a, q, w);
    case Probed => e := EndpointProbe(a, q, w);
    case Accesses => e := AppProbe(a, q, w);
    case AuthenticatesOn => e := AppProbe(a, q, w);
    case _ => e := SimpleProbe(a, q, u);
  }

  ghost predicate SomeEventRecords(s: string, r: Relation, t: string) {
    exists e, entity, capabilities :: OnEdge(s, r, t) in Touches(e, entity, capabilities)
  }

  lemma CapabilityProbe(s: string, c: Capability)
    ensures SomeEventRecords(s, Exercises, "capability:" + CapabilityName(c))
  {
    var e, cs := Event(0, "", "", None, None, None), [c];
    assert cs[..0] == [];
    var touches := CapabilityTouches(cs, s);
    hide CapabilityName;
    assert CapabilityTouches(cs[..0], s) == [];
    assert touches[1] == OnEdge(s, Exercises, "capability:" + CapabilityName(c));
    hide AppTouches, CapabilityTouches;
    assert touches[1] in Touches(e, s, cs);
  }

  /** The shapes of edges are exactly those of the edges that some event records. */
  lemma CanRecordIff(s: string, r: Relation, t: string)
    ensures CanRecord(s, r, t) <==> SomeEventRecords(s, r, t)
  {
    if SomeEventRecords(s, r, t) {
      hide CanRecord, Touches;
      var e, entity, capabilities :| OnEdge(s, r, t) in Touches(e, entity, capabilities);
      EventIsRecordable(e, entity, capabilities);
    }
    if CanRecord(s, r, t) {
      hide Touches, Name;
      if r == Exercises {
        var c :| t == "capability:" + CapabilityName(c);
        CapabilityProbe(s, c);
      } else if r == Exposes {
        var y := s[4..];
        var path := t[|"endpoint:" + y + ":"|..];
        assert s == "app:" + y && t == "endpoint:" + y + ":" + path;
        TouchesOfFinding(0, y, path, "");
        assert Touches(Finding(0, y, path), "", [])[5] == OnEdge(s, r, t);
      } else {
        var e := Probe(s, r, t);
      }
    }
  }
}
