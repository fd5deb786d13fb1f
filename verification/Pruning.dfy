/** For which names of entities and applications is pruning by age exact? */
module Pruning {
  import opened Basics
  import opened Collisions
  import opened EdgeIds
  import opened Graph
  import opened GraphTheorems
  import opened Lookalikes

  // ---------- Odd names ----------

  /** An entity that is not plain shares the id of a visit with an edge of a plain one. */
  lemma OddVisit(s: string) returns (a: string, q: Relation, u: string)
    requires !PlainEntity(s) && !("app:" <= s)
    ensures PlainName(a) && a != s && a != "app:q"
    ensures q !in {Exposes, Exercises} && CanRecord(a, q, u) && EdgeId(s, Accesses, "app:q") == EdgeId(a, q, u)
  {
    var i: nat;
    i, q := FirstMark(s);
    a := s[..i];
    MarkIsNoExposure(s, i, q);
    assert "app:q"[3] == ':' && "app:" <= "app:q";
    MarkShares(s, i, q, Accesses, "app:q");
    u := s[i + |Marker(q)|..] + Marker(Accesses) + "app:q";
    hide PlainEntity, CanRecord, EdgeId, Name, TargetPrefix;
  }

  /** Whenever an entity is not plain, an event of a plain one and a visit collide. */
  lemma OddEntityCollides(s: string) returns (a: string, e: Event, m: Touch, n: Touch)
    requires !PlainEntity(s) && !("app:" <= s)
    ensures PlainName(a) && (HasEndpoint(e) ==> PlainApp(e.appId))
    ensures Collide(e, a, m, Visit("q"), s, n)
  {
    hide PlainEntity, PlainApp, CanRecord, EdgeId, Touches;
    var q, u;
    a, q, u := OddVisit(s);
    e := Probe(a, q, u);
    PlainEventIsApart(e, a);
    m, n := OnEdge(a, q, u), OnEdge(s, Accesses, "app:" + "q");
    assert "app:" + "q" == "app:q";
    hide Apart, EdgesOf;
    TouchesOfVisit("q", s);
    assert Touches(Visit("q"), s, [])[2] == n;
  }

  /** Whenever an application is not plain, it collides with the plain one whose edges it continues. */
  lemma OddAppCollides(y: string) returns (x: Event, m: Touch, n: Touch)
    requires !PlainApp(y)
    ensures HasEndpoint(x) ==> PlainApp(x.appId)
    ensures Collide(x, "e", m, Finding(100, y, ""), "e", n)
  {
    var i := FirstExposure(y);
    hide PlainEntity, PlainApp, Exposure, CanRecord, EdgeId, Touches, Apart, EdgesOf;
    var z, path := y[..i], Exposure(y)[|Exposure(y[..i])|..];
    ExposureIsId(y, "");
    ExposureIsId(z, path);
    assert Exposure(y) + "" == Exposure(z) + path;
    x, m, n := FindingPair(y, z, path);
  }

  lemma FindingPair(y: string, z: string, path: string) returns (x: Event, m: Touch, n: Touch)
    requires |z| < |y| && PlainApp(z)
    requires EdgeId("app:" + y, Exposes, "endpoint:" + y + ":" + "")
          == EdgeId("app:" + z, Exposes, "endpoint:" + z + ":" + path)
    ensures x.appId == z && Collide(x, "e", m, Finding(100, y, ""), "e", n)
  {
    hide PlainEntity, PlainApp, EdgeId, Touches, Apart, EdgesOf;
    x := Finding(0, z, path);
    m, n := OnEdge("app:" + z, Exposes, "endpoint:" + z + ":" + path),
            OnEdge("app:" + y, Exposes, "endpoint:" + y + ":" + "");
    TouchesOfFinding(0, z, path, "e");
    TouchesOfFinding(100, y, "", "e");
    EasyEntity();
    PlainEventIsApart(x, "e");
    assert Touches(x, "e", [])[5] == m && Touches(Finding(100, y, ""), "e", [])[5] == n;
    assert |m.source| > 1 && m.source[0] == 'a';
    assert |m.source| < |"app:" + y|;
  }

  // ---------- The exact condition ----------

  /** All names but these are plain. */
  ghost predicate NamesAmong(ops: seq<Op>, entities: set<string>, apps: set<string>) {
    forall i :: 0 <= i < |ops| && ops[i].Record? ==>
      && (ops[i].entity in entities || PlainName(ops[i].entity))
      && (HasEndpoint(ops[i].event) ==> ops[i].event.appId in apps || PlainApp(ops[i].event.appId))
  }

  /** Pruning is exact in every run in which these entities and applications and others with plain names occur. */
  ghost predicate PrunesExactly(entities: set<string>, apps: set<string>) {
    forall ops, cutoff, k :: NamesAmong(ops, entities, apps) ==> Exact(ops, cutoff, k)
  }

  ghost predicate AllPlain(entities: set<string>, apps: set<string>) {
    (forall s :: s in entities ==> PlainName(s)) && (forall y :: y in apps ==> PlainApp(y))
  }

  /** Pruning is exact exactly when the names of all entities and applications are plain. */
  lemma PruningIsExactIff(entities: set<string>, apps: set<string>)
    ensures AllPlain(entities, apps) <==> PrunesExactly(entities, apps)
  {
    hide Exact, PlainName, PlainApp;
    if AllPlain(entities, apps) {
      forall ops, cutoff, k | NamesAmong(ops, entities, apps) ensures Exact(ops, cutoff, k) {
        PlainNamesKeepApart(ops);
        PruneIsExact(ops, cutoff, k);
      }
    } else if s :| s in entities && !PlainName(s) {
      OddEntityBreaks(s, entities, apps);
    } else {
      var y :| y in apps && !PlainApp(y);
      OddAppBreaks(y, entities, apps);
    }
  }

  /** Two colliding events make a run in which pruning drops a recent edge. */
  lemma CollisionBreaks(x: Event, a: string, k: Touch, y: Event, b: string, n: Touch, entities: set<string>,
                        apps: set<string>)
    requires Collide(x, a, k, y, b, n) && NamesAmong([Record(x, a, []), Record(y, b, [])], entities, apps)
    ensures !PrunesExactly(entities, apps)
  {
    hide Exact, NamesAmong, Touches;
    CollisionIsInexact(x, a, k, y, b, n);
  }

  /** One odd entity is enough. */
  lemma OddEntityBreaks(s: string, entities: set<string>, apps: set<string>)
    requires s in entities && !PlainName(s)
    ensures !PrunesExactly(entities, apps)
  {
    if "app:" <= s {
      hide Collide, PlainEntity, PlainApp, PrunesExactly;
      var x, a, k, y, b, n := LookalikeCollides(s);
      CollisionBreaks(x, a, k, y, b, n, entities, apps);
    } else {
      OddMarkBreaks(s, entities, apps);
    }
  }

  lemma OddMarkBreaks(s: string, entities: set<string>, apps: set<string>)
    requires s in entities && !PlainEntity(s) && !("app:" <= s)
    ensures !PrunesExactly(entities, apps)
  {
    hide Collide, PlainEntity, PlainApp, PrunesExactly;
    var a, e, k, n := OddEntityCollides(s);
    CollisionBreaks(e, a, k, Visit("q"), s, n, entities, apps);
  }

  /** One odd application is enough. */
  lemma OddAppBreaks(y: string, entities: set<string>, apps: set<string>)
    requires y in apps && !PlainApp(y)
    ensures !PrunesExactly(entities, apps)
  {
    EasyEntity();
    var x, k, n := OddAppCollides(y);
    hide Collide, PlainEntity, PlainApp, PrunesExactly;
    CollisionBreaks(x, "e", k, Finding(100, y, ""), "e", n, entities, apps);
  }

  /** For example a canonical id that continues like a call of another one. */
  lemma OddCanonicalId(x: string, z: string, p: string)
    ensures !PrunesExactly({"canonical:" + x + "-CALLS-endpoint:" + z + ":" + p}, {})
  {
    var a := "canonical:" + x;
    var s := a + "-CALLS-endpoint:" + z + ":" + p;
    assert s[0] == 'c' && "app:"[0] == 'a';
    assert Marker(Calls) + TargetPrefix(Calls) == "-CALLS-endpoint:";
    assert s[|a|..][..16] == "-CALLS-endpoint:";
    assert MarkAt(s, |a|, Calls);
    hide MarkAt, PrunesExactly;
    OddEntityBreaks(s, {s}, {});
  }

  /** Or the name of an application that continues like what another one exposes. */
  lemma OddAppName(z: string, p: string)
    ensures !PrunesExactly({}, {z + "-EXPOSES-endpoint:" + z + ":" + p})
  {
    var y := z + "-EXPOSES-endpoint:" + z + ":" + p;
    assert y[..|z|] == z;
    assert "app:" + y == Exposure(z) + p;
    assert Exposure(y) == Exposure(z) + (p + "-EXPOSES-endpoint:" + y + ":");
    hide Exposure, PrunesExactly;
    OddAppBreaks(y, {}, {y});
  }
}
