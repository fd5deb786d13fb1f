/** An attack of one entity that goes unnoticed, because the entity was known under two ids. */
module SplitAlert {
  import opened Basics
  import opened Capabilities
  import opened Correlation
  import Events
  import I = Identity
  import IT = IdentityTheorems
  import Lineage
  import S = Sequence
  import Stages

  /** A failed action of a user in one application. */
  const FIRST := Event(1, 0, "a", "", Some(I.Actor(Some("u"), None)), None, None, None, None, Events.Agent,
                       Some(Action(None, None, false, None)), None)

  /** A failed action from an address in another one. */
  const SECOND := Event(2, 1, "b", "", None, None, Some("1"), None, None, Events.Agent,
                        Some(Action(None, None, false, None)), None)

  /** A process of that user at that address. */
  const THIRD := Event(3, 2, "a", "", Some(I.Actor(Some("u"), None)), None, Some("1"), None, Some("sh"), Events.Agent,
                       None, None)

  const BY_USER := "canonical:user:u"
  const BY_ADDRESS := "canonical:ip:1"

  lemma Aliases()
    ensures I.ExtractAliases(FIRST.ForIdentity()) == [I.Alias("user:u", I.User, "u")]
    ensures I.ExtractAliases(SECOND.ForIdentity()) == [I.Alias("ip:1", I.Host, "1")]
    ensures I.ExtractAliases(THIRD.ForIdentity()) == [I.Alias("user:u", I.User, "u"), I.Alias("ip:1", I.Host, "1")]
  {
    assert "user:" + "u" == "user:u" && "ip:" + "1" == "ip:1";
    assert !IsBlank("u") by { assert !IsWhitespace("u"[0]); }
    assert !IsBlank("1") by { assert !IsWhitespace("1"[0]); }
  }

  lemma Inferences()
    ensures Inferred(FIRST) == [] && Inferred(SECOND) == [] && Inferred(THIRD) == [ProcessExecute]
  {
    NothingInEmpty();
    assert !("auth." <= "") && !("admin." <= "") && !("/admin" <= "");
  }

  lemma NothingInEmpty()
    ensures forall part :: part != "" ==> !Contains("", part)
  {
  }

  // ---------- The resolver ----------

  /** An event of a user, one of an address, and one of both. */
  predicate Trio(h: seq<I.Sighting>, a: I.Alias, b: I.Alias) {
    && |h| == 3 && a.kind == I.User && b.kind == I.Host && a.key != b.key
    && I.ExtractAliases(h[0].event) == [a] && h[0].event.UserId().Some?
    && I.ExtractAliases(h[1].event) == [b] && h[1].event.UserId().None?
    && I.ExtractAliases(h[2].event) == [a, b]
  }

  lemma Founded(d: I.Directory, s: I.Sighting, a: I.Alias)
    requires I.ExtractAliases(s.event) == [a] && a.key !in d.aliases && (a.kind == I.User <==> s.event.UserId().Some?)
    ensures var id, d' := I.CanonicalId(a.key), I.Step(d, s);
            && I.Resolved(d, s.event) == id
            && d'.aliases == d.aliases[a.key := id]
            && d'.entities.Keys == d.entities.Keys + {id}
            && d'.entities[id].entityType == a.kind
            && (forall x :: x in d.entities && x != id ==> d'.entities[x] == d.entities[x])
  {
    IT.MatchedFacts(d, s.event);
    hide I.MatchedIds, I.Step, I.Resolved;
    IT.FoundingEquation(d, s);
    assert I.Strongest([a]) == a;
    assert [a][..0] == [];
    assert I.LinkAliases(d.aliases, [a], I.CanonicalId(a.key)) == d.aliases[a.key := I.CanonicalId(a.key)];
  }

  predicate TwoEntities(d: I.Directory, a: I.Alias, b: I.Alias) {
    var x, y := I.CanonicalId(a.key), I.CanonicalId(b.key);
    && x != y && d.aliases == map[a.key := x, b.key := y] && d.entities.Keys == {x, y}
    && d.entities[x].entityType == a.kind && d.entities[y].entityType == b.kind
  }

  lemma Prefix(h: seq<I.Sighting>, n: nat)
    requires n < |h|
    ensures I.Run(h[..n + 1]) == I.Step(I.Run(h[..n]), h[n])
  {
    assert h[..n + 1][..n] == h[..n];
  }

  /** The first two events found an entity each. */
  lemma FirstTwo(h: seq<I.Sighting>, a: I.Alias, b: I.Alias)
    requires Trio(h, a, b)
    ensures Lineage.IdAt(h, 0) == I.CanonicalId(a.key) && Lineage.IdAt(h, 1) == I.CanonicalId(b.key)
    ensures TwoEntities(I.Run(h[..2]), a, b)
  {
    hide I.Step, I.Resolved, I.ExtractAliases;
    Prefix(h, 0);
    Prefix(h, 1);
    assert I.Run(h[..0]) == I.EMPTY;
    Founded(I.Run(h[..0]), h[0], a);
    Founded(I.Run(h[..1]), h[1], b);
    assert I.CanonicalId(a.key)[10..] == a.key && I.CanonicalId(b.key)[10..] == b.key;
  }

  lemma BothMatch(d: I.Directory, e: I.Event, a: I.Alias, b: I.Alias)
    requires TwoEntities(d, a, b) && a.kind == I.User && b.kind == I.Host && I.ExtractAliases(e) == [a, b]
    ensures Elements(I.MatchedIds(d, e)) == {I.CanonicalId(a.key), I.CanonicalId(b.key)}
    ensures I.Resolved(d, e) == I.CanonicalId(a.key)
  {
    IT.MatchedFacts(d, e);
    hide I.MatchedIds, I.Highest;
    assert I.Keys(e) == {a.key, b.key};
    assert I.CanonicalId(a.key) in I.MatchedIds(d, e);
    assert I.CanonicalId(b.key) in I.MatchedIds(d, e);
    IT.HighestFacts(d.entities, I.MatchedIds(d, e));
  }

  lemma FollowsThird(h: seq<I.Sighting>, a: I.Alias, b: I.Alias, j: nat)
    requires Trio(h, a, b) && j < 2
    ensures Lineage.OwnerOf(h, j) == I.CanonicalId(a.key)
  {
    var g := h[..2];
    assert g + [h[2]] == h && g[j] == h[j];
    FirstTwo(h, a, b);
    BothMatch(I.Run(g), h[2].event, a, b);
    Lineage.PrefixIds(h, 2, j);
    hide I.Run, I.Step, I.Resolved, I.MatchedIds, I.ExtractAliases, IT.Sound, IT.KnowsSeen, IT.Owner, IT.Placed,
      Lineage.IdAt;
    Lineage.LivingIdOwns(g, j);
    Lineage.PlacedBefore(g, j);
    Lineage.RunStep(g, h[2]);
    assert Lineage.IdAt(h, j) in Elements(I.MatchedIds(I.Run(g), h[2].event));
    Lineage.OwnerStep(I.Run(g), g, h[2], h[j].event);
  }

  lemma ThirdIsBoth(h: seq<I.Sighting>, a: I.Alias, b: I.Alias)
    requires Trio(h, a, b)
    ensures var d, x, y := I.Run(h[..2]), I.CanonicalId(a.key), I.CanonicalId(b.key);
            && I.Resolved(d, h[2].event) == x && x != y && Elements(I.MatchedIds(d, h[2].event)) == {x, y}
  {
    FirstTwo(h, a, b);
    hide I.Run, I.Resolved, I.MatchedIds;
    BothMatch(I.Run(h[..2]), h[2].event, a, b);
  }

  lemma AddressIsGone(h: seq<I.Sighting>, a: I.Alias, b: I.Alias)
    requires Trio(h, a, b)
    ensures !Lineage.Alive(h, I.CanonicalId(b.key))
  {
    var g, s := h[..2], h[2];
    assert g + [s] == h;
    hide *;
    ThirdIsBoth(h, a, b);
    Lineage.MatchedIsAbsorbed(g, s, I.CanonicalId(b.key));
  }

  /** The third event belongs to both, and the user absorbs the address. */
  lemma ThirdMerges(h: seq<I.Sighting>, a: I.Alias, b: I.Alias)
    requires Trio(h, a, b)
    ensures var x := I.CanonicalId(a.key);
            && Lineage.IdAt(h, 2) == x && Lineage.OwnerOf(h, 0) == Lineage.OwnerOf(h, 1) == Lineage.OwnerOf(h, 2) == x
            && Lineage.Alive(h, x) && !Lineage.Alive(h, I.CanonicalId(b.key))
  {
    assert |h| == 3 && h[..|h| - 1] == h[..2];
    hide *;
    ThirdIsBoth(h, a, b);
    Lineage.LastResolves(h);
    FollowsThird(h, a, b, 0);
    FollowsThird(h, a, b, 1);
    AddressIsGone(h, a, b);
  }

  // ---------- The detector ----------

  const OPS: seq<Op> := [Process(FIRST, 0), Process(SECOND, 0)]
  const USER := I.Alias("user:u", I.User, "u")
  const ADDRESS := I.Alias("ip:1", I.Host, "1")

  function All(now: Time): seq<I.Sighting> {
    [SightingOf(FIRST, 0), SightingOf(SECOND, 0), SightingOf(THIRD, now)]
  }

  lemma AllIsTrio(now: Time)
    ensures var h := All(now);
            && h == Sightings(OPS) + [SightingOf(THIRD, now)] && Trio(h, USER, ADDRESS)
            && h[..0] == Sightings([]) && h[..1] == Sightings(OPS[..1]) && h[..2] == Sightings(OPS)
  {
    Aliases();
    hide Inferred, I.ExtractAliases;
    assert OPS[..1][..0] == [] && OPS[..1] == [Process(FIRST, 0)];
    assert Sightings(OPS[..1]) == [SightingOf(FIRST, 0)];
    assert "user:u"[0] != "ip:1"[0];
  }

  const I0 := S.Input(FIRST.ForDetector(), [])
  const I1 := S.Input(SECOND.ForDetector(), [])
  const I2 := S.Input(THIRD.ForDetector(), [ProcessExecute])

  lemma Ids(now: Time)
    ensures var x, y := I.CanonicalId(USER.key), I.CanonicalId(ADDRESS.key);
            && x != y && IdAfter([], FIRST) == x && IdAfter(OPS[..1], SECOND) == y && IdAfter(OPS, THIRD) == x
            && InputOf(FIRST) == I0 && InputOf(SECOND) == I1 && InputOf(THIRD) == I2
  {
    AllIsTrio(now);
    Inferences();
    var h := All(now);
    FirstTwo(h, USER, ADDRESS);
    hide I.Run, I.Resolved, Sightings, Inferred, Trio;
    ThirdIsBoth(h, USER, ADDRESS);
  }

  lemma TwoOps(p: Op, q: Op, m: map<string, string>)
    ensures DetectorOps([]) == [] && DetectorOps([p]) == DetectorOp([], p)
    ensures DetectorOps([p, q]) == DetectorOp([], p) + DetectorOp([p], q)
    ensures EntityOps([p, q], m) == EntityOp(p, m) + EntityOp(q, m)
  {
    hide DetectorOp, EntityOp;
    assert [p][..0] == [] && [p, q][..1] == [p];
    assert EntityOps([p], m) == EntityOp(p, m);
  }

  lemma DetectorOpIs(before: seq<Op>, e: Event, x: string, i: S.Input)
    requires IdAfter(before, e) == x && InputOf(e) == i
    ensures DetectorOp(before, Process(e, 0)) == [S.Evaluate(x, i)]
  {
    hide IdAfter, InputOf;
  }

  lemma EntityOpIs(h: seq<I.Sighting>, j: nat, e: Event, x: string, i: S.Input)
    requires j < |h| && h[j].event == e.ForIdentity() && Lineage.OwnerOf(h, j) == x && InputOf(e) == i
    ensures EntityOp(Process(e, 0), I.Run(h).aliases) == [S.Evaluate(x, i)]
  {
    hide I.Run, IT.Owner, InputOf;
  }

  lemma AllEvents(now: Time)
    ensures var h := All(now);
            |h| == 3 && h[0].event == FIRST.ForIdentity() && h[1].event == SECOND.ForIdentity()
    ensures OPS[..1] == [Process(FIRST, 0)] && OPS == [Process(FIRST, 0), Process(SECOND, 0)]
  {
    hide Inferred;
  }

  /** How the events were booked. */
  lemma DetectorBooked(now: Time)
    ensures var x, y := I.CanonicalId(USER.key), I.CanonicalId(ADDRESS.key);
            && DetectorOps([]) == [] && DetectorOps(OPS[..1]) == [S.Evaluate(x, I0)]
            && DetectorOps(OPS) == [S.Evaluate(x, I0), S.Evaluate(y, I1)]
  {
    hide *;
    AllEvents(now);
    Ids(now);
    TwoOps(Process(FIRST, 0), Process(SECOND, 0), map[]);
    DetectorOpIs([], FIRST, I.CanonicalId(USER.key), I0);
    DetectorOpIs(OPS[..1], SECOND, I.CanonicalId(ADDRESS.key), I1);
  }

  /** How they would have been on the entity they belong to in the end. */
  lemma EntityBooked(now: Time)
    ensures var x := I.CanonicalId(USER.key);
            EntityOps(OPS, I.Run(All(now)).aliases) == [S.Evaluate(x, I0), S.Evaluate(x, I1)]
  {
    hide *;
    var x, h := I.CanonicalId(USER.key), All(now);
    AllEvents(now);
    AllIsTrio(now);
    Ids(now);
    ThirdMerges(h, USER, ADDRESS);
    TwoOps(Process(FIRST, 0), Process(SECOND, 0), I.Run(h).aliases);
    EntityOpIs(h, 0, FIRST, x, I0);
    EntityOpIs(h, 1, SECOND, x, I1);
  }

  lemma Lifetimes(x: string, y: string)
    requires x != y
    ensures S.Since([], x, 600) == [] && S.Since([S.Evaluate(x, I0)], y, 600) == []
    ensures S.Since([S.Evaluate(x, I0), S.Evaluate(y, I1)], x, 600) == [I0]
    ensures S.Since([S.Evaluate(x, I0), S.Evaluate(x, I1)], x, 600) == [I0, I1]
  {
    var a, b, c := S.Evaluate(x, I0), S.Evaluate(y, I1), S.Evaluate(x, I1);
    assert [a][..0] == [] && [a, b][..1] == [a] && [a, c][..1] == [a];
  }

  /** The log of the user's own events, and that of all three. */
  lemma Logs()
    ensures |S.Log([I0], 600)| == 1 && |S.Log([I1], 600)| == 1 && |S.Log([I0, I2], 600)| == 2
    ensures S.Log([I0, I1, I2], 600) == [S.Observe(I0.event, [], S.Reconnaissance),
                                         S.Observe(I1.event, [], S.Reconnaissance),
                                         S.Observe(I2.event, [ProcessExecute], S.HighImpactAction)]
  {
    assert [I0][..0] == [] && [I1][..0] == [] && [I0, I2][..1] == [I0] && [I0, I1, I2][..2] == [I0, I1];
    assert [I0, I1][..1] == [I0] && S.Log([], 600) == [];
    hide S.InWindow, S.Apps;
    assert S.Log([I0], 600) == [S.Observe(I0.event, [], S.Reconnaissance)];
    assert S.Log([I0, I1], 600) == S.Log([I0], 600) + [S.Observe(I1.event, [], S.Reconnaissance)];
  }

  lemma ShortIsQuiet(h: seq<S.Input>)
    requires h != [] && |S.Log(h, 600)| <= 2
    ensures !S.Alarm(h, 600)
  {
    hide S.Log;
    S.InWindowPart(S.Log(h, 600), S.Cutoff(h[|h| - 1].event.timestamp, 600));
  }

  lemma AllAlarm()
    ensures S.Alarm([I0, I1, I2], 600)
  {
    Logs();
    hide S.Log;
    var log := S.Log([I0, I1, I2], 600);
    var cutoff := S.Cutoff(2, 600);
    assert cutoff < 0;
    WholeWindow(log, cutoff);
    assert log[2] in log && log[0] in log && log[1] in log;
    assert "a" != "b" && {"a", "b"} <= S.Apps(log);
    S.SubsetSize({"a", "b"}, S.Apps(log));
  }

  lemma {:induction false} WholeWindow(log: seq<S.Observation>, cutoff: Time)
    requires forall o :: o in log ==> o.timestamp >= cutoff
    ensures S.InWindow(log, cutoff) == log
  {
    if log != [] {
      WholeWindow(log[..|log| - 1], cutoff);
      assert log == log[..|log| - 1] + [log[|log| - 1]];
    }
  }

  lemma NoAlerts(now: Time)
    ensures AlertOn(Run([], 600), FIRST, 600).None? && AlertOn(Run(OPS[..1], 600), SECOND, 600).None?
    ensures AlertOn(Run(OPS, 600), THIRD, 600).None?
  {
    hide *;
    Ids(now);
    DetectorBooked(now);
    Lifetimes(I.CanonicalId(USER.key), I.CanonicalId(ADDRESS.key));
    Logs();
    assert [I0] + [I2] == [I0, I2] && [] + [I0] == [I0] && [] + [I1] == [I1];
    ShortIsQuiet([I0]);
    ShortIsQuiet([I1]);
    ShortIsQuiet([I0, I2]);
    ShortsAreTimely();
    BookedAlertIff([], FIRST, 600);
    BookedAlertIff(OPS[..1], SECOND, 600);
    BookedAlertIff(OPS, THIRD, 600);
  }

  lemma ShortsAreTimely()
    ensures S.Timely([I0]) && S.Timely([I1]) && S.Timely([I0, I2])
  {
  }

  /** All three events belong to one entity in the end and together are an attack, yet none raises the alert:
      the second was booked on an id that the third makes disappear, along with what the detector knew under it. */
  lemma AttackGoesUnnoticed(now: Time)
    ensures var h, x := All(now), I.CanonicalId(USER.key);
            && Lineage.OwnerOf(h, 0) == Lineage.OwnerOf(h, 1) == Lineage.OwnerOf(h, 2) == IdAfter(OPS, THIRD) == x
            && Stages.IsAttack(S.Since(EntityOps(OPS, I.Run(h).aliases), x, 600) + [InputOf(THIRD)], 600)
    ensures AlertOn(Run([], 600), FIRST, 600).None? && AlertOn(Run(OPS[..1], 600), SECOND, 600).None?
    ensures AlertOn(Run(OPS, 600), THIRD, 600).None?
  {
    hide *;
    NoAlerts(now);
    AllIsTrio(now);
    ThirdMerges(All(now), USER, ADDRESS);
    Ids(now);
    EntityBooked(now);
    Lifetimes(I.CanonicalId(USER.key), I.CanonicalId(ADDRESS.key));
    AllAlarm();
    Stages.AlarmIsAttack([I0, I1, I2], 600);
    assert [I0, I1] + [I2] == [I0, I1, I2];
  }
}
