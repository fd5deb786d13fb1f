/** Which id an event gets, by the kinds of its identifiers: a user before a container, a container before a session, a
    session before an address; and the same order decides which entity survives a merge. */
module Survivors {
  import opened Basics
  import opened StringOrder
  import opened Identity
  import opened IdentityTheorems
  import opened Lineage

  /** An identifier that is given and not blank. */
  predicate Given(x: Option<string>) {
    x.Some? && !forall c :: c in x.value ==> IsWhitespace(c)
  }

  function UserOf(e: Event): Option<string> {
    match e.actor
    case Some(actor) => actor.userId
    case None => None
  }

  function SessionOf(e: Event): Option<string> {
    match e.actor
    case Some(actor) => actor.sessionId
    case None => None
  }

  lemma GivenIsAlias(prefix: string, kind: EntityType, x: Option<string>)
    ensures AliasFor(prefix, kind, x) == if Given(x) then [Alias(prefix + x.value, kind, x.value)] else []
  {
    if x.Some? {
      assert IsBlank(x.value) <==> forall c :: c in x.value ==> IsWhitespace(c);
    }
  }

  /** The aliases of an event are its user, session, container and address, as far as they are given. */
  lemma AliasIff(e: Event, a: Alias)
    ensures a in ExtractAliases(e) <==>
            || (Given(UserOf(e)) && a == Alias("user:" + UserOf(e).value, EntityType.User, UserOf(e).value))
            || (Given(SessionOf(e))
                && a == Alias("session:" + SessionOf(e).value, EntityType.Session, SessionOf(e).value))
            || (Given(e.containerId) && a == Alias("container:" + e.containerId.value, Workload, e.containerId.value))
            || (Given(e.ip) && a == Alias("ip:" + e.ip.value, Host, e.ip.value))
  {
    GivenIsAlias("user:", EntityType.User, UserOf(e));
    GivenIsAlias("session:", EntityType.Session, SessionOf(e));
    GivenIsAlias("container:", Workload, e.containerId);
    GivenIsAlias("ip:", Host, e.ip);
    hide Given, AliasFor;
  }

  /** The history has not mentioned this identifier. */
  ghost predicate New(h: seq<Sighting>, prefix: string, x: Option<string>) {
    Given(x) ==> !Seen(h, prefix + x.value)
  }

  /** The best identifier of an event: its id, its kind and its name; without any it is the application. */
  function Best(e: Event): (string, EntityType, string) {
    if Given(UserOf(e)) then ("canonical:user:" + UserOf(e).value, EntityType.User, UserOf(e).value)
    else if Given(e.containerId) then ("canonical:container:" + e.containerId.value, Workload, e.containerId.value)
    else if Given(SessionOf(e)) then ("canonical:session:" + SessionOf(e).value, EntityType.Session, SessionOf(e).value)
    else if Given(e.ip) then ("canonical:ip:" + e.ip.value, Host, e.ip.value)
    else ("canonical:app:" + e.appId, Host, e.appId)
  }

  /** The strongest alias is the best identifier. */
  lemma StrongestIsBest(e: Event)
    requires ExtractAliases(e) != []
    ensures var a := Strongest(ExtractAliases(e)); Best(e) == (CanonicalId(a.key), a.kind, a.name)
  {
    var a := Strongest(ExtractAliases(e));
    StrongestFacts(ExtractAliases(e));
    AliasIff(e, a);
    if Given(UserOf(e)) {
      AliasIff(e, Alias("user:" + UserOf(e).value, EntityType.User, UserOf(e).value));
    }
    if Given(e.containerId) {
      AliasIff(e, Alias("container:" + e.containerId.value, Workload, e.containerId.value));
    }
    if Given(SessionOf(e)) {
      AliasIff(e, Alias("session:" + SessionOf(e).value, EntityType.Session, SessionOf(e).value));
    }
    hide Given, ExtractAliases, Strongest;
    assert "canonical:" + ("user:" + a.name) == "canonical:user:" + a.name;
    assert "canonical:" + ("container:" + a.name) == "canonical:container:" + a.name;
    assert "canonical:" + ("session:" + a.name) == "canonical:session:" + a.name;
    assert "canonical:" + ("ip:" + a.name) == "canonical:ip:" + a.name;
  }

  /** None of the identifiers that the event gives is known. */
  ghost predicate AllNew(h: seq<Sighting>, e: Event) {
    && New(h, "user:", UserOf(e)) && New(h, "session:", SessionOf(e))
    && New(h, "container:", e.containerId) && New(h, "ip:", e.ip)
  }

  lemma AllNewMatchNothing(h: seq<Sighting>, e: Event)
    requires AllNew(h, e)
    ensures MatchedIds(Run(h), e) == []
  {
    hide Run, Given, ExtractAliases, MatchedIds;
    RunIsSound(h);
    MatchedFacts(Run(h), e);
    forall k | k in Keys(e) ensures k !in Run(h).aliases {
      var a :| a in ExtractAliases(e) && a.key == k;
      AliasIff(e, a);
      hide Seen;
    }
  }

  lemma AppFounds(h: seq<Sighting>, s: Sighting)
    requires ExtractAliases(s.event) == []
    ensures var e, id, d := s.event, Resolved(Run(h), s.event), Run(h + [s]);
            && Best(e) == (id, Host, e.appId) && id == "canonical:app:" + e.appId && id in d.entities
            && d.entities[id].entityType == Host && d.entities[id].displayName == e.appId
  {
    var e := s.event;
    hide Run, Step, Best, ExtractAliases, Sound, KnowsSeen;
    RunStep(h, s);
    NoAliases(e);
    FallbackResolves(Run(h), e);
    FallbackEquation(Run(h), s);
    AppEntity(h, FallbackId(e.appId), e.appId);
  }

  lemma AliasFounds(h: seq<Sighting>, s: Sighting)
    requires ExtractAliases(s.event) != [] && MatchedIds(Run(h), s.event) == []
    ensures var e, id, d := s.event, Resolved(Run(h), s.event), Run(h + [s]);
            && id == Best(e).0 && id in d.entities
            && d.entities[id].entityType == (if UserOf(e).Some? then EntityType.User else Best(e).1)
            && (UserOf(e).Some? ==>
                  d.entities[id].displayName == UserOf(e).value || d.entities[id].displayName == Best(e).2)
            && (UserOf(e).None? ==> d.entities[id].displayName == Best(e).2)
  {
    var e := s.event;
    hide Run, Step, Strongest, Best, ExtractAliases, MatchedIds, Sound, KnowsSeen;
    RunStep(h, s);
    StrongestIsBest(e);
    FoundingEquation(Run(h), s);
    StrongestFacts(ExtractAliases(e));
    AliasShape(e, Strongest(ExtractAliases(e)));
  }

  /** In every history an event of new identifiers founds an entity under its best one. Its type is that identifier's
      kind; or User, if the event names a user, be it a blank one, besides an identifier that is not blank. */
  lemma NewEventFounds(h: seq<Sighting>, s: Sighting)
    requires AllNew(h, s.event)
    ensures var e, id, d := s.event, Resolved(Run(h), s.event), Run(h + [s]);
            && id == Best(e).0 && id in d.entities
            && d.entities[id].entityType
               == (if UserOf(e).Some? && id != "canonical:app:" + e.appId then EntityType.User else Best(e).1)
            && (Given(UserOf(e)) || UserOf(e).None? ==> d.entities[id].displayName == Best(e).2)
  {
    AllNewMatchNothing(h, s.event);
    if ExtractAliases(s.event) == [] {
      hide *;
      AppFounds(h, s);
      BlankUser(s.event);
    } else {
      hide Run, AllNew, ExtractAliases;
      AliasFounds(h, s);
      BestIsAlias(s.event);
    }
  }

  lemma BlankUser(e: Event)
    requires ExtractAliases(e) == []
    ensures !Given(UserOf(e))
  {
    hide Given;
    GivenIsAlias("user:", EntityType.User, UserOf(e));
  }

  lemma NoAliases(e: Event)
    requires ExtractAliases(e) == []
    ensures Best(e) == ("canonical:app:" + e.appId, Host, e.appId)
  {
    hide Given;
    GivenIsAlias("user:", EntityType.User, UserOf(e));
    GivenIsAlias("session:", EntityType.Session, SessionOf(e));
    GivenIsAlias("container:", Workload, e.containerId);
    GivenIsAlias("ip:", Host, e.ip);
  }

  lemma BestIsAlias(e: Event)
    requires ExtractAliases(e) != []
    ensures Best(e).0 != "canonical:app:" + e.appId
  {
    StrongestIsBest(e);
    StrongestFacts(ExtractAliases(e));
    AliasShape(e, Strongest(ExtractAliases(e)));
    hide ExtractAliases, Strongest, Best;
    assert ("canonical:app:" + e.appId)[10] == 'a';
  }

  lemma {:induction false} AbsorbAllFrame(d: Directory, ids: seq<string>, t: string, x: string)
    requires x !in ids && x != t
    ensures var d' := AbsorbAll(d, ids, t);
            (x in d'.entities <==> x in d.entities) && (x in d.entities ==> d'.entities[x] == d.entities[x])
  {
    if ids != [] {
      AbsorbAllFrame(d, ids[..|ids| - 1], t, x);
    }
  }

  /** An event that mentions aliases leaves the entities of applications alone. */
  lemma AppStays(h: seq<Sighting>, s: Sighting, id: string)
    requires IsFallback(id) && ExtractAliases(s.event) != []
    ensures id in Run(h + [s]).entities <==> id in Run(h).entities
    ensures id in Run(h).entities ==> Run(h + [s]).entities[id] == Run(h).entities[id]
  {
    var d, e := Run(h), s.event;
    hide Run, Step, Sound, KnowsSeen, ExtractAliases, MatchedIds, Strongest, AbsorbAll, Resolved, Booked, IsFallback;
    RunStep(h, s);
    StrongestOfEvent(e);
    AliasShape(e, Strongest(ExtractAliases(e)));
    if MatchedIds(d, e) == [] {
      FoundingEquation(d, s);
    } else {
      Settling(d, h, e);
      MatchingEquation(d, s);
      if id in MatchedIds(d, e) {
        MatchesAreLive(d, h, e, id);
      }
      AbsorbAllFrame(d, MatchedIds(d, e), Resolved(d, e), id);
    }
  }

  lemma AppFallback(h: seq<Sighting>, s: Sighting, id: string, app: string)
    requires id == FallbackId(app) && ExtractAliases(s.event) == []
    requires id in Run(h).entities ==> Run(h).entities[id].entityType == Host && Run(h).entities[id].displayName == app
    ensures id in Run(h + [s]).entities ==>
              Run(h + [s]).entities[id].entityType == Host && Run(h + [s]).entities[id].displayName == app
  {
    hide Run, Step, ExtractAliases, Sound, KnowsSeen, FallbackId;
    RunStep(h, s);
    FallbackEquation(Run(h), s);
    SameApp(app, s.event.appId);
  }

  /** The entity of an application has the type Host and the application's name. */
  lemma {:induction false} AppEntity(h: seq<Sighting>, id: string, app: string)
    requires id == FallbackId(app)
    ensures id in Run(h).entities ==>
              Run(h).entities[id].entityType == Host && Run(h).entities[id].displayName == app
  {
    if h != [] {
      var before, s := h[..|h| - 1], h[|h| - 1];
      assert h == before + [s] && id[10] == 'a';
      hide Run, Step, ExtractAliases, Sound, KnowsSeen, FallbackId;
      AppEntity(before, id, app);
      if ExtractAliases(s.event) == [] {
        AppFallback(before, s, id, app);
      } else {
        AppStays(before, s, id);
      }
    }
  }

  lemma SameApp(a: string, b: string)
    ensures FallbackId(a) == FallbackId(b) <==> a == b
  {
    assert FallbackId(a)[14..] == a && FallbackId(b)[14..] == b;
  }

  // ---------- Merges ----------

  /** The survivor comes before all other ids of its rank. */
  lemma {:induction false} HighestIsFirst(entities: map<string, Entity>, ids: seq<string>) returns (k: nat)
    requires ids != []
    ensures k < |ids| && ids[k] == Highest(entities, ids)
    ensures forall j :: 0 <= j < k ==> RankOf(entities, ids[j]) < RankOf(entities, ids[k])
  {
    HighestFacts(entities, ids);
    k := |ids| - 1;
    if |ids| > 1 {
      var init := ids[..|ids| - 1];
      HighestFacts(entities, init);
      var j := HighestIsFirst(entities, init);
      if ids[k] != Highest(entities, ids) || RankOf(entities, ids[k]) <= RankOf(entities, init[j]) {
        k := j;
      }
    }
  }

  /** An entity gives way only to one of the same kind or a stronger one: a user only to a user, a container to a
      container or a user, a session to anything but an address. Of one kind the id that comes first stays. */
  lemma MergeKeepsStrongest(h: seq<Sighting>, s: Sighting, x: string)
    requires x in Run(h).entities && x !in Run(h + [s]).entities
    ensures var d, id := Run(h), Resolved(Run(h), s.event);
            && id in d.entities
            && var mine, yours := d.entities[id].entityType, d.entities[x].entityType;
               && (yours == EntityType.User ==> mine == EntityType.User)
               && (yours == Workload ==> mine == Workload || mine == EntityType.User)
               && (yours == EntityType.Session ==> mine != Host)
               && (mine == yours ==> Less(id, x))
  {
    var d, e := Run(h), s.event;
    hide Run, Sound, KnowsSeen, Step, MatchedIds, Highest, Less;
    RunStep(h, s);
    StepEntities(d, h, s);
    var ids := MatchedIds(d, e);
    assert x in ids;
    MatchedFacts(d, e);
    if ExtractAliases(e) == [] {
      MatchedNothing(d, e);
    }
    MatchedResolves(d, e);
    MatchesAreLive(d, h, e, Highest(d.entities, ids)) by {
      HighestFacts(d.entities, ids);
    }
    HighestFacts(d.entities, ids);
    var k := HighestIsFirst(d.entities, ids);
    var j :| 0 <= j < |ids| && ids[j] == x;
    assert j != k;
  }
}
