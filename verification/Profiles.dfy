/** What the resolver keeps about an entity: exactly what the events of its component said, and the name by which it
    first became known, until a user names it. */
module Profiles {
  import opened Basics
  import opened Identity
  import opened IdentityTheorems
  import opened Lineage
  import opened Survivors

  /** The event gives some identifier that is not blank. */
  predicate Identified(e: Event) {
    Given(UserOf(e)) || Given(SessionOf(e)) || Given(e.containerId) || Given(e.ip)
  }

  lemma IdentifiedIff(e: Event)
    ensures Identified(e) <==> ExtractAliases(e) != []
  {
    GivenIsAlias("user:", EntityType.User, UserOf(e));
    GivenIsAlias("session:", EntityType.Session, SessionOf(e));
    GivenIsAlias("container:", Workload, e.containerId);
    GivenIsAlias("ip:", Host, e.ip);
    hide Given, AliasFor;
  }

  // ---------- Facts ----------

  datatype Fact = UsedApp(app: string) | Exercised(capability: string) | Ran(pid: nat) | CameFrom(ip: string)
                | ByUser(user: string) | InSession(session: string) | InContainer(container: string)

  /** The event says so. Without an identifier it only speaks about its application and its capabilities. */
  predicate Tells(s: Sighting, f: Fact) {
    match f
    case UsedApp(app) => s.event.appId == app
    case Exercised(capability) => capability in s.capabilities
    case Ran(pid) => Identified(s.event) && s.event.pid == Some(pid)
    case CameFrom(ip) => Identified(s.event) && s.event.ip == Some(ip)
    case ByUser(user) => Identified(s.event) && UserOf(s.event) == Some(user)
    case InSession(session) => Identified(s.event) && SessionOf(s.event) == Some(session)
    case InContainer(container) => Identified(s.event) && s.event.containerId == Some(container)
  }

  /** The entity says so. */
  predicate Has(e: Entity, f: Fact) {
    match f
    case UsedApp(app) => app in e.appsSeen
    case Exercised(capability) => capability in e.exercisedCapabilities
    case Ran(pid) => pid in e.linkedPids
    case CameFrom(ip) => ip in e.linkedIps
    case ByUser(user) => user in e.linkedUserIds
    case InSession(session) => session in e.linkedSessions
    case InContainer(container) => container in e.linkedContainers
  }

  predicate TallyHas(t: Tally, f: Fact) {
    match f
    case UsedApp(app) => app in t.apps
    case Exercised(capability) => capability in t.capabilities
    case Ran(pid) => pid in t.pids
    case CameFrom(ip) => ip in t.ips
    case ByUser(user) => user in t.users
    case InSession(session) => session in t.sessions
    case InContainer(container) => container in t.containers
  }

  lemma ShareTells(h: seq<Sighting>, s: Sighting, t: Tally, f: Fact)
    ensures TallyHas(Plus(t, Share(h, s)), f) <==> TallyHas(t, f) || Tells(s, f)
    ensures !TallyHas(NOTHING, f)
  {
    IdentifiedIff(s.event);
    hide ExtractAliases, Newcomer, Identified;
  }

  lemma TallyOfNone(m: map<string, string>, id: string, f: Fact)
    ensures !TallyHas(TallyFor([], m, id), f) && TallyFor([], m, id).count == 0
  {
  }

  lemma TallyGrows(h: seq<Sighting>, s: Sighting, m: map<string, string>, id: string, f: Fact)
    ensures var t, t' := TallyFor(h, m, id), TallyFor(h + [s], m, id);
            && (TallyHas(t', f) <==> TallyHas(t, f) || (Owner(m, s.event) == id && Tells(s, f)))
            && t'.count == t.count + if Owner(m, s.event) == id then 1 else 0
  {
    hide Owner, Tells, TallyHas, ExtractAliases, Newcomer;
    assert (h + [s])[..|h|] == h;
    ShareTells(h, s, TallyFor(h, m, id), f);
  }

  lemma {:induction false} TallyTells(h: seq<Sighting>, m: map<string, string>, id: string, f: Fact)
    ensures TallyHas(TallyFor(h, m, id), f)
       <==> exists i :: 0 <= i < |h| && Owner(m, h[i].event) == id && Tells(h[i], f)
  {
    hide *;
    if h == [] {
      TallyOfNone(m, id, f);
    } else {
      var before, s := h[..|h| - 1], h[|h| - 1];
      assert h == before + [s];
      TallyTells(before, m, id, f);
      TallyGrows(before, s, m, id, f);
      if i :| 0 <= i < |before| && Owner(m, before[i].event) == id && Tells(before[i], f) {
        assert h[i] == before[i];
      }
    }
  }

  lemma EntityHas(h: seq<Sighting>, id: string, f: Fact)
    requires Alive(h, id)
    ensures Has(Run(h).entities[id], f) <==> TallyHas(TallyFor(h, Run(h).aliases, id), f)
    ensures Run(h).entities[id].eventCount == TallyFor(h, Run(h).aliases, id).count
  {
    hide Run, TallyFor;
    RunIsSound(h);
    assert Accounted(Run(h), h, id);
  }

  /** In every history a living entity says exactly what the events of its component said. */
  lemma FactsAreTold(h: seq<Sighting>, id: string, f: Fact)
    requires Alive(h, id)
    ensures Has(Run(h).entities[id], f) <==> exists i :: 0 <= i < |h| && OwnerOf(h, i) == id && Tells(h[i], f)
  {
    hide Run, TallyFor, Has, TallyHas, Tells, Owner;
    EntityHas(h, id, f);
    TallyTells(h, Run(h).aliases, id, f);
  }

  ghost function EventsOf(h: seq<Sighting>, m: map<string, string>, id: string): set<int> {
    set i | 0 <= i < |h| && Owner(m, h[i].event) == id
  }

  lemma EventsGrow(h: seq<Sighting>, s: Sighting, m: map<string, string>, id: string)
    ensures |EventsOf(h + [s], m, id)| == |EventsOf(h, m, id)| + if Owner(m, s.event) == id then 1 else 0
  {
    hide Owner;
    var more := if Owner(m, s.event) == id then {|h|} else {};
    assert EventsOf(h + [s], m, id) == EventsOf(h, m, id) + more;
    assert EventsOf(h, m, id) !! more;
  }

  lemma {:induction false} TallyCounts(h: seq<Sighting>, m: map<string, string>, id: string)
    ensures TallyFor(h, m, id).count == |EventsOf(h, m, id)|
  {
    hide Owner, TallyFor;
    if h == [] {
      TallyOfNone(m, id, UsedApp(""));
      assert EventsOf(h, m, id) == {};
    } else {
      var before, s := h[..|h| - 1], h[|h| - 1];
      assert h == before + [s];
      TallyCounts(before, m, id);
      TallyGrows(before, s, m, id, UsedApp(""));
      EventsGrow(before, s, m, id);
    }
  }

  /** Its event count is the number of events of its component. */
  lemma CountIsEvents(h: seq<Sighting>, id: string)
    requires Alive(h, id)
    ensures Run(h).entities[id].eventCount == |set i | 0 <= i < |h| && OwnerOf(h, i) == id|
  {
    hide Run, TallyFor, Has, TallyHas, Owner;
    EntityHas(h, id, UsedApp(""));
    TallyCounts(h, Run(h).aliases, id);
    assert EventsOf(h, Run(h).aliases, id) == set i | 0 <= i < |h| && OwnerOf(h, i) == id;
  }

  // ---------- Names and types ----------

  lemma {:induction false} AbsorbAllKeeps(d: Directory, ids: seq<string>, t: string)
    requires t in d.entities
    ensures var d' := AbsorbAll(d, ids, t);
            && t in d'.entities && d'.entities[t].entityType == d.entities[t].entityType
            && d'.entities[t].displayName == d.entities[t].displayName
  {
    if ids != [] {
      AbsorbAllKeeps(d, ids[..|ids| - 1], t);
    }
  }

  /** A known entity takes the name of the first user that an event names together with an identifier, and keeps it
      from then on; all else leaves its name and its type as they are, even a merge. */
  lemma NameIs(h: seq<Sighting>, s: Sighting)
    requires Alive(h, Resolved(Run(h), s.event))
    ensures var id, user := Resolved(Run(h), s.event), UserOf(s.event);
            && Alive(h + [s], id)
            && var was, became := Run(h).entities[id], Run(h + [s]).entities[id];
               if user.Some? && Identified(s.event) && was.entityType != EntityType.User
               then became.entityType == EntityType.User && became.displayName == user.value
               else became.entityType == was.entityType && became.displayName == was.displayName
  {
    var d, e := Run(h), s.event;
    hide Run, Step, Sound, KnowsSeen, ExtractAliases, MatchedIds, Strongest, AbsorbAll, Resolved, Identified;
    RunStep(h, s);
    IdentifiedIff(e);
    if ExtractAliases(e) == [] {
      FallbackResolves(d, e);
      FallbackEquation(d, s);
    } else if MatchedIds(d, e) == [] {
      FoundedIsUnseen(d, h, e);
      LiveIsNamed(d, h, Resolved(d, e));
    } else {
      Settling(d, h, e);
      MatchingEquation(d, s);
      AbsorbAllKeeps(d, MatchedIds(d, e), Resolved(d, e));
    }
  }

  /** An event touches no other entity that outlives it. */
  lemma OthersStay(h: seq<Sighting>, s: Sighting, id: string)
    requires Alive(h + [s], id) && id != Resolved(Run(h), s.event)
    ensures Alive(h, id) && Run(h + [s]).entities[id] == Run(h).entities[id]
  {
    var d, e := Run(h), s.event;
    hide Run, Step, Sound, KnowsSeen, ExtractAliases, MatchedIds, Strongest, AbsorbAll, Resolved, Booked;
    RunStep(h, s);
    StepEntities(d, h, s);
    if ExtractAliases(e) == [] {
      FallbackResolves(d, e);
      FallbackEquation(d, s);
    } else if MatchedIds(d, e) == [] {
      FoundingEquation(d, s);
    } else {
      Settling(d, h, e);
      MatchingEquation(d, s);
      AbsorbAllFrame(d, MatchedIds(d, e), Resolved(d, e), id);
    }
  }

  // ---------- Times ----------

  /** Event j founded an entity. */
  ghost predicate Founds(h: seq<Sighting>, j: nat)
    requires j < |h|
  {
    Identified(h[j].event) && AllNew(h[..j], h[j].event)
  }

  lemma NewIsUnseen(h: seq<Sighting>, e: Event, a: Alias)
    requires a in ExtractAliases(e) && Newcomer(h, e)
    ensures !Seen(h, a.key)
  {
    hide Seen, ExtractAliases;
    assert a.key in Keys(e);
  }

  lemma FoundsIff(h: seq<Sighting>, e: Event)
    ensures Newcomer(h, e) <==> AllNew(h, e)
  {
    hide Seen, ExtractAliases;
    if AllNew(h, e) {
      forall k | k in Keys(e) ensures !Seen(h, k) {
        var a :| a in ExtractAliases(e) && a.key == k;
        AliasIff(e, a);
      }
    }
    forall a | a in ExtractAliases(e) && Newcomer(h, e) ensures !Seen(h, a.key) {
      NewIsUnseen(h, e, a);
    }
    if Given(UserOf(e)) {
      AliasIff(e, Alias("user:" + UserOf(e).value, EntityType.User, UserOf(e).value));
    }
    if Given(SessionOf(e)) {
      AliasIff(e, Alias("session:" + SessionOf(e).value, EntityType.Session, SessionOf(e).value));
    }
    if Given(e.containerId) {
      AliasIff(e, Alias("container:" + e.containerId.value, Workload, e.containerId.value));
    }
    if Given(e.ip) {
      AliasIff(e, Alias("ip:" + e.ip.value, Host, e.ip.value));
    }
  }

  /** A time at which event i founded its entity. */
  ghost predicate Birth(h: seq<Sighting>, i: nat, t: Time)
    requires i < |h|
  {
    Founds(h, i) && t == h[i].event.timestamp
  }

  /** A time at which event i was seen; a founding event also counts when it is processed. */
  ghost predicate Instant(h: seq<Sighting>, i: nat, t: Time)
    requires i < |h|
  {
    t == h[i].event.timestamp || (Founds(h, i) && t == h[i].now)
  }

  lemma ShareDates(h: seq<Sighting>, n: nat, t: Tally, x: Time)
    requires n < |h|
    ensures x in Plus(t, Share(h[..n], h[n])).births <==> x in t.births || Birth(h, n, x)
    ensures x in Plus(t, Share(h[..n], h[n])).instants <==> x in t.instants || Instant(h, n, x)
  {
    FoundsIff(h[..n], h[n].event);
    IdentifiedIff(h[n].event);
    hide ExtractAliases, Newcomer, AllNew, Identified;
  }

  lemma {:induction false} TallyDates(h: seq<Sighting>, n: nat, m: map<string, string>, id: string, x: Time)
    requires n <= |h|
    ensures x in TallyFor(h[..n], m, id).births
       <==> exists i :: 0 <= i < n && Owner(m, h[i].event) == id && Birth(h, i, x)
    ensures x in TallyFor(h[..n], m, id).instants
       <==> exists i :: 0 <= i < n && Owner(m, h[i].event) == id && Instant(h, i, x)
  {
    hide Owner, Birth, Instant, Plus, Share;
    if n > 0 {
      assert h[..n][..n - 1] == h[..n - 1];
      TallyDates(h, n - 1, m, id, x);
      ShareDates(h, n - 1, TallyFor(h[..n - 1], m, id), x);
    }
  }

  lemma IdentifiedIsNoFallback(h: seq<Sighting>, i: nat)
    requires i < |h| && Identified(h[i].event)
    ensures !IsFallback(OwnerOf(h, i)) && Alive(h, OwnerOf(h, i))
  {
    hide Run, IsFallback, ExtractAliases;
    IdentifiedIff(h[i].event);
    RunIsSound(h);
    assert Placed(Run(h), h[i].event);
    OwnerIsPlaced(Run(h), h[i].event);
    var aliases := ExtractAliases(h[i].event);
    assert aliases[0].key in Keys(h[i].event);
  }

  /** An entity with identifiers was first seen at the earliest of the events that founded the entities merged into it,
      which an event that came later may precede, and last at the latest of its events, or when one of those that
      founded it was processed, if that was later. */
  lemma TimesAre(h: seq<Sighting>, i: nat) returns (k: nat, l: nat)
    requires i < |h| && Identified(h[i].event)
    ensures var id := OwnerOf(h, i);
            && Alive(h, id) && k < |h| && l < |h| && OwnerOf(h, k) == id && OwnerOf(h, l) == id
            && var e := Run(h).entities[id];
               && Founds(h, k) && e.firstSeen == h[k].event.timestamp
               && (Founds(h, i) ==> e.firstSeen <= h[i].event.timestamp)
               && (e.lastSeen == h[l].event.timestamp || (Founds(h, l) && e.lastSeen == h[l].now))
               && h[i].event.timestamp <= e.lastSeen
               && (Founds(h, i) ==> h[i].now <= e.lastSeen)
  {
    hide Run, IsFallback, ExtractAliases, Owner, TallyFor, Founds, Identified;
    var d, id := Run(h), OwnerOf(h, i);
    IdentifiedIsNoFallback(h, i);
    RunIsSound(h);
    assert Accounted(d, h, id);
    assert h[..|h|] == h;
    var e := d.entities[id];
    TallyDates(h, |h|, d.aliases, id, e.firstSeen);
    TallyDates(h, |h|, d.aliases, id, e.lastSeen);
    TallyDates(h, |h|, d.aliases, id, h[i].event.timestamp);
    TallyDates(h, |h|, d.aliases, id, h[i].now);
    k :| 0 <= k < |h| && Owner(d.aliases, h[k].event) == id && Birth(h, k, e.firstSeen);
    l :| 0 <= l < |h| && Owner(d.aliases, h[l].event) == id && Instant(h, l, e.lastSeen);
    assert Instant(h, i, h[i].event.timestamp);
    assert Founds(h, i) ==> Birth(h, i, h[i].event.timestamp) && Instant(h, i, h[i].now);
  }

  /** The entity of an application was first seen when its first event was processed, and last at the event that came
      last, be it the latest or not. */
  lemma AppTimesAre(h: seq<Sighting>, s: Sighting)
    requires !Identified(s.event)
    ensures var id := "canonical:app:" + s.event.appId;
            && Alive(h + [s], id) && Run(h + [s]).entities[id].lastSeen == s.event.timestamp
            && Run(h + [s]).entities[id].firstSeen == if Alive(h, id) then Run(h).entities[id].firstSeen else s.now
  {
    hide Run, Step, ExtractAliases, Sound, KnowsSeen, Identified;
    RunStep(h, s);
    IdentifiedIff(s.event);
    FallbackEquation(Run(h), s);
  }
}
