/** What the resolver promises, over every history of events: its entities are the connected components of
    "appeared in one event", and each entity is the summary of exactly the events of its component. */
module IdentityTheorems {
  import opened Basics
  import opened StringOrder
  import opened Sums
  import opened Identity

  /** What a set of events amounts to. */
  datatype Tally = Tally(count: nat, ips: set<string>, sessions: set<string>, users: set<string>,
                         containers: set<string>, pids: set<nat>, apps: set<string>,
                         capabilities: set<string>, births: set<Time>, instants: set<Time>)

  const NOTHING := Tally(0, {}, {}, {}, {}, {}, {}, {}, {}, {})

  function Plus(a: Tally, b: Tally): Tally {
    Tally(a.count + b.count, a.ips + b.ips, a.sessions + b.sessions, a.users + b.users,
          a.containers + b.containers, a.pids + b.pids, a.apps + b.apps,
          a.capabilities + b.capabilities, a.births + b.births, a.instants + b.instants)
  }

  ghost predicate Seen(h: seq<Sighting>, alias: string) {
    exists i :: 0 <= i < |h| && alias in Keys(h[i].event)
  }

  /** None of the event's aliases occurs in h. */
  ghost predicate Newcomer(h: seq<Sighting>, e: Event) {
    forall a :: a in Keys(e) ==> !Seen(h, a)
  }

  /** The share of one event, which comes after history h. An event that founds an entity counts its
      own time as a birth, and the clock as an instant besides its own time. */
  ghost function Share(h: seq<Sighting>, s: Sighting): Tally {
    var e := s.event;
    if ExtractAliases(e) == [] then
      NOTHING.(count := 1, apps := {e.appId}, capabilities := s.capabilities, instants := {e.timestamp})
    else
      Tally(1, SetOf(e.ip), SetOf(e.SessionId()), SetOf(e.UserId()), SetOf(e.containerId), SetOf(e.pid),
            {e.appId}, s.capabilities,
            if Newcomer(h, e) then {e.timestamp} else {},
            if Newcomer(h, e) then {e.timestamp, s.now} else {e.timestamp})
  }

  /** The id under which an event is booked, given the alias map as it is now. */
  function Owner(m: map<string, string>, e: Event): string {
    var aliases := ExtractAliases(e);
    if aliases == [] then FallbackId(e.appId)
    else if aliases[0].key in m then m[aliases[0].key] else ""
  }

  /** The sum of the shares of all events of h that id owns now. */
  ghost function TallyFor(h: seq<Sighting>, m: map<string, string>, id: string): Tally {
    if h == [] then NOTHING
    else
      var before, last := h[..|h| - 1], h[|h| - 1];
      if Owner(m, last.event) == id then Plus(TallyFor(before, m, id), Share(before, last))
      else TallyFor(before, m, id)
  }

  predicate IsFallback(id: string) {
    |id| > 10 && id[10] == 'a'
  }

  /** The entity says exactly what the tally says; its risk score has never been raised. */
  ghost predicate Summarises(e: Entity, id: string, t: Tally) {
    && e.entityId == id
    && e.eventCount == t.count
    && e.linkedIps == t.ips
    && e.linkedSessions == t.sessions
    && e.linkedUserIds == t.users
    && e.linkedContainers == t.containers
    && e.linkedPids == t.pids
    && e.appsSeen == t.apps
    && e.exercisedCapabilities == t.capabilities
    && e.riskScore == 0
    && e.lastSeen in t.instants
    && (!IsFallback(id) ==>
          && e.firstSeen in t.births && (forall x :: x in t.births ==> e.firstSeen <= x)
          && (forall x :: x in t.instants ==> x <= e.lastSeen))
  }

  function Prefix(t: EntityType): string {
    match t
    case Host => "ip:"
    case Session => "session:"
    case Workload => "container:"
    case User => "user:"
  }

  /** The type is User exactly when a user is linked; the name is a linked user, or else the founding alias. */
  ghost predicate WellTyped(e: Entity) {
    && (e.entityType == User <==> e.linkedUserIds != {})
    && (e.entityType == User ==> e.displayName in e.linkedUserIds)
    && (e.entityType != User ==>
          e.entityId == CanonicalId(Prefix(e.entityType) + e.displayName) || e.entityId == FallbackId(e.displayName))
  }

  /** An alias-based entity is pointed to by the alias that named it. */
  ghost predicate Rooted(d: Directory, id: string) {
    IsFallback(id) || (|id| >= 10 && id[10..] in d.aliases && d.aliases[id[10..]] == id)
  }

  /** The event's aliases are known and agree, and its owner is a live entity. */
  ghost predicate Placed(d: Directory, e: Event) {
    && (forall a :: a in Keys(e) ==> a in d.aliases)
    && (forall a, b :: a in Keys(e) && b in Keys(e) ==> d.aliases[a] == d.aliases[b])
    && Owner(d.aliases, e) in d.entities
  }

  ghost predicate AliasesLive(d: Directory) {
    forall a :: a in d.aliases ==> d.aliases[a] in d.entities && !IsFallback(d.aliases[a])
  }

  ghost predicate AllPlaced(d: Directory, h: seq<Sighting>) {
    forall i :: 0 <= i < |h| ==> Placed(d, h[i].event)
  }

  /** Entity id of d is in order, and sums up the events it owns. */
  ghost predicate Accounted(d: Directory, h: seq<Sighting>, id: string)
    requires id in d.entities
  {
    Rooted(d, id) && WellTyped(d.entities[id]) && Summarises(d.entities[id], id, TallyFor(h, d.aliases, id))
  }

  ghost predicate Sound(d: Directory, h: seq<Sighting>) {
    AliasesLive(d) && AllPlaced(d, h) && forall id :: id in d.entities ==> Accounted(d, h, id)
  }

  ghost predicate KnowsSeen(d: Directory, h: seq<Sighting>) {
    forall a :: a in d.aliases <==> Seen(h, a)
  }

  // ---------- The pieces of one step ----------

  lemma AliasShape(e: Event, a: Alias)
    requires a in ExtractAliases(e)
    ensures a.key == Prefix(a.kind) + a.name
    ensures !IsFallback(CanonicalId(a.key))
    ensures CanonicalId(a.key)[10..] == a.key
    ensures a.kind == User <==> Some(a.name) == e.UserId() && a in AliasFor("user:", User, e.UserId())
  {
    assert a.key[0] != 'a';
    assert "canonical:app:"[10] == 'a' && CanonicalId(a.key)[10] == a.key[0];
  }

  lemma {:induction false} LinkAliasesFacts(m: map<string, string>, aliases: seq<Alias>, id: string)
    ensures var m' := LinkAliases(m, aliases, id);
            var keys := set a | a in aliases :: a.key;
            && m'.Keys == m.Keys + keys
            && (forall a :: a in m' ==> m'[a] == if a in keys then id else m[a])
  {
    if aliases != [] {
      var init, last := aliases[..|aliases| - 1], aliases[|aliases| - 1];
      LinkAliasesFacts(m, init, id);
      assert (set a | a in aliases :: a.key) == (set a | a in init :: a.key) + {last.key};
    }
  }

  lemma {:induction false} MatchesFacts(m: map<string, string>, aliases: seq<Alias>)
    ensures forall x :: x in Matches(m, aliases) <==> exists a :: a in aliases && a.key in m && m[a.key] == x
  {
    if aliases != [] {
      MatchesFacts(m, aliases[1..]);
      forall x ensures x in Matches(m, aliases) <==> exists a :: a in aliases && a.key in m && m[a.key] == x {
        if a :| a in aliases && a.key in m && m[a.key] == x {
          assert a == aliases[0] || a in aliases[1..];
        }
      }
    }
  }

  lemma MatchedFacts(d: Directory, e: Event)
    ensures Ascending(MatchedIds(d, e))
    ensures forall x :: x in MatchedIds(d, e) <==> exists k :: k in Keys(e) && k in d.aliases && d.aliases[k] == x
    ensures MatchedIds(d, e) == [] <==> forall k :: k in Keys(e) ==> k !in d.aliases
  {
    var raw := Matches(d.aliases, ExtractAliases(e));
    SortDedupIsSorted(raw);
    MatchesFacts(d.aliases, ExtractAliases(e));
    forall x ensures x in MatchedIds(d, e) <==> exists k :: k in Keys(e) && k in d.aliases && d.aliases[k] == x {
      assert x in MatchedIds(d, e) <==> x in Elements(raw);
      if k :| k in Keys(e) && k in d.aliases && d.aliases[k] == x {
        var a :| a in ExtractAliases(e) && a.key == k;
      }
    }
    assert MatchedIds(d, e) != [] ==> MatchedIds(d, e)[0] in MatchedIds(d, e);
    forall k | k in Keys(e) && k in d.aliases ensures d.aliases[k] in MatchedIds(d, e) {
    }
  }

  lemma {:induction false} HighestFacts(entities: map<string, Entity>, ids: seq<string>)
    requires ids != []
    ensures Highest(entities, ids) in ids
    ensures forall x :: x in ids ==> RankOf(entities, x) <= RankOf(entities, Highest(entities, ids))
  {
    if |ids| > 1 {
      HighestFacts(entities, ids[..|ids| - 1]);
      assert ids == ids[..|ids| - 1] + [ids[|ids| - 1]];
    }
  }

  lemma PlusNothing(a: Tally)
    ensures Plus(a, NOTHING) == a && Plus(NOTHING, a) == a
  {
  }

  lemma PlusSwap(a: Tally, b: Tally, c: Tally)
    ensures Plus(Plus(a, b), c) == Plus(Plus(a, c), b)
  {
  }

  lemma PlusAssociates(a: Tally, b: Tally, c: Tally)
    ensures Plus(Plus(a, b), c) == Plus(a, Plus(b, c))
  {
  }

  lemma OwnerIsPlaced(d: Directory, e: Event)
    requires Placed(d, e)
    ensures Owner(d.aliases, e) == if Keys(e) == {} then FallbackId(e.appId) else Owner(d.aliases, e)
    ensures forall a :: a in Keys(e) ==> d.aliases[a] == Owner(d.aliases, e)
    ensures Keys(e) == {} <==> ExtractAliases(e) == []
  {
    var aliases := ExtractAliases(e);
    if aliases != [] {
      assert aliases[0].key in Keys(e);
    }
  }

  lemma OwnerRepoint(d: Directory, e: Event, x: string, t: string)
    requires Placed(d, e) && !IsFallback(x)
    ensures Owner(Repoint(d.aliases, x, t), e) == if Owner(d.aliases, e) == x then t else Owner(d.aliases, e)
  {
    var aliases := ExtractAliases(e);
    if aliases != [] {
      assert aliases[0].key in Keys(e);
    }
  }

  /** Merging two entities adds their tallies. */
  lemma {:induction false} TallyMerged(h: seq<Sighting>, d: Directory, x: string, t: string)
    requires AllPlaced(d, h)
    requires x != t && !IsFallback(x)
    ensures TallyFor(h, Repoint(d.aliases, x, t), t) == Plus(TallyFor(h, d.aliases, t), TallyFor(h, d.aliases, x))
  {
    if h == [] {
      PlusNothing(NOTHING);
    } else {
      var before, last := h[..|h| - 1], h[|h| - 1];
      TallyMerged(before, d, x, t);
      OwnerRepoint(d, last.event, x, t);
      PlusSwap(TallyFor(before, d.aliases, t), TallyFor(before, d.aliases, x), Share(before, last));
      PlusAssociates(TallyFor(before, d.aliases, t), TallyFor(before, d.aliases, x), Share(before, last));
    }
  }

  /** Merging two entities leaves the tallies of all others alone. */
  lemma {:induction false} TallyUnmerged(h: seq<Sighting>, d: Directory, x: string, t: string, y: string)
    requires AllPlaced(d, h)
    requires x != t && !IsFallback(x) && y != t && y != x
    ensures TallyFor(h, Repoint(d.aliases, x, t), y) == TallyFor(h, d.aliases, y)
  {
    if h != [] {
      TallyUnmerged(h[..|h| - 1], d, x, t, y);
      OwnerRepoint(d, h[|h| - 1].event, x, t);
    }
  }

  /** New aliases do not change who owns the events so far. */
  lemma {:induction false} TallyExtend(h: seq<Sighting>, d: Directory, m': map<string, string>, y: string)
    requires AllPlaced(d, h)
    requires forall a :: a in d.aliases ==> a in m' && m'[a] == d.aliases[a]
    ensures TallyFor(h, m', y) == TallyFor(h, d.aliases, y)
  {
    if h != [] {
      var last := h[|h| - 1];
      TallyExtend(h[..|h| - 1], d, m', y);
      assert Placed(d, last.event);
      var aliases := ExtractAliases(last.event);
      if aliases != [] {
        assert aliases[0].key in Keys(last.event);
      }
    }
  }

  lemma {:induction false} TallyOfStranger(h: seq<Sighting>, d: Directory, y: string)
    requires AllPlaced(d, h)
    requires y !in d.entities
    ensures TallyFor(h, d.aliases, y) == NOTHING
  {
    if h != [] {
      assert Placed(d, h[|h| - 1].event);
      TallyOfStranger(h[..|h| - 1], d, y);
    }
  }

  lemma PlacedRepoint(d: Directory, e: Event, id: string, t: string)
    requires Placed(d, e) && id != t && id in d.entities && t in d.entities && !IsFallback(id)
    ensures Placed(Absorb(d, id, t), e)
  {
    OwnerRepoint(d, e, id, t);
  }

  lemma MergeSummarises(h: seq<Sighting>, d: Directory, id: string, t: string, a: Tally, b: Tally)
    requires id in d.entities && t in d.entities && !IsFallback(id) && !IsFallback(t)
    requires Summarises(d.entities[t], t, a) && Summarises(d.entities[id], id, b)
    requires WellTyped(d.entities[t]) && WellTyped(d.entities[id])
    requires RankOf(d.entities, id) <= RankOf(d.entities, t)
    ensures Summarises(Merge(d.entities[t], d.entities[id]), t, Plus(a, b))
    ensures WellTyped(Merge(d.entities[t], d.entities[id]))
  {
  }

  lemma AccountedAbsorb(d: Directory, h: seq<Sighting>, id: string, t: string, y: string)
    requires AliasesLive(d) && AllPlaced(d, h)
    requires id != t && id in d.entities && t in d.entities && !IsFallback(id) && !IsFallback(t)
    requires RankOf(d.entities, id) <= RankOf(d.entities, t)
    requires Accounted(d, h, id) && Accounted(d, h, t)
    requires y != id && y in d.entities && Accounted(d, h, y)
    ensures y in Absorb(d, id, t).entities && Accounted(Absorb(d, id, t), h, y)
  {
    hide AllPlaced, TallyFor, Plus, Summarises, WellTyped, Merge, RankOf;
    if y == t {
      MergeSummarises(h, d, id, t, TallyFor(h, d.aliases, t), TallyFor(h, d.aliases, id));
      TallyMerged(h, d, id, t);
    } else {
      TallyUnmerged(h, d, id, t, y);
    }
  }

  lemma SoundAbsorb(d: Directory, h: seq<Sighting>, id: string, t: string)
    requires Sound(d, h)
    requires id != t && id in d.entities && t in d.entities && !IsFallback(id) && !IsFallback(t)
    requires RankOf(d.entities, id) <= RankOf(d.entities, t)
    ensures Sound(Absorb(d, id, t), h)
  {
    hide Placed, Accounted, Owner;
    var d' := Absorb(d, id, t);
    forall i | 0 <= i < |h| ensures Placed(d', h[i].event) {
      PlacedRepoint(d, h[i].event, id, t);
    }
    forall y | y in d'.entities ensures Accounted(d', h, y) {
      AccountedAbsorb(d, h, id, t, y);
    }
  }

  lemma AbsorbFacts(d: Directory, id: string, t: string)
    requires id in d.entities && t in d.entities
    ensures id == t ==> Absorb(d, id, t) == d
    ensures var d' := Absorb(d, id, t);
            id != t ==>
              && d'.entities.Keys == d.entities.Keys - {id}
              && (forall x :: x in d'.entities ==> d'.entities[x].entityType == d.entities[x].entityType)
              && d'.aliases == Repoint(d.aliases, id, t)
  {
  }

  lemma {:induction false} SoundAbsorbAll(d: Directory, h: seq<Sighting>, ids: seq<string>, t: string)
    requires Sound(d, h) && Ascending(ids) && t in d.entities && !IsFallback(t)
    requires forall x :: x in ids ==>
               x in d.entities && !IsFallback(x) && RankOf(d.entities, x) <= RankOf(d.entities, t)
    ensures var d' := AbsorbAll(d, ids, t);
            && Sound(d', h)
            && d'.entities.Keys == d.entities.Keys - (Elements(ids) - {t})
            && (forall x :: x in d'.entities ==> d'.entities[x].entityType == d.entities[x].entityType)
            && d'.aliases.Keys == d.aliases.Keys
            && (forall a :: a in d.aliases ==> d'.aliases[a] == if d.aliases[a] in ids then t else d.aliases[a])
  {
    hide Sound, Absorb;
    if ids != [] {
      var init, last := ids[..|ids| - 1], ids[|ids| - 1];
      SoundAbsorbAll(d, h, init, t);
      assert ids == init + [last];
      LessTrichotomy(last, last);
      assert last !in init;
      assert Elements(ids) == Elements(init) + {last};
      AbsorbFacts(AbsorbAll(d, init, t), last, t);
      if last != t {
        SoundAbsorb(AbsorbAll(d, init, t), h, last, t);
      }
    }
  }

  /** Directory d' books event s on entity id of d; known aliases stay where they are. */
  ghost predicate Books(d: Directory, s: Sighting, id: string, d': Directory) {
    && (forall a :: a in d'.aliases <==> a in d.aliases || a in Keys(s.event))
    && (forall a :: a in d.aliases ==> d'.aliases[a] == d.aliases[a])
    && (forall a :: a in Keys(s.event) ==> d'.aliases[a] == id && !IsFallback(id))
    && (Keys(s.event) == {} ==> id == FallbackId(s.event.appId))
    && id in d'.entities && d'.entities == d.entities[id := d'.entities[id]]
  }

  lemma BookingPlaces(d: Directory, s: Sighting, id: string, d': Directory)
    requires Books(d, s, id, d')
    ensures Placed(d', s.event) && Owner(d'.aliases, s.event) == id
    ensures forall e :: Placed(d, e) ==> Placed(d', e)
  {
    hide AliasFor;
    var aliases := ExtractAliases(s.event);
    if aliases != [] {
      assert aliases[0].key in Keys(s.event);
    }
    forall e | Placed(d, e) ensures Placed(d', e) {
      OwnerIsPlaced(d, e);
    }
  }

  lemma BookingAccounts(d: Directory, h: seq<Sighting>, s: Sighting, id: string, d': Directory, y: string)
    requires AllPlaced(d, h) && Books(d, s, id, d') && y in d'.entities && Owner(d'.aliases, s.event) == id
    requires y != id ==> y in d.entities && Accounted(d, h, y)
    requires y == id ==> Rooted(d', id) && WellTyped(d'.entities[id])
                         && Summarises(d'.entities[id], id, Plus(TallyFor(h, d.aliases, id), Share(h, s)))
    ensures Accounted(d', h + [s], y)
  {
    hide ExtractAliases, Placed;
    assert (h + [s])[..|h|] == h;
    TallyExtend(h, d, d'.aliases, y);
  }

  /** Booking an event on an entity keeps the directory sound, if the entity adds the event's share. */
  lemma SoundBooking(d: Directory, h: seq<Sighting>, s: Sighting, id: string, d': Directory)
    requires Sound(d, h) && Books(d, s, id, d')
    requires Rooted(d', id) && WellTyped(d'.entities[id])
    requires Summarises(d'.entities[id], id, Plus(TallyFor(h, d.aliases, id), Share(h, s)))
    ensures Sound(d', h + [s])
  {
    hide Placed, Accounted, Summarises, Rooted, WellTyped, TallyFor, Share, Plus, Owner;
    BookingPlaces(d, s, id, d');
    assert AllPlaced(d', h + [s]);
    forall y | y in d'.entities ensures Accounted(d', h + [s], y) {
      BookingAccounts(d, h, s, id, d', y);
    }
  }

  // ---------- One step ----------

  function Booked(entity: Entity, s: Sighting): Entity {
    var touched := Touch(entity, s.event);
    touched.(exercisedCapabilities := touched.exercisedCapabilities + s.capabilities)
  }

  lemma BookedKnown(h: seq<Sighting>, s: Sighting, id: string, entity: Entity, t: Tally)
    requires ExtractAliases(s.event) != [] && !Newcomer(h, s.event) && !IsFallback(id)
    requires Summarises(entity, id, t) && WellTyped(entity)
    ensures Summarises(Booked(entity, s), id, Plus(t, Share(h, s))) && WellTyped(Booked(entity, s))
  {
    hide ExtractAliases, Newcomer;
  }

  lemma BookedNew(h: seq<Sighting>, s: Sighting, a: Alias)
    requires a in ExtractAliases(s.event) && Newcomer(h, s.event)
    requires s.event.UserId().Some? && !IsBlank(s.event.UserId().value) ==> a.kind == User
    ensures var id := CanonicalId(a.key);
            var entity := NewEntity(id, a.kind, a.name, s.now).(firstSeen := s.event.timestamp);
            Summarises(Booked(entity, s), id, Plus(NOTHING, Share(h, s))) && WellTyped(Booked(entity, s))
  {
    AliasShape(s.event, a);
    hide ExtractAliases, Newcomer;
    PlusNothing(Share(h, s));
  }

  lemma {:induction false} StrongestFacts(aliases: seq<Alias>)
    requires aliases != []
    ensures Strongest(aliases) in aliases
    ensures forall a :: a in aliases ==> Rank(a.kind) <= Rank(Strongest(aliases).kind)
  {
    if |aliases| > 1 {
      StrongestFacts(aliases[..|aliases| - 1]);
      assert aliases == aliases[..|aliases| - 1] + [aliases[|aliases| - 1]];
    }
  }

  lemma StrongestOfEvent(e: Event)
    requires ExtractAliases(e) != []
    ensures Strongest(ExtractAliases(e)) in ExtractAliases(e)
    ensures e.UserId().Some? && !IsBlank(e.UserId().value) ==> Strongest(ExtractAliases(e)).kind == User
  {
    StrongestFacts(ExtractAliases(e));
    if e.UserId().Some? && !IsBlank(e.UserId().value) {
      assert ExtractAliases(e)[0].kind == User;
    }
  }

  // What one step makes of the two maps, case by case.

  lemma FallbackEquation(d: Directory, s: Sighting)
    requires ExtractAliases(s.event) == []
    ensures var id := FallbackId(s.event.appId);
            var e := if id in d.entities then d.entities[id] else NewEntity(id, Host, s.event.appId, s.now);
            Step(d, s) == Directory(d.aliases, d.entities[id :=
              e.(lastSeen := s.event.timestamp, eventCount := e.eventCount + 1,
                 appsSeen := e.appsSeen + {s.event.appId},
                 exercisedCapabilities := e.exercisedCapabilities + s.capabilities)])
  {
    hide ExtractAliases;
  }

  lemma LinkEquation(d: Directory, aliases: seq<Alias>, id: string, s: Sighting)
    requires id in d.entities
    ensures AddCapabilities(Link(d, aliases, id, s.event), id, s.capabilities)
         == Directory(LinkAliases(d.aliases, aliases, id), d.entities[id := Booked(d.entities[id], s)])
  {
  }

  lemma FoundingEquation(d: Directory, s: Sighting)
    requires ExtractAliases(s.event) != [] && MatchedIds(d, s.event) == []
    ensures var best := Strongest(ExtractAliases(s.event));
            var id := CanonicalId(best.key);
            var entity := NewEntity(id, best.kind, best.name, s.now).(firstSeen := s.event.timestamp);
            && Resolved(d, s.event) == id
            && Step(d, s).aliases == LinkAliases(d.aliases, ExtractAliases(s.event), id)
            && Step(d, s).entities == d.entities[id := Booked(entity, s)]
  {
    hide ExtractAliases, MatchedIds, Touch, Strongest;
    LinkEquation(Create(d, ExtractAliases(s.event), s.event, s.now), ExtractAliases(s.event), Resolved(d, s.event), s);
  }

  lemma MatchingEquation(d: Directory, s: Sighting)
    requires ExtractAliases(s.event) != [] && MatchedIds(d, s.event) != []
    requires Resolved(d, s.event) in AbsorbAll(d, MatchedIds(d, s.event), Resolved(d, s.event)).entities
    ensures var id := Resolved(d, s.event);
            var d1 := AbsorbAll(d, MatchedIds(d, s.event), id);
            && id == Highest(d.entities, MatchedIds(d, s.event))
            && Step(d, s).aliases == LinkAliases(d1.aliases, ExtractAliases(s.event), id)
            && Step(d, s).entities == d1.entities[id := Booked(d1.entities[id], s)]
  {
    hide ExtractAliases, MatchedIds, Touch, AbsorbAll, Highest;
    LinkEquation(AbsorbAll(d, MatchedIds(d, s.event), Resolved(d, s.event)), ExtractAliases(s.event),
                 Resolved(d, s.event), s);
  }

  lemma FallbackSummarises(h: seq<Sighting>, s: Sighting, entity: Entity, t: Tally)
    requires ExtractAliases(s.event) == []
    requires var id := FallbackId(s.event.appId);
             || (Summarises(entity, id, t) && WellTyped(entity))
             || (entity == NewEntity(id, Host, s.event.appId, s.now) && t == NOTHING)
    ensures var e := entity.(lastSeen := s.event.timestamp, eventCount := entity.eventCount + 1,
                             appsSeen := entity.appsSeen + {s.event.appId},
                             exercisedCapabilities := entity.exercisedCapabilities + s.capabilities);
            Summarises(e, FallbackId(s.event.appId), Plus(t, Share(h, s))) && WellTyped(e)
  {
    hide ExtractAliases;
    var id := FallbackId(s.event.appId);
    assert id[10] == 'a';
  }

  lemma FallbackStep(d: Directory, h: seq<Sighting>, s: Sighting)
    requires Sound(d, h) && ExtractAliases(s.event) == []
    ensures Sound(Step(d, s), h + [s]) && Step(d, s).aliases == d.aliases
  {
    hide Step, Placed, TallyFor, Share, Summarises, WellTyped, ExtractAliases;
    var id := FallbackId(s.event.appId);
    assert id[10] == 'a';
    FallbackEquation(d, s);
    if id in d.entities {
      assert Accounted(d, h, id);
      FallbackSummarises(h, s, d.entities[id], TallyFor(h, d.aliases, id));
    } else {
      TallyOfStranger(h, d, id);
      FallbackSummarises(h, s, NewEntity(id, Host, s.event.appId, s.now), NOTHING);
    }
    assert Keys(s.event) == {};
    SoundBooking(d, h, s, id, Step(d, s));
  }

  /** An event with aliases none of which is known founds a new entity under a fresh id. */
  lemma FoundingStep(d: Directory, h: seq<Sighting>, s: Sighting)
    requires Sound(d, h) && KnowsSeen(d, h) && ExtractAliases(s.event) != [] && MatchedIds(d, s.event) == []
    ensures Sound(Step(d, s), h + [s])
    ensures Resolved(d, s.event) !in d.entities
  {
    hide Step, Resolved, Placed, TallyFor, Share, Summarises, WellTyped, Strongest, MatchedIds, Touch, ExtractAliases,
      LinkAliases;
    var e, id, d' := s.event, Resolved(d, s.event), Step(d, s);
    var aliases := ExtractAliases(e);
    var best := Strongest(aliases);
    FoundingEquation(d, s);
    MatchedFacts(d, e);
    StrongestOfEvent(e);
    AliasShape(e, best);
    assert best.key in Keys(e);
    assert id in d.entities ==> Accounted(d, h, id);
    assert id !in d.entities;
    BookedNew(h, s, best);
    TallyOfStranger(h, d, id);
    LinkAliasesFacts(d.aliases, aliases, id);
    SoundBooking(d, h, s, id, d');
  }

  lemma MatchedResolves(d: Directory, e: Event)
    requires ExtractAliases(e) != [] && MatchedIds(d, e) != []
    ensures Resolved(d, e) == Highest(d.entities, MatchedIds(d, e))
  {
  }

  /** The merges that precede the linking of an event. */
  lemma Settling(d: Directory, h: seq<Sighting>, e: Event)
    requires Sound(d, h) && ExtractAliases(e) != [] && MatchedIds(d, e) != []
    ensures var ids, id := MatchedIds(d, e), Resolved(d, e);
            var d1 := AbsorbAll(d, ids, id);
            && id in ids && id in d1.entities && !IsFallback(id) && Sound(d1, h)
            && d1.aliases.Keys == d.aliases.Keys
            && (forall a :: a in d.aliases ==> d1.aliases[a] == if d.aliases[a] in ids then id else d.aliases[a])
  {
    hide Sound, Placed, Highest, MatchedIds, ExtractAliases, Resolved, AbsorbAll;
    var ids := MatchedIds(d, e);
    MatchedFacts(d, e);
    HighestFacts(d.entities, ids);
    MatchedResolves(d, e);
    forall x | x in ids ensures x in d.entities && !IsFallback(x) {
      MatchesAreLive(d, h, e, x);
    }
    SoundAbsorbAll(d, h, ids, Highest(d.entities, ids));
  }

  lemma MatchesAreLive(d: Directory, h: seq<Sighting>, e: Event, x: string)
    requires Sound(d, h) && x in MatchedIds(d, e)
    ensures x in d.entities && !IsFallback(x)
  {
    MatchedFacts(d, e);
  }

  lemma MatchingBooks(d: Directory, h: seq<Sighting>, s: Sighting)
    requires Sound(d, h) && ExtractAliases(s.event) != [] && MatchedIds(d, s.event) != []
    ensures Books(AbsorbAll(d, MatchedIds(d, s.event), Resolved(d, s.event)), s, Resolved(d, s.event), Step(d, s))
  {
    hide Sound, Step, Resolved, Booked, AbsorbAll, Highest, MatchedIds, ExtractAliases, LinkAliases;
    var e, ids, id := s.event, MatchedIds(d, s.event), Resolved(d, s.event);
    Settling(d, h, e);
    MatchingEquation(d, s);
    MatchedFacts(d, e);
    LinkAliasesFacts(AbsorbAll(d, ids, id).aliases, ExtractAliases(e), id);
  }

  lemma MatchedIsKnown(d: Directory, h: seq<Sighting>, e: Event)
    requires KnowsSeen(d, h) && MatchedIds(d, e) != []
    ensures !Newcomer(h, e)
  {
    hide MatchedIds, ExtractAliases;
    MatchedFacts(d, e);
  }

  /** An event some of whose aliases are known merges the entities they point to. */
  lemma MatchingStep(d: Directory, h: seq<Sighting>, s: Sighting)
    requires Sound(d, h) && KnowsSeen(d, h) && ExtractAliases(s.event) != [] && MatchedIds(d, s.event) != []
    ensures Sound(Step(d, s), h + [s])
  {
    hide Step, Resolved, AllPlaced, AliasesLive, TallyFor, Share, Summarises, WellTyped, Booked, AbsorbAll, MatchedIds,
      ExtractAliases, LinkAliases, Newcomer, KnowsSeen, Books, Keys;
    var id := Resolved(d, s.event);
    var d1 := AbsorbAll(d, MatchedIds(d, s.event), id);
    Settling(d, h, s.event);
    MatchingBooks(d, h, s);
    MatchingEquation(d, s);
    MatchedIsKnown(d, h, s.event);
    assert Accounted(d1, h, id);
    BookedKnown(h, s, id, d1.entities[id], TallyFor(h, d1.aliases, id));
    assert Rooted(Step(d, s), id) by { RootKept(d1, s, id, Step(d, s)); }
    SoundBooking(d1, h, s, id, Step(d, s));
  }

  lemma RootKept(d: Directory, s: Sighting, id: string, d': Directory)
    requires Books(d, s, id, d') && Rooted(d, id)
    ensures Rooted(d', id)
  {
  }

  /** The alias map after one step: the event's aliases and all aliases of the entities it touches point to
      the resolved id, which is fresh or one of those entities; the others stay. */
  lemma StepAliases(d: Directory, h: seq<Sighting>, s: Sighting)
    requires Sound(d, h)
    ensures var m, m', keys, id := d.aliases, Step(d, s).aliases, Keys(s.event), Resolved(d, s.event);
            && (forall a :: a in m' <==> a in m || a in keys)
            && (forall a :: a in m' ==>
                  m'[a] == if a in keys || (a in m && keys != {} && m[a] in MatchedIds(d, s.event)) then id else m[a])
            && (keys != {} ==> if MatchedIds(d, s.event) == [] then id !in m.Values else id in MatchedIds(d, s.event))
  {
    hide Step, Resolved, Booked, AbsorbAll, MatchedIds, ExtractAliases, LinkAliases, Strongest, Placed, Accounted;
    var e, ids, id := s.event, MatchedIds(d, s.event), Resolved(d, s.event);
    var aliases := ExtractAliases(e);
    MatchedFacts(d, e);
    if aliases == [] {
      FallbackEquation(d, s);
    } else if ids == [] {
      assert aliases[0].key in Keys(e);
      FoundingEquation(d, s);
      LinkAliasesFacts(d.aliases, aliases, id);
      if id in d.aliases.Values {
        FoundingIsFresh(d, h, e);
      }
    } else {
      Settling(d, h, e);
      MatchingEquation(d, s);
      LinkAliasesFacts(AbsorbAll(d, ids, id).aliases, aliases, id);
    }
  }

  lemma FoundingIsFresh(d: Directory, h: seq<Sighting>, e: Event)
    requires Sound(d, h) && ExtractAliases(e) != [] && MatchedIds(d, e) == []
    ensures Resolved(d, e) !in d.entities
  {
    var best := Strongest(ExtractAliases(e));
    StrongestOfEvent(e);
    AliasShape(e, best);
    MatchedFacts(d, e);
    assert best.key in Keys(e);
    hide ExtractAliases, Strongest;
    assert Resolved(d, e) in d.entities ==> Accounted(d, h, Resolved(d, e));
  }

  lemma SeenStep(h: seq<Sighting>, s: Sighting, a: string)
    ensures Seen(h + [s], a) <==> Seen(h, a) || a in Keys(s.event)
  {
    hide ExtractAliases;
    var h' := h + [s];
    if i :| 0 <= i < |h| && a in Keys(h[i].event) {
      assert h'[i] == h[i];
    }
    assert h'[|h|] == s;
  }

  // ---------- Every history ----------

  lemma StepKnowsSeen(d: Directory, before: seq<Sighting>, s: Sighting)
    requires Sound(d, before) && KnowsSeen(d, before)
    ensures KnowsSeen(Step(d, s), before + [s])
  {
    StepAliases(d, before, s);
    hide Sound, Step, Seen;
    forall a ensures a in Step(d, s).aliases <==> Seen(before + [s], a) {
      SeenStep(before, s, a);
    }
  }

  lemma StepIsSound(d: Directory, before: seq<Sighting>, s: Sighting)
    requires Sound(d, before) && KnowsSeen(d, before)
    ensures Sound(Step(d, s), before + [s]) && KnowsSeen(Step(d, s), before + [s])
  {
    hide *;
    StepKnowsSeen(d, before, s);
    if ExtractAliases(s.event) == [] {
      FallbackStep(d, before, s);
    } else if MatchedIds(d, s.event) == [] {
      FoundingStep(d, before, s);
    } else {
      MatchingStep(d, before, s);
    }
  }

  /** Every reachable directory is sound: aliases point to live entities, entity ids are rooted in their own
      alias (so a founded id is always fresh), and each entity summarises exactly the events it owns. */
  lemma {:induction false} RunIsSound(h: seq<Sighting>)
    ensures Sound(Run(h), h) && KnowsSeen(Run(h), h)
  {
    if h != [] {
      hide Sound, KnowsSeen, Step;
      var before, s := h[..|h| - 1], h[|h| - 1];
      assert h == before + [s];
      RunIsSound(before);
      StepIsSound(Run(before), before, s);
    }
  }

  /** Two aliases occur in one event of the history. */
  ghost predicate Linked(h: seq<Sighting>, a: string, b: string) {
    exists i :: 0 <= i < |h| && a in Keys(h[i].event) && b in Keys(h[i].event)
  }

  ghost predicate Chain(h: seq<Sighting>, p: seq<string>) {
    p != [] && forall k :: 0 <= k < |p| - 1 ==> Linked(h, p[k], p[k + 1])
  }

  ghost predicate Connected(h: seq<Sighting>, a: string, b: string) {
    exists p :: Chain(h, p) && p[0] == a && p[|p| - 1] == b
  }

  lemma ConnectedStep(h: seq<Sighting>, s: Sighting, a: string, b: string)
    requires Connected(h, a, b)
    ensures Connected(h + [s], a, b)
  {
    hide Keys;
    var h' := h + [s];
    var p :| Chain(h, p) && p[0] == a && p[|p| - 1] == b;
    forall k | 0 <= k < |p| - 1 ensures Linked(h', p[k], p[k + 1]) {
      assert Linked(h, p[k], p[k + 1]);
      var i :| 0 <= i < |h| && p[k] in Keys(h[i].event) && p[k + 1] in Keys(h[i].event);
      assert h'[i] == h[i];
    }
    assert Chain(h', p);
  }

  lemma ConnectedJoin(h: seq<Sighting>, a: string, b: string, c: string, d: string)
    requires Connected(h, a, b) && Linked(h, b, c) && Connected(h, c, d)
    ensures Connected(h, a, d)
  {
    hide Linked;
    var p :| Chain(h, p) && p[0] == a && p[|p| - 1] == b;
    var q :| Chain(h, q) && q[0] == c && q[|q| - 1] == d;
    var r := p + q;
    forall k | 0 <= k < |r| - 1 ensures Linked(h, r[k], r[k + 1]) {
      if k < |p| - 1 {
        assert Linked(h, p[k], p[k + 1]);
      } else if k >= |p| {
        assert Linked(h, q[k - |p|], q[k - |p| + 1]);
      }
    }
    assert Chain(h, r);
  }

  lemma ConnectedSelf(h: seq<Sighting>, a: string)
    ensures Connected(h, a, a)
  {
    assert Chain(h, [a]);
  }

  ghost predicate JoinsConnected(h: seq<Sighting>, m: map<string, string>) {
    forall x, y :: x in m && y in m && m[x] == m[y] ==> Connected(h, x, y)
  }

  /** An alias that the step repoints to the resolved id is connected to an alias of the event, and back. */
  lemma TouchedIsConnected(before: seq<Sighting>, s: Sighting, a: string) returns (k: string)
    requires Run(before + [s]) == Step(Run(before), s)
    requires || a in Keys(s.event)
             || (a in Run(before).aliases && Run(before).aliases[a] in MatchedIds(Run(before), s.event))
    requires JoinsConnected(before, Run(before).aliases)
    ensures k in Keys(s.event) && Connected(before + [s], a, k) && Connected(before + [s], k, a)
  {
    hide Step, Run, Connected;
    var d := Run(before);
    if a in Keys(s.event) {
      k := a;
      ConnectedSelf(before + [s], a);
    } else {
      MatchedFacts(d, s.event);
      k :| k in Keys(s.event) && k in d.aliases && d.aliases[k] == d.aliases[a];
      ConnectedStep(before, s, a, k);
      ConnectedStep(before, s, k, a);
    }
  }

  lemma LastIsLinked(before: seq<Sighting>, s: Sighting, k: string, l: string)
    requires k in Keys(s.event) && l in Keys(s.event)
    ensures Linked(before + [s], k, l)
  {
    hide Keys;
    assert (before + [s])[|before|] == s;
  }

  lemma {:induction false} SameEntityIsConnected(h: seq<Sighting>, a: string, b: string)
    requires a in Run(h).aliases && b in Run(h).aliases && Run(h).aliases[a] == Run(h).aliases[b]
    ensures Connected(h, a, b)
    decreases |h|
  {
    if h != [] {
      hide Step, Sound, KnowsSeen, MatchedIds, Resolved, ExtractAliases, Connected, Linked, Keys;
      var before, s := h[..|h| - 1], h[|h| - 1];
      assert h == before + [s];
      var d := Run(before);
      RunIsSound(before);
      StepAliases(d, before, s);
      forall x, y | x in d.aliases && y in d.aliases && d.aliases[x] == d.aliases[y] ensures Connected(before, x, y) {
        SameEntityIsConnected(before, x, y);
      }
      if Run(h).aliases[a] == Resolved(d, s.event) && Keys(s.event) != {} {
        var k := TouchedIsConnected(before, s, a);
        var l := TouchedIsConnected(before, s, b);
        LastIsLinked(before, s, k, l);
        ConnectedJoin(h, a, k, l, b);
      } else {
        ConnectedStep(before, s, a, b);
      }
    }
  }

  lemma {:induction false} ChainIsOneEntity(h: seq<Sighting>, p: seq<string>)
    requires Chain(h, p) && p[0] in Run(h).aliases
    ensures p[|p| - 1] in Run(h).aliases && Run(h).aliases[p[|p| - 1]] == Run(h).aliases[p[0]]
    decreases |p|
  {
    if |p| > 1 {
      hide Run, Keys, Owner, KnowsSeen;
      var init := p[..|p| - 1];
      forall k | 0 <= k < |init| - 1 ensures Linked(h, init[k], init[k + 1]) {
        assert Linked(h, p[k], p[k + 1]);
      }
      ChainIsOneEntity(h, init);
      RunIsSound(h);
      assert Linked(h, p[|p| - 2], p[|p| - 2 + 1]);
      var i :| 0 <= i < |h| && p[|p| - 2] in Keys(h[i].event) && p[|p| - 1] in Keys(h[i].event);
      assert Placed(Run(h), h[i].event);
    }
  }

  /** The resolver knows exactly the aliases it has seen. */
  lemma {:induction false} KnownIffSeen(h: seq<Sighting>, a: string)
    ensures a in Run(h).aliases <==> Seen(h, a)
  {
    hide Run, Seen, Sound;
    RunIsSound(h);
  }

  predicate SameEntity(d: Directory, a: string, b: string) {
    a in d.aliases && b in d.aliases && d.aliases[a] == d.aliases[b]
  }

  /** The resolver computes the connected components: a seen alias has one canonical id with another exactly when
      a chain of events that share aliases leads from one to the other. */
  lemma {:induction false} SameEntityIffConnected(h: seq<Sighting>, a: string, b: string)
    requires Seen(h, a)
    ensures SameEntity(Run(h), a, b) <==> Connected(h, a, b)
  {
    KnownIffSeen(h, a);
    hide Run, Seen;
    if SameEntity(Run(h), a, b) {
      SameEntityIsConnected(h, a, b);
    }
    if Connected(h, a, b) {
      var p :| Chain(h, p) && p[0] == a && p[|p| - 1] == b;
      ChainIsOneEntity(h, p);
    }
  }

  ghost function Counts(d: Directory): map<string, nat> {
    map id | id in d.entities :: d.entities[id].eventCount
  }

  ghost function TallyCounts(g: seq<Sighting>, d: Directory): map<string, nat> {
    map id | id in d.entities :: TallyFor(g, d.aliases, id).count
  }

  lemma {:induction false} TalliesCoverHistory(g: seq<Sighting>, d: Directory)
    requires AllPlaced(d, g)
    ensures Sum(TallyCounts(g, d)) == |g|
  {
    hide Placed, Share, Owner, Plus;
    if g == [] {
      ZeroesSumToZero(TallyCounts(g, d));
    } else {
      var before, s := g[..|g| - 1], g[|g| - 1];
      TalliesCoverHistory(before, d);
      var owner, earlier := Owner(d.aliases, s.event), TallyCounts(before, d);
      OwnerIsLive(d, s.event);
      PlusShare(TallyFor(before, d.aliases, owner), before, s);
      assert TallyCounts(g, d) == earlier[owner := earlier[owner] + 1];
      SumUpdate(earlier, owner, earlier[owner] + 1);
    }
  }

  lemma OwnerIsLive(d: Directory, e: Event)
    requires Placed(d, e)
    ensures Owner(d.aliases, e) in d.entities
  {
  }

  lemma PlusShare(a: Tally, h: seq<Sighting>, s: Sighting)
    ensures Plus(a, Share(h, s)).count == a.count + 1
  {
  }

  lemma {:induction false} ZeroesSumToZero<K>(m: map<K, nat>)
    requires forall k :: k in m ==> m[k] == 0
    ensures Sum(m) == 0
    decreases |m|
  {
    if m != map[] {
      var k :| k in m;
      SumSplit(m, k);
      ZeroesSumToZero(m - {k});
    }
  }

  /** No event count is lost or counted twice, through any merges. */
  lemma {:induction false} EventsAreConserved(h: seq<Sighting>)
    ensures Sum(Counts(Run(h))) == |h|
  {
    hide Run, TallyFor, Placed, Rooted, WellTyped;
    var d := Run(h);
    RunIsSound(h);
    TalliesCoverHistory(h, d);
    forall id | id in d.entities ensures d.entities[id].eventCount == TallyFor(h, d.aliases, id).count {
      assert Accounted(d, h, id);
    }
    assert Counts(d) == TallyCounts(h, d);
  }

  /** The identifier of each kind that an event mentions. */
  function IdOfKind(e: Event, kind: EntityType): Option<string> {
    match kind
    case Host => e.ip
    case Session => e.SessionId()
    case Workload => e.containerId
    case User => e.UserId()
  }

  function TallyOfKind(t: Tally, kind: EntityType): set<string> {
    match kind
    case Host => t.ips
    case Session => t.sessions
    case Workload => t.containers
    case User => t.users
  }

  function LinkedOfKind(e: Entity, kind: EntityType): set<string> {
    match kind
    case Host => e.linkedIps
    case Session => e.linkedSessions
    case Workload => e.linkedContainers
    case User => e.linkedUserIds
  }

  /** The event belongs to the entity by an alias, and mentions v. */
  ghost predicate Brings(m: map<string, string>, e: Event, id: string, kind: EntityType, v: string) {
    ExtractAliases(e) != [] && Owner(m, e) == id && IdOfKind(e, kind) == Some(v)
  }

  lemma ShareBrings(h: seq<Sighting>, s: Sighting, t: Tally, kind: EntityType, v: string)
    ensures v in TallyOfKind(Plus(t, Share(h, s)), kind)
       <==> v in TallyOfKind(t, kind) || (ExtractAliases(s.event) != [] && IdOfKind(s.event, kind) == Some(v))
  {
    hide ExtractAliases, Newcomer;
  }

  lemma NothingHolds(m: map<string, string>, id: string, kind: EntityType, v: string)
    ensures v !in TallyOfKind(TallyFor([], m, id), kind)
  {
  }

  lemma TallyStep(before: seq<Sighting>, s: Sighting, m: map<string, string>, id: string, kind: EntityType, v: string)
    ensures v in TallyOfKind(TallyFor(before + [s], m, id), kind)
       <==> v in TallyOfKind(TallyFor(before, m, id), kind) || Brings(m, s.event, id, kind, v)
  {
    hide ExtractAliases, Owner, TallyOfKind, IdOfKind, Plus, Share;
    assert (before + [s])[..|before|] == before;
    ShareBrings(before, s, TallyFor(before, m, id), kind, v);
    OwnerWithoutAliases(m, s.event);
  }

  lemma OwnerWithoutAliases(m: map<string, string>, e: Event)
    ensures ExtractAliases(e) == [] ==> Owner(m, e) == FallbackId(e.appId)
  {
  }

  lemma {:induction false} TallyHolds(h: seq<Sighting>, m: map<string, string>, id: string, kind: EntityType, v: string)
    ensures v in TallyOfKind(TallyFor(h, m, id), kind)
       <==> exists i :: 0 <= i < |h| && Brings(m, h[i].event, id, kind, v)
  {
    hide *;
    if h == [] {
      NothingHolds(m, id, kind, v);
    } else {
      var before, s := h[..|h| - 1], h[|h| - 1];
      assert h == before + [s];
      TallyHolds(before, m, id, kind, v);
      TallyStep(before, s, m, id, kind, v);
      if i :| 0 <= i < |before| && Brings(m, before[i].event, id, kind, v) {
        assert h[i] == before[i];
      }
    }
  }

  lemma KeyHasKind(e: Event, a: Alias, kind: EntityType, v: string)
    requires a in ExtractAliases(e) && a.key == Prefix(kind) + v
    ensures a.kind == kind && a.name == v
  {
    AliasShape(e, a);
    hide ExtractAliases;
    assert a.key[0] == Prefix(a.kind)[0] == Prefix(kind)[0];
    assert a.name == a.key[|Prefix(kind)|..] == v;
  }

  lemma AliasOfKind(e: Event, a: Alias)
    requires a in ExtractAliases(e)
    ensures IdOfKind(e, a.kind) == Some(a.name)
  {
  }

  lemma KeyOfKind(e: Event, kind: EntityType, v: string)
    requires !IsBlank(v)
    ensures Prefix(kind) + v in Keys(e) <==> IdOfKind(e, kind) == Some(v)
  {
    var key := Prefix(kind) + v;
    if IdOfKind(e, kind) == Some(v) {
      assert Alias(key, kind, v) in ExtractAliases(e);
    }
    hide ExtractAliases;
    if key in Keys(e) {
      var a :| a in ExtractAliases(e) && a.key == key;
      KeyHasKind(e, a, kind, v);
      AliasOfKind(e, a);
    }
  }

  /** The non-blank identifiers linked to a live entity are exactly the aliases of that kind pointing to it. */
  lemma LinkedIdsAreAliases(h: seq<Sighting>, id: string, kind: EntityType, v: string)
    requires id in Run(h).entities && !IsBlank(v)
    ensures var alias := Prefix(kind) + v;
            v in LinkedOfKind(Run(h).entities[id], kind) <==> alias in Run(h).aliases && Run(h).aliases[alias] == id
  {
    hide Run, ExtractAliases, IdOfKind, TallyFor, Owner, Prefix, Keys, IsBlank;
    var d, alias := Run(h), Prefix(kind) + v;
    RunIsSound(h);
    assert Accounted(d, h, id);
    TallyHolds(h, d.aliases, id, kind, v);
    if v in LinkedOfKind(d.entities[id], kind) {
      var i :| 0 <= i < |h| && Brings(d.aliases, h[i].event, id, kind, v);
      KeyOfKind(h[i].event, kind, v);
      assert Placed(d, h[i].event);
      OwnerIsPlaced(d, h[i].event);
    }
    if alias in d.aliases && d.aliases[alias] == id {
      assert Seen(h, alias);
      var i :| 0 <= i < |h| && alias in Keys(h[i].event);
      KeyOfKind(h[i].event, kind, v);
      assert Placed(d, h[i].event);
      OwnerIsPlaced(d, h[i].event);
    }
  }

  /** A live entity has type User exactly when users are linked to it. */
  lemma TypeFollowsUsers(h: seq<Sighting>, id: string)
    requires id in Run(h).entities
    ensures Run(h).entities[id].entityType == User <==> Run(h).entities[id].linkedUserIds != {}
  {
    hide Run;
    RunIsSound(h);
    assert Accounted(Run(h), h, id);
  }

  ghost predicate Named(id: string) {
    (exists app :: id == FallbackId(app)) || (|id| >= 10 && id == CanonicalId(id[10..]) && !IsFallback(id))
  }

  lemma {:induction false} AbsorbAllShrinks(d: Directory, ids: seq<string>, t: string)
    ensures AbsorbAll(d, ids, t).entities.Keys <= d.entities.Keys
  {
    if ids != [] {
      AbsorbAllShrinks(d, ids[..|ids| - 1], t);
    }
  }

  lemma StepIsNamed(d: Directory, s: Sighting, id: string)
    requires id in Step(d, s).entities && id !in d.entities
    ensures Named(id)
  {
    AbsorbAllShrinks(d, MatchedIds(d, s.event), Resolved(d, s.event));
    if ExtractAliases(s.event) != [] {
      StrongestFacts(ExtractAliases(s.event));
      AliasShape(s.event, Strongest(ExtractAliases(s.event)));
    }
    hide ExtractAliases, MatchedIds, AbsorbAll, Strongest, Touch;
    if ExtractAliases(s.event) == [] {
      assert id == FallbackId(s.event.appId);
    } else {
      assert id == CanonicalId(Strongest(ExtractAliases(s.event)).key);
    }
  }

  lemma {:induction false} RunIsNamed(h: seq<Sighting>, id: string)
    requires id in Run(h).entities
    ensures Named(id)
  {
    if h != [] {
      hide Named, Step;
      var before, s := h[..|h| - 1], h[|h| - 1];
      if id in Run(before).entities {
        RunIsNamed(before, id);
      } else {
        StepIsNamed(Run(before), s, id);
      }
    }
  }

  /** A live entity stands for an application, or is called after an alias that points to it; so the id that
      the founding of an entity makes out of an unknown alias is always fresh. */
  lemma LiveIdsAreRooted(h: seq<Sighting>, id: string)
    requires id in Run(h).entities
    ensures || (exists app :: id == FallbackId(app))
            || exists a :: a in Run(h).aliases && id == CanonicalId(a) && Run(h).aliases[a] == id
  {
    hide Run;
    RunIsNamed(h, id);
    RunIsSound(h);
    assert Accounted(Run(h), h, id);
  }
}
