/** The identity resolver: a union-find over the aliases that events mention, which merges whole
    entities and repoints every alias of the entity that disappears. */
module Identity {
  import opened Basics
  import opened StringOrder

  datatype EntityType = Host | Session | Workload | User

  /** The derived order: Host, Session, Workload, User. */
  function Rank(t: EntityType): nat {
    match t
    case Host => 0
    case Session => 1
    case Workload => 2
    case User => 3
  }

  datatype Actor = Actor(userId: Option<string>, sessionId: Option<string>)

  datatype Event = Event(timestamp: Time, appId: string, actor: Option<Actor>,
                         containerId: Option<string>, ip: Option<string>, pid: Option<nat>)
  {
    function UserId(): Option<string> {
      if actor.Some? then actor.value.userId else None
    }

    function SessionId(): Option<string> {
      if actor.Some? then actor.value.sessionId else None
    }
  }

  datatype Entity = Entity(entityId: string, entityType: EntityType, displayName: string,
                           linkedIps: set<string>, linkedSessions: set<string>,
                           linkedUserIds: set<string>, linkedContainers: set<string>,
                           linkedPids: set<nat>, appsSeen: set<string>,
                           exercisedCapabilities: set<string>, riskScore: nat,
                           firstSeen: Time, lastSeen: Time, eventCount: nat)

  function NewEntity(id: string, kind: EntityType, name: string, now: Time): Entity {
    Entity(id, kind, name, {}, {}, {}, {}, {}, {}, {}, 0, now, now, 0)
  }

  /** `CanonicalEntity::merge`: e absorbs other and keeps its own id, type and name. */
  function Merge(e: Entity, other: Entity): Entity {
    e.(linkedIps := e.linkedIps + other.linkedIps,
       linkedSessions := e.linkedSessions + other.linkedSessions,
       linkedUserIds := e.linkedUserIds + other.linkedUserIds,
       linkedContainers := e.linkedContainers + other.linkedContainers,
       linkedPids := e.linkedPids + other.linkedPids,
       appsSeen := e.appsSeen + other.appsSeen,
       exercisedCapabilities := e.exercisedCapabilities + other.exercisedCapabilities,
       eventCount := e.eventCount + other.eventCount,
       riskScore := Max(e.riskScore, other.riskScore),
       firstSeen := Min(e.firstSeen, other.firstSeen),
       lastSeen := Max(e.lastSeen, other.lastSeen))
  }

  datatype Alias = Alias(key: string, kind: EntityType, name: string)

  function AliasFor(prefix: string, kind: EntityType, id: Option<string>): seq<Alias> {
    if id.Some? && !IsBlank(id.value) then [Alias(prefix + id.value, kind, id.value)] else []
  }

  function ExtractAliases(e: Event): seq<Alias> {
    AliasFor("user:", User, e.UserId()) + AliasFor("session:", Session, e.SessionId())
    + AliasFor("container:", Workload, e.containerId) + AliasFor("ip:", Host, e.ip)
  }

  /** The alias keys of an event. */
  function Keys(e: Event): set<string> {
    set a | a in ExtractAliases(e) :: a.key
  }

  /** `max_by_key` on the type: of several maximal elements the last. */
  function Strongest(aliases: seq<Alias>): Alias
    requires aliases != []
  {
    var last := aliases[|aliases| - 1];
    if |aliases| == 1 then last
    else
      var best := Strongest(aliases[..|aliases| - 1]);
      if Rank(last.kind) >= Rank(best.kind) then last else best
  }

  /** The two maps of the resolver. */
  datatype Directory = Directory(aliases: map<string, string>, entities: map<string, Entity>)

  const EMPTY := Directory(map[], map[])

  function FallbackId(appId: string): string {
    "canonical:app:" + appId
  }

  function CanonicalId(alias: string): string {
    "canonical:" + alias
  }

  /** An event without aliases is booked on an entity that stands for its application. */
  function ResolveFallback(d: Directory, e: Event, now: Time): Directory {
    var id := FallbackId(e.appId);
    var entity := if id in d.entities then d.entities[id] else NewEntity(id, Host, e.appId, now);
    d.(entities := d.entities[id := entity.(lastSeen := e.timestamp,
                                            eventCount := entity.eventCount + 1,
                                            appsSeen := entity.appsSeen + {e.appId})])
  }

  /** The canonical ids the aliases already have, in the order of the aliases. */
  function Matches(m: map<string, string>, aliases: seq<Alias>): seq<string> {
    if aliases == [] then []
    else (if aliases[0].key in m then [m[aliases[0].key]] else []) + Matches(m, aliases[1..])
  }

  function RankOf(entities: map<string, Entity>, id: string): nat {
    if id in entities then Rank(entities[id].entityType) else Rank(Host)
  }

  /** The first of the ids whose type is highest. */
  function Highest(entities: map<string, Entity>, ids: seq<string>): string
    requires ids != []
  {
    var last := ids[|ids| - 1];
    if |ids| == 1 then last
    else
      var best := Highest(entities, ids[..|ids| - 1]);
      if last in entities && RankOf(entities, last) > RankOf(entities, best) then last else best
  }

  function Repoint(m: map<string, string>, from: string, to: string): map<string, string> {
    map a | a in m :: if m[a] == from then to else m[a]
  }

  /** Entity id disappears into entity target, and its aliases follow. */
  function Absorb(d: Directory, id: string, target: string): Directory {
    if id == target || id !in d.entities then d
    else
      var rest := d.entities - {id};
      Directory(Repoint(d.aliases, id, target),
                if target in rest then rest[target := Merge(rest[target], d.entities[id])] else rest)
  }

  function AbsorbAll(d: Directory, ids: seq<string>, target: string): Directory {
    if ids == [] then d
    else Absorb(AbsorbAll(d, ids[..|ids| - 1], target), ids[|ids| - 1], target)
  }

  lemma AbsorbSelf(d: Directory, id: string)
    ensures AbsorbAll(d, [id], id) == d
  {
    assert [id][..0] == [];
  }

  function Create(d: Directory, aliases: seq<Alias>, e: Event, now: Time): Directory
    requires aliases != []
  {
    var best := Strongest(aliases);
    var id := CanonicalId(best.key);
    d.(entities := d.entities[id := NewEntity(id, best.kind, best.name, now).(firstSeen := e.timestamp)])
  }

  function LinkAliases(m: map<string, string>, aliases: seq<Alias>, id: string): map<string, string> {
    if aliases == [] then m
    else LinkAliases(m, aliases[..|aliases| - 1], id)[aliases[|aliases| - 1].key := id]
  }

  function SetOf<T>(x: Option<T>): set<T> {
    if x.Some? then {x.value} else {}
  }

  /** The details an event adds to its entity. */
  function Touch(entity: Entity, e: Event): Entity {
    var elevate := e.UserId().Some? && Rank(entity.entityType) < Rank(User);
    entity.(linkedIps := entity.linkedIps + SetOf(e.ip),
            linkedUserIds := entity.linkedUserIds + SetOf(e.UserId()),
            entityType := if elevate then User else entity.entityType,
            displayName := if elevate then e.UserId().value else entity.displayName,
            linkedSessions := entity.linkedSessions + SetOf(e.SessionId()),
            linkedContainers := entity.linkedContainers + SetOf(e.containerId),
            linkedPids := entity.linkedPids + SetOf(e.pid),
            appsSeen := entity.appsSeen + {e.appId},
            eventCount := entity.eventCount + 1,
            lastSeen := Max(entity.lastSeen, e.timestamp))
  }

  function Link(d: Directory, aliases: seq<Alias>, id: string, e: Event): Directory {
    Directory(LinkAliases(d.aliases, aliases, id),
              if id in d.entities then d.entities[id := Touch(d.entities[id], e)] else d.entities)
  }

  function MatchedIds(d: Directory, e: Event): seq<string> {
    SortDedup(Matches(d.aliases, ExtractAliases(e)))
  }

  /** The id an event resolves to. */
  function Resolved(d: Directory, e: Event): string {
    var aliases := ExtractAliases(e);
    if aliases == [] then FallbackId(e.appId)
    else if MatchedIds(d, e) == [] then CanonicalId(Strongest(aliases).key)
    else Highest(d.entities, MatchedIds(d, e))
  }

  /** `resolve_and_update` on values. */
  function Resolve(d: Directory, e: Event, now: Time): Directory {
    var aliases := ExtractAliases(e);
    if aliases == [] then ResolveFallback(d, e, now)
    else
      var id := Resolved(d, e);
      var settled := if MatchedIds(d, e) == [] then Create(d, aliases, e, now)
                     else AbsorbAll(d, MatchedIds(d, e), id);
      Link(settled, aliases, id, e)
  }

  function AddCapabilities(d: Directory, id: string, capabilities: set<string>): Directory {
    if id in d.entities then
      var entity := d.entities[id];
      d.(entities := d.entities[id := entity.(exercisedCapabilities := entity.exercisedCapabilities + capabilities)])
    else d
  }

  /** One processed event: the event, the clock when it was processed, and the capabilities inferred from it. */
  datatype Sighting = Sighting(event: Event, now: Time, capabilities: set<string>)

  function Step(d: Directory, s: Sighting): Directory {
    AddCapabilities(Resolve(d, s.event, s.now), Resolved(d, s.event), s.capabilities)
  }

  /** The directory after a history of events. */
  function Run(h: seq<Sighting>): Directory {
    if h == [] then EMPTY else Step(Run(h[..|h| - 1]), h[|h| - 1])
  }

  /** The resolver itself, changing its two maps in place. */
  class IdentityResolver {
    var aliasToCanonical: map<string, string>
    var entities: map<string, Entity>

    function Contents(): Directory
      reads this
    {
      Directory(aliasToCanonical, entities)
    }

    constructor ()
      ensures Contents() == EMPTY
    {
      aliasToCanonical := map[];
      entities := map[];
    }

    /** The body of the merge loop for one id that disappears. */
    method MergeInto(id: string, highestId: string)
      requires id != highestId
      modifies this
      ensures Contents() == Absorb(old(Contents()), id, highestId)
    {
      if id in entities {
        var other := entities[id];
        entities := entities - {id};
        if highestId in entities {
          entities := entities[highestId := Merge(entities[highestId], other)];
        }
        var todo := aliasToCanonical.Keys;
        while todo != {}
          invariant todo <= aliasToCanonical.Keys == old(aliasToCanonical).Keys
          invariant entities == Absorb(old(Contents()), id, highestId).entities
          invariant forall a :: a in aliasToCanonical ==>
                      (aliasToCanonical[a] ==
                       if a !in todo && old(aliasToCanonical)[a] == id then highestId else old(aliasToCanonical)[a])
          decreases todo
        {
          var a :| a in todo;
          if aliasToCanonical[a] == id {
            aliasToCanonical := aliasToCanonical[a := highestId];
          }
          todo := todo - {a};
        }
      }
    }

    /** The scan for the matched entity of highest type. */
    method PickHighest(matched: seq<string>) returns (highestId: string)
      requires matched != []
      ensures highestId == Highest(entities, matched)
    {
      highestId := matched[0];
      var highestRank := RankOf(entities, matched[0]);
      for i := 1 to |matched|
        invariant highestId == Highest(entities, matched[..i])
        invariant highestRank == RankOf(entities, highestId)
      {
        assert matched[..i + 1][..i] == matched[..i];
        if matched[i] in entities && Rank(entities[matched[i]].entityType) > highestRank {
          highestId, highestRank := matched[i], Rank(entities[matched[i]].entityType);
        }
      }
      assert matched[..|matched|] == matched;
    }

    /** The merge loop. */
    method MergeMatched(matched: seq<string>, highestId: string)
      modifies this
      ensures Contents() == AbsorbAll(old(Contents()), matched, highestId)
    {
      for i := 0 to |matched|
        invariant Contents() == AbsorbAll(old(Contents()), matched[..i], highestId)
      {
        assert matched[..i + 1][..i] == matched[..i];
        if matched[i] != highestId {
          MergeInto(matched[i], highestId);
        }
      }
      assert matched[..|matched|] == matched;
    }

    /** The linking of the event's aliases and the update of its entity. */
    method LinkEvent(aliases: seq<Alias>, id: string, event: Event)
      modifies this
      ensures Contents() == Link(old(Contents()), aliases, id, event)
    {
      for i := 0 to |aliases|
        invariant aliasToCanonical == LinkAliases(old(aliasToCanonical), aliases[..i], id)
        invariant entities == old(entities)
      {
        assert aliases[..i + 1][..i] == aliases[..i];
        aliasToCanonical := aliasToCanonical[aliases[i].key := id];
      }
      assert aliases[..|aliases|] == aliases;
      if id in entities {
        entities := entities[id := Touch(entities[id], event)];
      }
    }

    method ResolveAndUpdate(event: Event, now: Time) returns (id: string)
      modifies this
      ensures Contents() == Resolve(old(Contents()), event, now)
      ensures id == Resolved(old(Contents()), event)
    {
      var aliases := ExtractAliases(event);
      if aliases == [] {
        id := FallbackId(event.appId);
        if id !in entities {
          entities := entities[id := NewEntity(id, Host, event.appId, now)];
        }
        var entity := entities[id];
        entities := entities[id := entity.(lastSeen := event.timestamp,
                                           eventCount := entity.eventCount + 1,
                                           appsSeen := entity.appsSeen + {event.appId})];
        return;
      }
      var matched := SortDedup(Matches(aliasToCanonical, aliases));
      if matched == [] {
        var best := Strongest(aliases);
        id := CanonicalId(best.key);
        entities := entities[id := NewEntity(id, best.kind, best.name, now).(firstSeen := event.timestamp)];
      } else if |matched| == 1 {
        id := matched[0];
        AbsorbSelf(Contents(), id);
        assert matched == [id];
      } else {
        id := PickHighest(matched);
        MergeMatched(matched, id);
      }
      LinkEvent(aliases, id, event);
    }

    /** What the correlation engine does with the inferred capabilities, through `get_mut`. */
    method NoteCapabilities(id: string, capabilities: set<string>)
      modifies this
      ensures Contents() == AddCapabilities(old(Contents()), id, capabilities)
    {
      if id in entities {
        var entity := entities[id];
        entities := entities[id := entity.(exercisedCapabilities := entity.exercisedCapabilities + capabilities)];
      }
    }

    method GetByAlias(alias: string) returns (entity: Option<Entity>)
      ensures entity == if alias in aliasToCanonical && aliasToCanonical[alias] in entities
                        then Some(entities[aliasToCanonical[alias]]) else None
    {
      if alias in aliasToCanonical && aliasToCanonical[alias] in entities {
        return Some(entities[aliasToCanonical[alias]]);
      }
      return None;
    }
  }
}
