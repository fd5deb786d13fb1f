/** How canonical ids live and die: an id that another entity has absorbed never comes back, and the events booked on a
    living id are exactly those of its entity that were not booked on an id absorbed since. */
module Lineage {
  import opened Basics
  import opened StringOrder
  import opened Identity
  import opened IdentityTheorems

  /** The id on which event j was booked when it came. */
  function IdAt(h: seq<Sighting>, j: nat): string
    requires j < |h|
  {
    Resolved(Run(h[..j]), h[j].event)
  }

  function OwnerOf(h: seq<Sighting>, j: nat): string
    requires j < |h|
  {
    Owner(Run(h).aliases, h[j].event)
  }

  predicate Alive(h: seq<Sighting>, id: string) {
    id in Run(h).entities
  }

  // ---------- One step ----------

  lemma MatchedNothing(d: Directory, e: Event)
    requires ExtractAliases(e) == []
    ensures MatchedIds(d, e) == []
  {
    MatchedFacts(d, e);
  }

  /** An event makes the id it resolves to live, and the other ids it matches disappear. */
  lemma StepEntities(d: Directory, h: seq<Sighting>, s: Sighting)
    requires Sound(d, h)
    ensures Step(d, s).entities.Keys
         == d.entities.Keys - Elements(MatchedIds(d, s.event)) + {Resolved(d, s.event)}
  {
    hide Step, Resolved, Booked, AbsorbAll, MatchedIds, ExtractAliases, Strongest, Placed, Accounted, Highest;
    var e, ids, id := s.event, MatchedIds(d, s.event), Resolved(d, s.event);
    if ExtractAliases(e) == [] {
      FallbackEquation(d, s);
      MatchedNothing(d, e);
      FallbackResolves(d, e);
    } else if ids == [] {
      FoundingEquation(d, s);
    } else {
      SettledEntities(d, h, e);
      Settling(d, h, e);
      MatchingEquation(d, s);
    }
  }

  lemma FallbackResolves(d: Directory, e: Event)
    requires ExtractAliases(e) == []
    ensures Resolved(d, e) == FallbackId(e.appId) && IsFallback(Resolved(d, e))
  {
    assert FallbackId(e.appId)[10] == 'a';
  }

  lemma SettledEntities(d: Directory, h: seq<Sighting>, e: Event)
    requires Sound(d, h) && ExtractAliases(e) != [] && MatchedIds(d, e) != []
    ensures var ids, id := MatchedIds(d, e), Resolved(d, e);
            AbsorbAll(d, ids, id).entities.Keys == d.entities.Keys - (Elements(ids) - {id})
  {
    hide Sound, Placed, Highest, MatchedIds, ExtractAliases, Resolved, AbsorbAll;
    var ids := MatchedIds(d, e);
    MatchedFacts(d, e);
    HighestFacts(d.entities, ids);
    MatchedResolves(d, e);
    forall x | x in ids ensures x in d.entities && !IsFallback(x) {
      MatchesAreLive(d, h, e, x);
    }
    SoundAbsorbAll(d, h, ids, Highest(d.entities, ids));
  }

  /** Earlier events follow their entity. */
  lemma OwnerStep(d: Directory, h: seq<Sighting>, s: Sighting, e: Event)
    requires Sound(d, h) && Placed(d, e)
    ensures Owner(Step(d, s).aliases, e)
         == if Owner(d.aliases, e) in MatchedIds(d, s.event) then Resolved(d, s.event) else Owner(d.aliases, e)
  {
    hide Step, Resolved, MatchedIds, Placed, Sound, AliasFor;
    StepAliases(d, h, s);
    MatchedFacts(d, s.event);
    OwnerIsPlaced(d, e);
    var aliases := ExtractAliases(e);
    if aliases == [] {
      assert FallbackId(e.appId)[10] == 'a';
      if FallbackId(e.appId) in MatchedIds(d, s.event) {
        MatchesAreLive(d, h, s.event, FallbackId(e.appId));
      }
    } else {
      assert aliases[0].key in Keys(e);
      PlacedKeys(d, e);
    }
  }

  lemma PlacedKeys(d: Directory, e: Event)
    requires Placed(d, e)
    ensures forall a :: a in Keys(e) ==> a in d.aliases
  {
  }

  // ---------- Every history ----------

  lemma RunStep(h: seq<Sighting>, s: Sighting)
    ensures Run(h + [s]) == Step(Run(h), s) && Sound(Run(h), h) && KnowsSeen(Run(h), h)
  {
    hide Step, Sound, KnowsSeen;
    assert (h + [s])[..|h|] == h;
    RunIsSound(h);
  }

  lemma PrefixIds(h: seq<Sighting>, n: nat, j: nat)
    requires j < n <= |h|
    ensures IdAt(h[..n], j) == IdAt(h, j)
  {
    assert h[..n][..j] == h[..j];
  }

  lemma LastResolves(h: seq<Sighting>)
    requires h != []
    ensures IdAt(h, |h| - 1) == Resolved(Run(h[..|h| - 1]), h[|h| - 1].event)
    ensures Alive(h, IdAt(h, |h| - 1)) && OwnerOf(h, |h| - 1) == IdAt(h, |h| - 1)
  {
    hide Sound, KnowsSeen, Step, Resolved, Placed, ExtractAliases;
    var before, s := h[..|h| - 1], h[|h| - 1];
    assert h == before + [s];
    RunStep(before, s);
    StepEntities(Run(before), before, s);
    LastIsOwned(Run(before), before, s);
  }

  lemma LastIsOwned(d: Directory, h: seq<Sighting>, s: Sighting)
    requires Sound(d, h)
    ensures Owner(Step(d, s).aliases, s.event) == Resolved(d, s.event)
  {
    hide Sound, Step, Resolved, MatchedIds, AliasFor;
    StepAliases(d, h, s);
    var aliases := ExtractAliases(s.event);
    if aliases == [] {
      FallbackResolves(d, s.event);
    } else {
      assert aliases[0].key in Keys(s.event);
    }
  }

  lemma LiveIsNamed(d: Directory, h: seq<Sighting>, id: string)
    requires Sound(d, h) && KnowsSeen(d, h) && id in d.entities
    ensures IsFallback(id) || (|id| >= 10 && Seen(h, id[10..]))
  {
    hide Seen, WellTyped, Summarises, Placed;
    assert Accounted(d, h, id);
  }

  lemma SeenEarlier(h: seq<Sighting>, n: nat, a: string)
    requires n <= |h| && Seen(h[..n], a)
    ensures Seen(h, a)
  {
    var i :| 0 <= i < n && a in Keys(h[..n][i].event);
    assert h[i] == h[..n][i];
  }

  /** The ids that an event matches, other than the one it resolves to, are absorbed. */
  lemma MatchedIsAbsorbed(h: seq<Sighting>, s: Sighting, id: string)
    requires id in Elements(MatchedIds(Run(h), s.event)) && id != Resolved(Run(h), s.event)
    ensures !Alive(h + [s], id)
  {
    hide Run, Step, Resolved, MatchedIds, Sound, KnowsSeen, Elements;
    RunStep(h, s);
    StepEntities(Run(h), h, s);
  }

  /** Ids that events are booked on stand for an application, or are called after an alias seen by then. */
  lemma IdIsNamed(h: seq<Sighting>, j: nat)
    requires j < |h|
    ensures var id := IdAt(h, j);
            IsFallback(id) || (|id| >= 10 && Seen(h, id[10..]))
  {
    hide Run, Sound, KnowsSeen, Seen, IdAt;
    var g, id := h[..j + 1], IdAt(h, j);
    LastResolves(g);
    PrefixIds(h, j + 1, j);
    RunIsSound(g);
    LiveIsNamed(Run(g), g, id);
    if !IsFallback(id) {
      SeenEarlier(h, j + 1, id[10..]);
    }
  }

  /** Entities that stand for an application are never absorbed. */
  lemma {:induction false} FallbackStays(h: seq<Sighting>, j: nat)
    requires j < |h| && IsFallback(IdAt(h, j))
    ensures Alive(h, IdAt(h, j))
  {
    hide Run, Sound, KnowsSeen, Step, Resolved, MatchedIds;
    var n := |h| - 1;
    LastResolves(h);
    if j < n {
      var before, s, id := h[..n], h[n], IdAt(h, j);
      assert h == before + [s];
      PrefixIds(h, n, j);
      FallbackStays(before, j);
      RunStep(before, s);
      StepEntities(Run(before), before, s);
      if id in MatchedIds(Run(before), s.event) {
        MatchesAreLive(Run(before), before, s.event, id);
      }
    }
  }

  /** The next event is not booked on an id that has been absorbed. */
  lemma NextIsNotAbsorbed(h: seq<Sighting>, j: nat, e: Event)
    requires j < |h| && !Alive(h, IdAt(h, j))
    ensures Resolved(Run(h), e) != IdAt(h, j)
  {
    hide Run, Sound, KnowsSeen, Seen, Resolved, MatchedIds, ExtractAliases;
    var d, id := Run(h), Resolved(Run(h), e);
    RunIsSound(h);
    if IsFallback(IdAt(h, j)) {
      FallbackStays(h, j);
    }
    IdIsNamed(h, j);
    if ExtractAliases(e) == [] {
      FallbackResolves(d, e);
    } else if MatchedIds(d, e) == [] {
      FoundedIsUnseen(d, h, e);
    } else {
      Settling(d, h, e);
      MatchesAreLive(d, h, e, id);
    }
  }

  lemma FoundedIsUnseen(d: Directory, h: seq<Sighting>, e: Event)
    requires KnowsSeen(d, h) && ExtractAliases(e) != [] && MatchedIds(d, e) == []
    ensures var id := Resolved(d, e); !IsFallback(id) && |id| >= 10 && !Seen(h, id[10..])
  {
    hide Seen;
    var best := Strongest(ExtractAliases(e));
    StrongestOfEvent(e);
    AliasShape(e, best);
    assert best.key in Keys(e);
    MatchedFacts(d, e);
  }

  /** An absorbed id stays absorbed: it is not live and no event is booked on it ever after. */
  lemma {:induction false} AbsorbedIsForever(h: seq<Sighting>, j: nat, n: nat)
    requires j < n <= |h| && !Alive(h[..n], IdAt(h, j))
    ensures !Alive(h, IdAt(h, j))
    ensures forall k :: n <= k < |h| ==> IdAt(h, k) != IdAt(h, j)
  {
    hide Run, Sound, KnowsSeen, Step, Resolved, MatchedIds, IdAt;
    var m, id := |h| - 1, IdAt(h, j);
    if n == |h| {
      assert h[..n] == h;
    } else {
      var before, s := h[..m], h[m];
      assert h == before + [s] && before[..n] == h[..n];
      PrefixIds(h, m, j);
      AbsorbedIsForever(before, j, n);
      RunStep(before, s);
      LastResolves(h);
      NextIsNotAbsorbed(before, j, s.event);
      StepEntities(Run(before), before, s);
      forall k | n <= k < |h| ensures IdAt(h, k) != id {
        if k < m {
          PrefixIds(h, m, k);
        }
      }
    }
  }

  /** An event booked on an id that lives belongs to it. */
  lemma {:induction false} LivingIdOwns(h: seq<Sighting>, j: nat)
    requires j < |h| && Alive(h, IdAt(h, j))
    ensures OwnerOf(h, j) == IdAt(h, j)
  {
    hide Run, Sound, KnowsSeen, Step, Resolved, MatchedIds, IdAt, Owner, Placed;
    var n := |h| - 1;
    LastResolves(h);
    if j < n {
      var before, s, id := h[..n], h[n], IdAt(h, j);
      assert h == before + [s];
      PrefixIds(h, n, j);
      RunStep(before, s);
      StepEntities(Run(before), before, s);
      if !Alive(before, id) {
        NextIsNotAbsorbed(before, j, s.event);
      } else {
        LivingIdOwns(before, j);
        PlacedBefore(before, j);
        OwnerStep(Run(before), before, s, h[j].event);
      }
    }
  }

  lemma PlacedBefore(h: seq<Sighting>, j: nat)
    requires j < |h|
    ensures Placed(Run(h), h[j].event)
  {
    hide Run, Placed;
    RunIsSound(h);
  }

  /** Of the events of a living entity, exactly those were booked on its id whose id has not been absorbed. */
  lemma BookedIffAlive(h: seq<Sighting>, j: nat, id: string)
    requires j < |h| && Alive(h, id)
    ensures IdAt(h, j) == id <==> OwnerOf(h, j) == id && Alive(h, IdAt(h, j))
  {
    hide *;
    if Alive(h, IdAt(h, j)) {
      LivingIdOwns(h, j);
    }
  }

  /** Two events with aliases belong to one entity exactly when a chain of shared aliases connects them. */
  lemma OneEntityIffConnected(h: seq<Sighting>, i: nat, j: nat, a: string, b: string)
    requires i < |h| && j < |h| && a in Keys(h[i].event) && b in Keys(h[j].event)
    ensures OwnerOf(h, i) == OwnerOf(h, j) <==> Connected(h, a, b)
  {
    hide Run, Placed, Connected, Keys, Owner;
    PlacedBefore(h, i);
    PlacedBefore(h, j);
    OwnerIsPlaced(Run(h), h[i].event);
    OwnerIsPlaced(Run(h), h[j].event);
    PlacedKeys(Run(h), h[i].event);
    PlacedKeys(Run(h), h[j].event);
    SameEntityIffConnected(h, a, b);
  }
}
