/** From events to incidents: what the rule engine raises, counts and adds up over every history of events. */
module Engine {
  import opened Basics
  import opened Events
  import opened HotState
  import opened Rules
  import opened Incidents

  /** One call: an event is evaluated, a signal of the correlation engine is ingested, an operator changes a status, or
      a key of the hot state is reset. Fresh ids and clock readings come with the calls. */
  datatype Call = Evaluate(event: Event, stamps: seq<Stamp>)
                | Ingest(signal: Signal, event: Event, stamp: Stamp)
                | Change(id: nat, status: Status, now: Time)
                | ResetKey(key: string)

  predicate Stamped(h: seq<Call>) {
    forall i :: 0 <= i < |h| && h[i].Evaluate? ==> |h[i].stamps| == |RULES|
  }

  const START := Snapshot(map[], map[], map[], [])

  function Step(x: Snapshot, c: Call, st: Settings): Snapshot
    requires c.Evaluate? ==> |c.stamps| == |RULES|
  {
    match c
    case Evaluate(e, stamps) => RulesStep(x, RULES, e, st, stamps)
    case Ingest(s, e, t) => Processed(x, s, e, t)
    case Change(id, status, now) => x.(cases := StatusSet(x.cases, id, status, now))
    case ResetKey(key) => Snapshot(x.windows - {key}, x.paths - {key}, x.risks - {key}, x.cases)
  }

  function After(h: seq<Call>, st: Settings): Snapshot
    requires Stamped(h)
  {
    if h == [] then START else Step(After(h[..|h| - 1], st), h[|h| - 1], st)
  }

  function Sight(c: Call): seq<Seen>
    requires c.Evaluate? ==> |c.stamps| == |RULES|
  {
    match c
    case Evaluate(e, stamps) => [Seen(e, stamps[1].checkedMs)]
    case ResetKey(key) => [Reset(key)]
    case _ => []
  }

  /** What the count rules see of a history. */
  function Sights(h: seq<Call>): seq<Seen>
    requires Stamped(h)
  {
    if h == [] then [] else Sights(h[..|h| - 1]) + Sight(h[|h| - 1])
  }

  // ---------- The hot state ----------

  lemma RuleStores(x: Snapshot, r: Rule, e: Event, st: Settings, t: Stamp)
    ensures var y := RuleStep(x, r, e, st, t);
            && y.windows == Apply(x.windows, HitsFor(r, e, st))
            && y.paths == PathsAfter(x.paths, r, e, st, t.checkedMs)
            && y.cases == if Fires(r, e, st, y.windows, y.paths)
                          then Told(x.cases, SignalOf(r, e, t.signalId), e, t.incidentId, t.now) else x.cases
  {
    hide Apply, HitsFor, Fires, PathsAfter, Told, AfterRisk, SignalOf;
  }

  lemma {:induction false} WindowsThrough(x: Snapshot, n: nat, e: Event, st: Settings, stamps: seq<Stamp>)
    requires n <= |RULES| == |stamps|
    ensures RulesStep(x, RULES[..n], e, st, stamps).windows == Apply(x.windows, HitsOfRules(RULES[..n], e, st))
  {
    hide HitsFor, RuleStep;
    if n > 0 {
      WindowsThrough(x, n - 1, e, st, stamps);
      assert RULES[..n][..n - 1] == RULES[..n - 1];
      ApplyConcat(x.windows, HitsOfRules(RULES[..n - 1], e, st), HitsFor(RULES[n - 1], e, st));
      hide Apply;
      RuleStores(RulesStep(x, RULES[..n - 1], e, st, stamps), RULES[n - 1], e, st, stamps[n - 1]);
    }
  }

  lemma {:induction false} PathsThrough(x: Snapshot, n: nat, e: Event, st: Settings, stamps: seq<Stamp>)
    requires n <= |RULES| == |stamps|
    ensures RulesStep(x, RULES[..n], e, st, stamps).paths
         == if n >= 2 then PathsAfter(x.paths, ApiEnumeration, e, st, stamps[1].checkedMs) else x.paths
  {
    hide RuleStep, Applies, AfterDistinct;
    if n > 0 {
      PathsThrough(x, n - 1, e, st, stamps);
      assert RULES[..n][..n - 1] == RULES[..n - 1];
      RuleStores(RulesStep(x, RULES[..n - 1], e, st, stamps), RULES[n - 1], e, st, stamps[n - 1]);
      assert RULES[n - 1] == ApiEnumeration <==> n == 2;
    }
  }

  lemma EventStores(x: Snapshot, e: Event, st: Settings, stamps: seq<Stamp>)
    requires |RULES| == |stamps|
    ensures var y := RulesStep(x, RULES, e, st, stamps);
            && y.windows == Apply(x.windows, HitsOfRules(RULES, e, st))
            && y.paths == PathsAfter(x.paths, ApiEnumeration, e, st, stamps[1].checkedMs)
  {
    hide RulesStep, HitsOfRules, Apply, PathsAfter;
    WindowsThrough(x, |RULES|, e, st, stamps);
    PathsThrough(x, |RULES|, e, st, stamps);
    assert RULES[..|RULES|] == RULES;
  }

  lemma SightStores(g: seq<Seen>, x: Seen, st: Settings)
    ensures WindowsAfter(g + [x], st) == Apply(WindowsAfter(g, st), HitsOfSeen(x, st))
    ensures x.Seen? ==>
              PathsAfterAll(g + [x], st) == PathsAfter(PathsAfterAll(g, st), ApiEnumeration, x.event, st, x.now)
    ensures x.Reset? ==> PathsAfterAll(g + [x], st) == PathsAfterAll(g, st) - {x.key}
  {
    hide Apply, HitsOfSeen, PathsAfter;
    assert (g + [x])[..|g|] == g;
  }

  lemma ResetStores(m: Windows, key: string, st: Settings)
    ensures Apply(m, HitsOfSeen(Reset(key), st)) == m - {key}
  {
    assert [ResetHits(key)][..0] == [];
  }

  /** Over every history the engine's hot state is that of the count rules alone. */
  lemma {:induction false} StoresAreThoseOfRules(h: seq<Call>, st: Settings)
    requires Stamped(h)
    ensures After(h, st).windows == WindowsAfter(Sights(h), st) && After(h, st).paths == PathsAfterAll(Sights(h), st)
  {
    if h != [] {
      var before, last := h[..|h| - 1], h[|h| - 1];
      StoresAreThoseOfRules(before, st);
      var x, g := After(before, st), Sights(before);
      hide HitsOfRules, RulesStep, PathsAfter, Apply, WindowsAfter, PathsAfterAll, Told, StatusSet, AfterRisk;
      match last {
        case Evaluate(e, stamps) =>
          SightStores(g, Seen(e, stamps[1].checkedMs), st);
          EventStores(x, e, st, stamps);
        case ResetKey(key) =>
          SightStores(g, Reset(key), st);
          ResetStores(x.windows, key, st);
        case _ => assert Sights(h) == g;
      }
    }
  }

  /** A rule fires on what the hot state holds after its own turn exactly when it would at the end of the event. */
  lemma {:induction false} FiresThrough(x: Snapshot, i: nat, n: nat, e: Event, st: Settings, stamps: seq<Stamp>)
    requires i < n <= |RULES| == |stamps|
    ensures var y := RulesStep(x, RULES[..n], e, st, stamps);
            LastFires(x, RULES[..i + 1], e, st, stamps) == Fires(RULES[i], e, st, y.windows, y.paths)
  {
    hide Fires, Apply, HitsFor, PathsAfter, RuleStep;
    var z := RulesStep(x, RULES[..n - 1], e, st, stamps);
    assert RULES[..n][..n - 1] == RULES[..n - 1];
    RuleStores(z, RULES[n - 1], e, st, stamps[n - 1]);
    if i + 1 < n {
      FiresThrough(x, i, n - 1, e, st, stamps);
      AllRules(RULES[i]);
      FiresKept(RULES[i], e, st, z.windows, z.paths, RULES[n - 1], stamps[n - 1].checkedMs);
    }
  }

  predicate EndsWithEvaluation(h: seq<Call>) {
    h != [] && h[|h| - 1].Evaluate?
  }

  lemma SightsLast(h: seq<Call>)
    requires Stamped(h) && EndsWithEvaluation(h)
    ensures EndsWithEvent(Sights(h))
    ensures Sights(h)[|Sights(h)| - 1] == Seen(h[|h| - 1].event, h[|h| - 1].stamps[1].checkedMs)
    ensures Sights(h)[..|Sights(h)| - 1] == Sights(h[..|h| - 1])
  {
  }

  // ---------- Signals ----------

  /** Rule i raises a signal on the last event of a history. */
  predicate Raises(h: seq<Call>, st: Settings, i: nat)
    requires Stamped(h) && EndsWithEvaluation(h) && i < |RULES|
  {
    LastFires(After(h[..|h| - 1], st), RULES[..i + 1], h[|h| - 1].event, st, h[|h| - 1].stamps)
  }

  /** The engine raises the signal of a rule exactly when the whole history so far satisfies the rule's condition, if
      the events that the rule counts for this source are in order. */
  lemma {:induction false} RaisesIff(h: seq<Call>, st: Settings, i: nat)
    requires Stamped(h) && EndsWithEvaluation(h) && i < |RULES|
    requires InOrder(Sights(h), RULES[i], Source(h[|h| - 1].event))
    ensures EndsWithEvent(Sights(h)) && (Raises(h, st, i) <==> Alarms(Sights(h), st, RULES[i]))
  {
    var last := h[|h| - 1];
    SightsLast(h);
    StoresAreThoseOfRules(h, st);
    hide Fires, Alarms, Sights, RulesStep, LastFires, Times, Probes, WindowsAfter, PathsAfterAll, InOrder;
    FiresThrough(After(h[..|h| - 1], st), i, |RULES|, last.event, st, last.stamps);
    assert RULES[..|RULES|] == RULES;
    FiresIff(Sights(h), st, RULES[i]);
  }

  /** How many of the first n rules have their condition satisfied on the last event of a history. */
  function AlarmsAmong(g: seq<Seen>, st: Settings, n: nat): nat
    requires EndsWithEvent(g) && n <= |RULES|
  {
    if n == 0 then 0 else AlarmsAmong(g, st, n - 1) + (if Alarms(g, st, RULES[n - 1]) then 1 else 0)
  }

  /** How many conditions were satisfied over a history. */
  function AlarmCount(g: seq<Seen>, st: Settings): nat {
    if g == [] then 0
    else AlarmCount(g[..|g| - 1], st) + (if EndsWithEvent(g) then AlarmsAmong(g, st, |RULES|) else 0)
  }

  /** If an event is last, then the events that each rule counts for its source are in order. */
  predicate LastInOrder(g: seq<Seen>) {
    EndsWithEvent(g) ==>
      var source := Source(g[|g| - 1].event);
      && InOrder(g, BruteForce, source) && InOrder(g, ApiEnumeration, source)
      && InOrder(g, UnauthorizedBurst, source) && InOrder(g, MassScraping, source)
  }

  /** Whenever an event comes, the events that the rules count for its source are in order. */
  predicate AlwaysInOrder(g: seq<Seen>) {
    forall n :: 0 <= n <= |g| ==> LastInOrder(g[..n])
  }

  lemma OrderOfRule(g: seq<Seen>, r: Rule)
    requires EndsWithEvent(g) && LastInOrder(g)
    ensures InOrder(g, r, Source(g[|g| - 1].event))
  {
    hide Times, Probes, Ordered, Source;
  }

  lemma RuleCounts(x: Snapshot, r: Rule, e: Event, st: Settings, t: Stamp)
    ensures var y := Recorded(x, r, e, st, t);
            SignalCount(RuleStep(x, r, e, st, t).cases)
            == SignalCount(x.cases) + (if Fires(r, e, st, y.windows, y.paths) then 1 else 0)
  {
    hide Fires, Told, Apply, HitsFor, PathsAfter, AfterRisk, SignalCount, SignalOf;
    ToldCount(x.cases, SignalOf(r, e, t.signalId), e, t.incidentId, t.now);
  }

  lemma OneMoreRule(x: Snapshot, n: nat, e: Event, st: Settings, stamps: seq<Stamp>)
    requires n < |RULES| == |stamps|
    ensures |SignalsRaised(x, RULES[..n + 1], e, st, stamps)|
         == |SignalsRaised(x, RULES[..n], e, st, stamps)|
          + (if LastFires(x, RULES[..n + 1], e, st, stamps) then 1 else 0)
  {
    hide LastFires, SignalOf;
    assert RULES[..n + 1][..n] == RULES[..n];
  }

  lemma OneMoreSignal(h: seq<Call>, st: Settings, n: nat)
    requires Stamped(h) && EndsWithEvaluation(h) && n < |RULES|
    requires EndsWithEvent(Sights(h)) && LastInOrder(Sights(h))
    requires Source(Sights(h)[|Sights(h)| - 1].event) == Source(h[|h| - 1].event)
    ensures var x, last := After(h[..|h| - 1], st), h[|h| - 1];
            |SignalsRaised(x, RULES[..n + 1], last.event, st, last.stamps)|
            == |SignalsRaised(x, RULES[..n], last.event, st, last.stamps)|
             + (if Alarms(Sights(h), st, RULES[n]) then 1 else 0)
  {
    hide Alarms, LastFires, SignalsRaised, Sights, After, InOrder, LastInOrder, Source;
    OrderOfRule(Sights(h), RULES[n]);
    RaisesIff(h, st, n);
    OneMoreRule(After(h[..|h| - 1], st), n, h[|h| - 1].event, st, h[|h| - 1].stamps);
  }

  lemma {:induction false} EventSignals(h: seq<Call>, st: Settings, n: nat)
    requires Stamped(h) && EndsWithEvaluation(h) && n <= |RULES|
    requires LastInOrder(Sights(h))
    ensures var x, last := After(h[..|h| - 1], st), h[|h| - 1];
            && EndsWithEvent(Sights(h))
            && |SignalsRaised(x, RULES[..n], last.event, st, last.stamps)| == AlarmsAmong(Sights(h), st, n)
  {
    SightsLast(h);
    hide Alarms, Sights, After, LastInOrder, Source, SignalOf, LastFires;
    if n > 0 {
      hide SignalsRaised;
      EventSignals(h, st, n - 1);
      OneMoreSignal(h, st, n - 1);
    }
  }

  /** Each signal raised on an event is one more in the ledger. */
  lemma {:induction false} EventTells(x: Snapshot, n: nat, e: Event, st: Settings, stamps: seq<Stamp>)
    requires n <= |RULES| == |stamps|
    ensures SignalCount(RulesStep(x, RULES[..n], e, st, stamps).cases)
         == SignalCount(x.cases) + |SignalsRaised(x, RULES[..n], e, st, stamps)|
  {
    if n > 0 {
      EventTells(x, n - 1, e, st, stamps);
      hide RuleStep, SignalCount, Recorded, Fires, SignalOf;
      assert RULES[..n][..n - 1] == RULES[..n - 1];
      RuleCounts(RulesStep(x, RULES[..n - 1], e, st, stamps), RULES[n - 1], e, st, stamps[n - 1]);
    }
  }

  function IngestCount(h: seq<Call>): nat {
    if h == [] then 0 else IngestCount(h[..|h| - 1]) + (if h[|h| - 1].Ingest? then 1 else 0)
  }

  lemma OrderOfPrefix(g: seq<Seen>, x: Seen)
    requires AlwaysInOrder(g + [x])
    ensures AlwaysInOrder(g)
    ensures LastInOrder(g + [x])
  {
    hide LastInOrder;
    forall n | 0 <= n <= |g| ensures LastInOrder(g[..n]) {
      assert (g + [x])[..n] == g[..n];
    }
    assert (g + [x])[..|g| + 1] == g + [x];
  }

  lemma AlarmStep(g: seq<Seen>, x: Seen, st: Settings)
    ensures AlarmCount(g + [x], st)
         == AlarmCount(g, st) + (if x.Seen? then AlarmsAmong(g + [x], st, |RULES|) else 0)
  {
    hide AlarmsAmong;
    assert (g + [x])[..|g|] == g;
  }

  /** One evaluation adds as many signals to the ledger as conditions are satisfied. */
  lemma EvaluationTells(h: seq<Call>, st: Settings)
    requires Stamped(h) && EndsWithEvaluation(h)
    requires LastInOrder(Sights(h))
    ensures EndsWithEvent(Sights(h))
    ensures SignalCount(After(h, st).cases)
         == SignalCount(After(h[..|h| - 1], st).cases) + AlarmsAmong(Sights(h), st, |RULES|)
  {
    EventSignals(h, st, |RULES|);
    EventTells(After(h[..|h| - 1], st), |RULES|, h[|h| - 1].event, st, h[|h| - 1].stamps);
    assert RULES[..|RULES|] == RULES;
    hide AlarmsAmong, RulesStep, Sights, LastInOrder, SignalCount, SignalsRaised;
  }

  /** From events to the ledger, over any interleaving of calls: the incidents together hold exactly as many signals as
      conditions of rules were satisfied, each judged by the whole history before it, and signals ingested. */
  lemma {:induction false} LedgerHoldsAllAlarms(h: seq<Call>, st: Settings)
    requires Stamped(h) && AlwaysInOrder(Sights(h))
    ensures SignalCount(After(h, st).cases) == AlarmCount(Sights(h), st) + IngestCount(h)
  {
    if h != [] {
      var before, last := h[..|h| - 1], h[|h| - 1];
      var x, g := After(before, st), Sights(before);
      hide AlarmsAmong, RulesStep, LastInOrder, AlwaysInOrder, AlarmCount, SignalCount, Told, StatusSet, AfterRisk;
      match last {
        case Evaluate(e, stamps) =>
          OrderOfPrefix(g, Seen(e, stamps[1].checkedMs));
          AlarmStep(g, Seen(e, stamps[1].checkedMs), st);
          EvaluationTells(h, st);
        case ResetKey(key) =>
          OrderOfPrefix(g, Reset(key));
          AlarmStep(g, Reset(key), st);
        case Ingest(s, e, t) =>
          assert Sights(h) == g;
          ToldCount(x.cases, s, e, t.incidentId, t.now);
        case Change(id, status, now) =>
          assert Sights(h) == g;
          StatusSetCount(x.cases, id, status, now);
      }
      LedgerHoldsAllAlarms(before, st);
    }
  }

  // ---------- Risk ----------

  /** The risk that the first n rules add on an event. */
  function RiskOfRules(x: Snapshot, n: nat, e: Event, st: Settings, stamps: seq<Stamp>): seq<RiskOp>
    requires n <= |RULES| == |stamps|
  {
    if n == 0 then []
    else
      var t := stamps[n - 1];
      RiskOfRules(x, n - 1, e, st, stamps)
      + (if LastFires(x, RULES[..n], e, st, stamps) then
           [Add(Target(e), SignalOf(RULES[n - 1], e, t.signalId).riskWeight, 3600, t.addedMs)]
         else [])
  }

  function RiskOfCall(x: Snapshot, c: Call, st: Settings): seq<RiskOp>
    requires c.Evaluate? ==> |c.stamps| == |RULES|
  {
    match c
    case Evaluate(e, stamps) => RiskOfRules(x, |RULES|, e, st, stamps)
    case Ingest(s, e, t) => [Add(Target(e), s.riskWeight, 3600, t.addedMs)]
    case Change(_, _, _) => []
    case ResetKey(key) => [ResetRisk(key)]
  }

  /** The weights of all signals raised or ingested over a history, with the entities they are booked on. */
  function RiskOps(h: seq<Call>, st: Settings): seq<RiskOp>
    requires Stamped(h)
  {
    if h == [] then [] else RiskOps(h[..|h| - 1], st) + RiskOfCall(After(h[..|h| - 1], st), h[|h| - 1], st)
  }

  lemma {:induction false} EventRisks(x: Snapshot, ops: seq<RiskOp>, n: nat, e: Event, st: Settings, stamps: seq<Stamp>)
    requires n <= |RULES| == |stamps| && x.risks == RiskRun(ops)
    ensures RulesStep(x, RULES[..n], e, st, stamps).risks == RiskRun(ops + RiskOfRules(x, n, e, st, stamps))
  {
    hide Fires, Apply, HitsFor, PathsAfter, Told, AfterRisk, SignalOf, Target, HitRun;
    if n == 0 {
      assert ops + [] == ops;
    } else {
      EventRisks(x, ops, n - 1, e, st, stamps);
      assert RULES[..n][..n - 1] == RULES[..n - 1];
      var more, t := RiskOfRules(x, n - 1, e, st, stamps), stamps[n - 1];
      if LastFires(x, RULES[..n], e, st, stamps) {
        RiskRunMore(ops, more, Add(Target(e), SignalOf(RULES[n - 1], e, t.signalId).riskWeight, 3600, t.addedMs));
      } else {
        assert ops + (more + []) == ops + more;
      }
    }
  }

  lemma RiskRunMore(ops: seq<RiskOp>, more: seq<RiskOp>, op: RiskOp)
    ensures RiskRun(ops + (more + [op])) == RiskStep(RiskRun(ops + more), op)
  {
    var all := ops + (more + [op]);
    assert all[..|all| - 1] == ops + more;
  }

  lemma CallRisks(x: Snapshot, ops: seq<RiskOp>, c: Call, st: Settings)
    requires (c.Evaluate? ==> |c.stamps| == |RULES|) && x.risks == RiskRun(ops)
    ensures Step(x, c, st).risks == RiskRun(ops + RiskOfCall(x, c, st))
  {
    hide RulesStep, RiskOfRules, AfterRisk, Told, StatusSet, Target;
    match c
    case Evaluate(e, stamps) =>
      EventRisks(x, ops, |RULES|, e, st, stamps);
      assert RULES[..|RULES|] == RULES;
    case Ingest(s, e, t) => RiskRunMore(ops, [], Add(Target(e), s.riskWeight, 3600, t.addedMs));
      assert ops + [] == ops;
    case Change(_, _, _) => assert ops + [] == ops;
    case ResetKey(key) => RiskRunMore(ops, [], ResetRisk(key));
      assert ops + [] == ops;
  }

  lemma {:induction false} RisksAreRun(h: seq<Call>, st: Settings)
    requires Stamped(h)
    ensures After(h, st).risks == RiskRun(RiskOps(h, st))
  {
    if h != [] {
      hide Step, RiskOfCall, RiskRun;
      RisksAreRun(h[..|h| - 1], st);
      CallRisks(After(h[..|h| - 1], st), RiskOps(h[..|h| - 1], st), h[|h| - 1], st);
    } else {
      assert RiskRun([]) == map[];
    }
  }

  lemma {:induction false} RiskTtls(h: seq<Call>, st: Settings, entity: string)
    requires Stamped(h)
    ensures OneRiskTtl(RiskOps(h, st), entity, 3600)
  {
    if h != [] {
      RiskTtls(h[..|h| - 1], st, entity);
      if h[|h| - 1].Evaluate? {
        EventRiskTtls(After(h[..|h| - 1], st), |RULES|, h[|h| - 1].event, st, h[|h| - 1].stamps, entity);
      }
      hide RiskOfRules, After, Target;
    }
  }

  lemma {:induction false} EventRiskTtls(x: Snapshot, n: nat, e: Event, st: Settings, stamps: seq<Stamp>,
                                         entity: string)
    requires n <= |RULES| == |stamps|
    ensures OneRiskTtl(RiskOfRules(x, n, e, st, stamps), entity, 3600)
  {
    hide LastFires, Target, SignalOf;
    if n > 0 {
      EventRiskTtls(x, n - 1, e, st, stamps, entity);
    }
  }

  /** The risk of an entity reads as the saturated sum of the weights of the signals booked on it since the last hour
      without one, and as 0 once an hour has passed since the last. */
  lemma {:induction false} EntityRiskReading(h: seq<Call>, st: Settings, entity: string, now: int)
    requires Stamped(h)
    ensures var a := AdditionsOf(RiskOps(h, st), entity);
            RiskAt(After(h, st).risks, entity, now)
            == if a != [] && now < a[|a| - 1].at + 3_600_000 then Min(MAX_U32, TotalPoints(a[LastGap(a, 3600)..]))
               else 0
  {
    hide After, RiskOps, RiskAt, AdditionsOf, TotalPoints;
    RisksAreRun(h, st);
    RiskTtls(h, st, entity);
    RunRiskReading(RiskOps(h, st), entity, 3600, now);
  }
}
