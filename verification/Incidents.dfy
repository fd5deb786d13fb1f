/** The incident ledger: signals open or escalate incidents, operators change their status, and every incident
    is stored twice, in the map of active incidents and in the history. */
module Incidents {
  import opened Basics
  import opened Events
  import HotState
  import Rules

  function Rank(s: Severity): nat {
    match s
    case Low => 0
    case Medium => 1
    case High => 2
    case Critical => 3
  }

  datatype Status = Open | Investigating | Contained | Resolved | FalsePositive

  predicate Pending(s: Status) {
    s == Open || s == Investigating
  }

  /** The entity a signal is booked on. */
  function Target(e: Event): string {
    if e.UserId().Some? then "user:" + e.UserId().value
    else if e.ip.Some? then "ip:" + e.ip.value
    else "app:" + e.appId
  }

  datatype Incident = Incident(incidentId: nat, severity: Severity, status: Status, target: string, appId: string,
                               riskScore: U32, signals: seq<Signal>, evidence: seq<Event>,
                               createdAt: Time, updatedAt: Time)

  function NewIncident(id: nat, s: Signal, e: Event, now: Time): Incident {
    Incident(id, s.severity, Open, Target(e), e.appId, s.riskWeight, [s], [e], now, now)
  }

  /** At most the last 50 events are kept. */
  function Bounded(evidence: seq<Event>, e: Event): seq<Event> {
    (if |evidence| >= 50 then evidence[1..] else evidence) + [e]
  }

  function Escalated(severity: Severity, risk: U32): Severity {
    if risk >= 100 then Critical
    else if risk >= 50 then High
    else if risk >= 25 then Medium
    else severity
  }

  function AddSignal(i: Incident, s: Signal, e: Option<Event>, now: Time): Incident {
    var risk := SaturatingAdd(i.riskScore, s.riskWeight);
    i.(riskScore := risk, signals := i.signals + [s],
       evidence := if e.Some? then Bounded(i.evidence, e.value) else i.evidence,
       updatedAt := now, severity := Escalated(i.severity, risk))
  }

  // ---------- The specification: one list of cases, each with all it was ever told ----------

  datatype Entry = Entry(signal: Signal, event: Event)

  datatype Case = Case(id: nat, target: string, appId: string, status: Status, log: seq<Entry>,
                       createdAt: Time, updatedAt: Time)

  type Cases = seq<Case>

  function TotalWeight(log: seq<Entry>): nat {
    if log == [] then 0 else TotalWeight(log[..|log| - 1]) + log[|log| - 1].signal.riskWeight
  }

  /** The sum of all weights, cut off at the largest 32-bit number. */
  function Risk(log: seq<Entry>): U32 {
    if TotalWeight(log) <= MAX_U32 then TotalWeight(log) else MAX_U32
  }

  function Band(risk: U32): Severity {
    if risk >= 100 then Critical
    else if risk >= 50 then High
    else if risk >= 25 then Medium
    else Low
  }

  function Signals(log: seq<Entry>): seq<Signal> {
    seq(|log|, i requires 0 <= i < |log| => log[i].signal)
  }

  function EvidenceOf(log: seq<Entry>): seq<Event> {
    seq(|log|, i requires 0 <= i < |log| => log[i].event)
  }

  function Last<T>(s: seq<T>, n: nat): seq<T> {
    if |s| <= n then s else s[|s| - n..]
  }

  /** The severity of a case: that of its first signal, until a later signal takes the risk to 25. */
  function CaseSeverity(log: seq<Entry>): Severity
    requires log != []
  {
    if |log| == 1 || Risk(log) < 25 then log[0].signal.severity else Band(Risk(log))
  }

  /** The incident that a case amounts to. */
  function Summary(c: Case): Incident
    requires c.log != []
  {
    Incident(c.id, CaseSeverity(c.log), c.status, c.target, c.appId, Risk(c.log), Signals(c.log),
             Last(EvidenceOf(c.log), 50), c.createdAt, c.updatedAt)
  }

  function NewCase(id: nat, s: Signal, e: Event, now: Time): Case {
    Case(id, Target(e), e.appId, Open, [Entry(s, e)], now, now)
  }

  function Extended(c: Case, s: Signal, e: Event, now: Time): Case {
    c.(log := c.log + [Entry(s, e)], updatedAt := now)
  }

  /** The position of the latest case of a target. */
  function Latest(cs: Cases, target: string): (k: Option<nat>)
    ensures k.Some? ==> k.value < |cs| && cs[k.value].target == target
    ensures k.Some? ==> forall i :: k.value < i < |cs| ==> cs[i].target != target
    ensures k.None? ==> forall i :: 0 <= i < |cs| ==> cs[i].target != target
  {
    if cs == [] then None
    else if cs[|cs| - 1].target == target then Some(|cs| - 1)
    else Latest(cs[..|cs| - 1], target)
  }

  /** The position of the first case with an id. */
  function First(ids: seq<nat>, id: nat): (k: Option<nat>)
    ensures k.Some? ==> k.value < |ids| && ids[k.value] == id && id !in ids[..k.value]
    ensures k.None? <==> id !in ids
  {
    if ids == [] then None
    else if ids[0] == id then Some(0)
    else
      var k := First(ids[1..], id);
      assert k.Some? ==> ids[..k.value + 1] == [ids[0]] + ids[1..][..k.value];
      if k.Some? then Some(k.value + 1) else None
  }

  function CaseIds(cs: Cases): seq<nat> {
    seq(|cs|, i requires 0 <= i < |cs| => cs[i].id)
  }

  /** A signal extends the latest case of its target if that is pending, and opens a new case otherwise. */
  function Told(cs: Cases, s: Signal, e: Event, id: nat, now: Time): Cases {
    var k := Latest(cs, Target(e));
    if k.Some? && Pending(cs[k.value].status) then cs[k.value := Extended(cs[k.value], s, e, now)]
    else cs + [NewCase(id, s, e, now)]
  }

  function StatusSet(cs: Cases, id: nat, status: Status, now: Time): Cases {
    var k := First(CaseIds(cs), id);
    if k.Some? then cs[k.value := cs[k.value].(status := status, updatedAt := now)] else cs
  }

  ghost predicate WellFormed(cs: Cases) {
    && (forall i :: 0 <= i < |cs| ==> cs[i].log != [])
    && (forall i, j :: 0 <= i < j < |cs| ==> cs[i].id != cs[j].id)
  }

  /** The history lists the summaries of all cases. */
  ghost predicate HistoryAgrees(history: seq<Incident>, cs: Cases)
    requires WellFormed(cs)
  {
    |history| == |cs| && forall i :: 0 <= i < |cs| ==> history[i] == Summary(cs[i])
  }

  /** The active map holds, for each target, the summary of its latest case, but for the time of the update. */
  ghost predicate ActiveAgrees(active: map<string, Incident>, cs: Cases)
    requires WellFormed(cs)
  {
    && (forall t :: t in active <==> Latest(cs, t).Some?)
    && (forall t :: t in active ==>
          active[t].(updatedAt := 0) == Summary(cs[Latest(cs, t).value]).(updatedAt := 0))
  }

  lemma AppendParts(log: seq<Entry>, x: Entry)
    ensures Risk(log + [x]) == SaturatingAdd(Risk(log), x.signal.riskWeight)
    ensures Signals(log + [x]) == Signals(log) + [x.signal]
    ensures Last(EvidenceOf(log + [x]), 50) == Bounded(Last(EvidenceOf(log), 50), x.event)
  {
    assert (log + [x])[..|log|] == log;
    assert EvidenceOf(log + [x]) == EvidenceOf(log) + [x.event];
  }

  // ---------- What signals do to cases ----------

  /** Whom an event is about: its user, or else its address, or else its application. */
  function About(e: Event): string {
    match (e.actor, e.ip)
    case (Some(Actor(Some(user), _)), _) => "user:" + user
    case (_, Some(ip)) => "ip:" + ip
    case _ => "app:" + e.appId
  }

  /** Case k is the latest of the target, and somebody still has to deal with it. */
  predicate Awaits(cs: Cases, k: nat, target: string) {
    && k < |cs| && cs[k].target == target && cs[k].status in {Open, Investigating}
    && forall i :: k < i < |cs| ==> cs[i].target != target
  }

  /** A signal joins the latest case of whom its event is about if that still has to be dealt with; otherwise it opens
      a case of its own. Nothing else changes. */
  lemma ToldIs(cs: Cases, s: Signal, e: Event, id: nat, now: Time)
    ensures forall k: nat :: Awaits(cs, k, About(e)) ==>
                               Told(cs, s, e, id, now)
                               == cs[k := cs[k].(log := cs[k].log + [Entry(s, e)], updatedAt := now)]
    ensures (forall k: nat :: !Awaits(cs, k, About(e))) ==>
              Told(cs, s, e, id, now) == cs + [Case(id, About(e), e.appId, Open, [Entry(s, e)], now, now)]
  {
    assert Target(e) == About(e);
    hide Target, About;
    var latest := Latest(cs, Target(e));
    forall k: nat | Awaits(cs, k, About(e)) ensures latest == Some(k) {
      assert latest.Some? && latest.value >= k;
    }
    if latest.Some? && Pending(cs[latest.value].status) {
      assert Awaits(cs, latest.value, About(e));
    }
  }

  /** A status change reaches the first case with the id, and nothing else. */
  lemma StatusSetIs(cs: Cases, id: nat, status: Status, now: Time)
    ensures forall k :: 0 <= k < |cs| && cs[k].id == id && (forall i :: 0 <= i < k ==> cs[i].id != id) ==>
              StatusSet(cs, id, status, now) == cs[k := cs[k].(status := status, updatedAt := now)]
    ensures (forall i :: 0 <= i < |cs| ==> cs[i].id != id) ==> StatusSet(cs, id, status, now) == cs
  {
    var ids := CaseIds(cs);
    assert forall i :: 0 <= i < |cs| ==> ids[i] == cs[i].id;
    var k := First(ids, id);
    if k.Some? {
      assert forall i :: 0 <= i < k.value ==> ids[..k.value][i] == ids[i];
    }
  }

  /** The weight of a case: the sum of its signals' weights, at most 2^32 - 1. Its severity is that of its first signal
      until further signals take the weight to 25, 50 and 100. */
  lemma SummaryIs(c: Case)
    requires c.log != []
    ensures var i, w := Summary(c), TotalWeight(c.log);
            && i.riskScore == Min(w, 4_294_967_295)
            && (|c.log| == 1 || w < 25 ==> i.severity == c.log[0].signal.severity)
            && (|c.log| > 1 && 25 <= w < 50 ==> i.severity == Medium)
            && (|c.log| > 1 && 50 <= w < 100 ==> i.severity == High)
            && (|c.log| > 1 && 100 <= w ==> i.severity == Critical)
            && i.incidentId == c.id && i.target == c.target && i.appId == c.appId && i.status == c.status
            && i.createdAt == c.createdAt && i.updatedAt == c.updatedAt
            && |i.signals| == |c.log| && (forall k :: 0 <= k < |c.log| ==> i.signals[k] == c.log[k].signal)
            && |i.evidence| == Min(|c.log|, 50)
            && (forall k :: 0 <= k < |i.evidence| ==> i.evidence[k] == c.log[|c.log| - |i.evidence| + k].event)
  {
  }

  /** `add_signal` turns the summary of a case into the summary of the extended case. */
  lemma AddSignalSummarises(c: Case, s: Signal, e: Event, now: Time)
    requires c.log != []
    ensures AddSignal(Summary(c), s, Some(e), now) == Summary(Extended(c, s, e, now))
  {
    AppendParts(c.log, Entry(s, e));
    hide Last, EvidenceOf, Bounded, Signals, TotalWeight;
    assert (c.log + [Entry(s, e)])[0] == c.log[0];
  }

  /** What comes with the evaluation of one rule: fresh ids for its signal and its incident, and the clock, when a
      failed route is recorded, when risk is added, and when the incident is written. */
  datatype Stamp = Stamp(signalId: nat, incidentId: nat, checkedMs: int, addedMs: int, now: Time)

  /** The incident ids of the stamps are new. */
  ghost predicate FreshIds(stamps: seq<Stamp>, cs: Cases) {
    && (forall i :: 0 <= i < |stamps| ==> stamps[i].incidentId !in CaseIds(cs))
    && (forall i, j :: 0 <= i < j < |stamps| ==> stamps[i].incidentId != stamps[j].incidentId)
  }

  /** All that evaluating events changes: the hot state, and the cases. */
  datatype Snapshot = Snapshot(windows: HotState.Windows, paths: HotState.DistinctSets, risks: HotState.Risks,
                               cases: Cases)

  /** A signal adds to the risk of its entity for an hour, and to the ledger. */
  function Processed(x: Snapshot, s: Signal, e: Event, t: Stamp): Snapshot {
    x.(risks := HotState.AfterRisk(x.risks, Target(e), s.riskWeight, 3600, t.addedMs),
       cases := Told(x.cases, s, e, t.incidentId, t.now))
  }

  function Recorded(x: Snapshot, r: Rules.Rule, e: Event, st: Rules.Settings, t: Stamp): Snapshot {
    x.(windows := Rules.Apply(x.windows, Rules.HitsFor(r, e, st)),
       paths := Rules.PathsAfter(x.paths, r, e, st, t.checkedMs))
  }

  function RuleStep(x: Snapshot, r: Rules.Rule, e: Event, st: Rules.Settings, t: Stamp): Snapshot {
    var y := Recorded(x, r, e, st, t);
    if Rules.Fires(r, e, st, y.windows, y.paths) then Processed(y, Rules.SignalOf(r, e, t.signalId), e, t) else y
  }

  /** The rules one after the other. */
  function RulesStep(x: Snapshot, rules: seq<Rules.Rule>, e: Event, st: Rules.Settings, stamps: seq<Stamp>): Snapshot
    requires |rules| <= |stamps|
  {
    if rules == [] then x
    else
      var n := |rules| - 1;
      RuleStep(RulesStep(x, rules[..n], e, st, stamps), rules[n], e, st, stamps[n])
  }

  /** Whether the last of the rules fires, after all before it. */
  predicate LastFires(x: Snapshot, rules: seq<Rules.Rule>, e: Event, st: Rules.Settings, stamps: seq<Stamp>)
    requires 0 < |rules| <= |stamps|
  {
    var n := |rules| - 1;
    var y := Recorded(RulesStep(x, rules[..n], e, st, stamps), rules[n], e, st, stamps[n]);
    Rules.Fires(rules[n], e, st, y.windows, y.paths)
  }

  function SignalsRaised(x: Snapshot, rules: seq<Rules.Rule>, e: Event, st: Rules.Settings, stamps: seq<Stamp>)
    : seq<Signal>
    requires |rules| <= |stamps|
  {
    if rules == [] then []
    else
      var n := |rules| - 1;
      SignalsRaised(x, rules[..n], e, st, stamps)
      + (if LastFires(x, rules, e, st, stamps) then [Rules.SignalOf(rules[n], e, stamps[n].signalId)] else [])
  }

  class RuleEngine {
    const settings: Rules.Settings
    const state: HotState.MemoryHotState
    var activeIncidents: map<string, Incident>
    var incidentHistory: seq<Incident>
    var sent: seq<Incident>
    ghost var cases: Cases

    ghost predicate Valid()
      reads this
    {
      WellFormed(cases) && HistoryAgrees(incidentHistory, cases) && ActiveAgrees(activeIncidents, cases)
    }

    ghost function Contents(): Snapshot
      reads this, state
    {
      Snapshot(state.slidingWindows, state.distinctSets, state.entityRisks, cases)
    }

    constructor (settings: Rules.Settings, state: HotState.MemoryHotState)
      ensures Valid() && cases == [] && sent == [] && this.settings == settings && this.state == state
    {
      this.settings, this.state := settings, state;
      activeIncidents, incidentHistory, sent, cases := map[], [], [], [];
    }

    /** `evaluate_event`: each rule looks at the event, and each signal is processed before the next rule. */
    method EvaluateEvent(e: Event, stamps: seq<Stamp>) returns (signals: seq<Signal>)
      requires Valid() && |stamps| == |Rules.RULES| && FreshIds(stamps, cases)
      modifies this, state
      ensures Valid() && Contents() == RulesStep(old(Contents()), Rules.RULES, e, settings, stamps)
      ensures signals == SignalsRaised(old(Contents()), Rules.RULES, e, settings, stamps)
      ensures |sent| == |old(sent)| + |signals|
    {
      hide Rules.Fires, Rules.Apply, Rules.HitsFor, Rules.PathsAfter, Rules.SignalOf, HotState.AfterRisk, Told, CaseIds,
        WellFormed, HistoryAgrees, ActiveAgrees, Target;
      signals := [];
      for i := 0 to |Rules.RULES|
        invariant Valid() && Contents() == RulesStep(old(Contents()), Rules.RULES[..i], e, settings, stamps)
        invariant signals == SignalsRaised(old(Contents()), Rules.RULES[..i], e, settings, stamps)
        invariant forall j :: i <= j < |stamps| ==> stamps[j].incidentId !in CaseIds(cases)
        invariant |sent| == |old(sent)| + |signals|
      {
        var rules := Rules.RULES[..i + 1];
        assert rules[..i] == Rules.RULES[..i];
        var signal := Rules.Evaluate(Rules.RULES[i], e, settings, state, stamps[i].checkedMs, stamps[i].signalId);
        if signal.Some? {
          ToldIds(cases, signal.value, e, stamps[i].incidentId, stamps[i].now);
          ProcessSignal(signal.value, e, stamps[i].incidentId, stamps[i].addedMs, stamps[i].now);
          signals := signals + [signal.value];
        }
      }
      assert Rules.RULES[..|Rules.RULES|] == Rules.RULES;
    }

    /** The position of the first incident with an id, if there is one. */
    method FindInHistory(id: nat) returns (k: int)
      ensures -1 <= k < |incidentHistory|
      ensures k >= 0 ==> incidentHistory[k].incidentId == id
      ensures forall i :: 0 <= i < (if k >= 0 then k else |incidentHistory|) ==> incidentHistory[i].incidentId != id
    {
      k := 0;
      while k < |incidentHistory|
        invariant 0 <= k <= |incidentHistory|
        invariant forall i :: 0 <= i < k ==> incidentHistory[i].incidentId != id
      {
        if incidentHistory[k].incidentId == id {
          return;
        }
        k := k + 1;
      }
      return -1;
    }

    /** Also `ingest_signal`, for the signals of the correlation engine. */
    method ProcessSignal(signal: Signal, event: Event, freshId: nat, addedMs: int, now: Time)
      requires Valid() && freshId !in CaseIds(cases)
      modifies this, state`entityRisks
      ensures Valid() && cases == Told(old(cases), signal, event, freshId, now)
      ensures state.entityRisks ==
              HotState.AfterRisk(old(state.entityRisks), Target(event), signal.riskWeight, 3600, addedMs)
      ensures Target(event) in activeIncidents && sent == old(sent) + [activeIncidents[Target(event)]]
    {
      var target := Target(event);
      var risk := state.AddEntityRisk(target, signal.riskWeight, 3600, addedMs);
      hide HotState.AfterRisk, Target, WellFormed, HistoryAgrees, ActiveAgrees, Told, AddSignal, NewIncident;
      ghost var was, history, active := cases, incidentHistory, activeIncidents;
      cases := Told(was, signal, event, freshId, now);
      if target in activeIncidents && Pending(activeIncidents[target].status) {
        var updated := AddSignal(activeIncidents[target], signal, Some(event), now);
        activeIncidents := activeIncidents[target := updated];
        var i := FindInHistory(updated.incidentId);
        EscalationAgrees(was, history, active, signal, event, freshId, now, i);
        incidentHistory := incidentHistory[i := updated];
        sent := sent + [updated];
        return;
      }
      var incident := NewIncident(freshId, signal, event, now);
      activeIncidents := activeIncidents[target := incident];
      incidentHistory := incidentHistory + [incident];
      sent := sent + [incident];
      OpeningAgrees(was, history, active, signal, event, freshId, now);
    }

    /** The two clock readings are those for the history and for the active map. */
    method UpdateIncidentStatus(id: nat, status: Status, now: Time, later: Time) returns (found: bool)
      requires Valid()
      modifies this
      ensures Valid() && cases == StatusSet(old(cases), id, status, now)
      ensures found <==> First(CaseIds(old(cases)), id).Some?
      ensures activeIncidents.Keys == old(activeIncidents.Keys)
      ensures sent == old(sent) + if found then [Summary(cases[First(CaseIds(old(cases)), id).value])] else []
    {
      hide Summary, Latest, First, ActiveAgrees;
      ghost var was := cases;
      var i := FindInHistory(id);
      found := i >= 0;
      FoundIsFirst(was, incidentHistory, id, i);
      if found {
        incidentHistory := incidentHistory[i := incidentHistory[i].(status := status, updatedAt := now)];
        sent := sent + [incidentHistory[i]];
      }
      StatusInHistory(was, old(incidentHistory), id, status, now);
      ghost var before := activeIncidents;
      var todo := activeIncidents.Keys;
      while todo != {}
        invariant todo <= activeIncidents.Keys && activeIncidents == before
        invariant forall t :: t in activeIncidents && t !in todo ==> before[t].incidentId != id
        invariant HistoryAgrees(incidentHistory, StatusSet(was, id, status, now))
        decreases todo
      {
        var t :| t in todo;
        if activeIncidents[t].incidentId == id {
          activeIncidents := activeIncidents[t := activeIncidents[t].(status := status, updatedAt := later)];
          cases := StatusSet(was, id, status, now);
          ActiveIsFound(was, before, t, id);
          StatusAgrees(was, i, status, now, before, activeIncidents, t, later);
          return;
        }
        todo := todo - {t};
      }
      cases := StatusSet(was, id, status, now);
      StatusMissesActive(was, id, status, now, before);
    }
  }

  // ---------- Why the two stores keep agreeing ----------

  lemma PositionOfId(cs: Cases, history: seq<Incident>, k: nat, i: int)
    requires WellFormed(cs) && HistoryAgrees(history, cs) && k < |cs|
    requires -1 <= i < |history| && (i >= 0 ==> history[i].incidentId == cs[k].id)
    requires forall j :: 0 <= j < (if i >= 0 then i else |history|) ==> history[j].incidentId != cs[k].id
    ensures i == k
  {
    assert history[k].incidentId == cs[k].id;
    assert i >= 0 ==> history[i].incidentId == cs[i].id;
  }

  lemma FoundIsFirst(cs: Cases, history: seq<Incident>, id: nat, i: int)
    requires WellFormed(cs) && HistoryAgrees(history, cs)
    requires -1 <= i < |history| && (i >= 0 ==> history[i].incidentId == id)
    requires forall j :: 0 <= j < (if i >= 0 then i else |history|) ==> history[j].incidentId != id
    ensures First(CaseIds(cs), id) == if i >= 0 then Some(i) else None
  {
    var k := First(CaseIds(cs), id);
    if k.Some? {
      assert history[k.value].incidentId == cs[k.value].id == id;
    }
    if i >= 0 {
      assert CaseIds(cs)[i] == id;
    }
  }

  lemma StatusInHistory(cs: Cases, history: seq<Incident>, id: nat, status: Status, now: Time)
    requires WellFormed(cs) && HistoryAgrees(history, cs)
    ensures var k, cs' := First(CaseIds(cs), id), StatusSet(cs, id, status, now);
            && WellFormed(cs')
            && (k.Some? ==> HistoryAgrees(history[k.value := history[k.value].(status := status, updatedAt := now)],
                                          cs'))
            && (k.None? ==> HistoryAgrees(history, cs'))
  {
    hide CaseSeverity, Risk, Signals, EvidenceOf, Last;
  }

  lemma ToldIds(cs: Cases, s: Signal, e: Event, id: nat, now: Time)
    ensures forall x :: x in CaseIds(Told(cs, s, e, id, now)) ==> x in CaseIds(cs) || x == id
  {
    var cs' := Told(cs, s, e, id, now);
    forall x | x in CaseIds(cs') ensures x in CaseIds(cs) || x == id {
      var i :| 0 <= i < |CaseIds(cs')| && CaseIds(cs')[i] == x;
      assert i < |cs| ==> CaseIds(cs)[i] == x;
    }
  }

  lemma LatestKept(cs: Cases, cs': Cases, t: string)
    requires |cs| == |cs'| && forall i :: 0 <= i < |cs| ==> cs[i].target == cs'[i].target
    ensures Latest(cs, t) == Latest(cs', t)
  {
  }

  lemma ExtendAgrees(cs: Cases, k: nat, s: Signal, e: Event, now: Time, active: map<string, Incident>,
                     updated: Incident)
    requires WellFormed(cs) && ActiveAgrees(active, cs) && Latest(cs, Target(e)) == Some(k)
    requires updated.(updatedAt := 0) == Summary(Extended(cs[k], s, e, now)).(updatedAt := 0)
    ensures var cs' := cs[k := Extended(cs[k], s, e, now)];
            WellFormed(cs') && ActiveAgrees(active[Target(e) := updated], cs')
  {
    hide Summary, Target, Latest;
    var cs' := cs[k := Extended(cs[k], s, e, now)];
    forall t ensures Latest(cs', t) == Latest(cs, t) {
      LatestKept(cs, cs', t);
    }
    forall t | t in active && t != Target(e) ensures cs'[Latest(cs', t).value] == cs[Latest(cs, t).value] {
    }
  }

  lemma PushAgrees(cs: Cases, id: nat, s: Signal, e: Event, now: Time, active: map<string, Incident>,
                   incident: Incident)
    requires WellFormed(cs) && ActiveAgrees(active, cs) && id !in CaseIds(cs) && incident == NewIncident(id, s, e, now)
    ensures var cs' := cs + [NewCase(id, s, e, now)];
            WellFormed(cs') && ActiveAgrees(active[Target(e) := incident], cs') && Summary(cs'[|cs|]) == incident
  {
    NewSummary(id, s, e, now);
    PushIsWellFormed(cs, id, s, e, now);
    hide Summary, Target, WellFormed;
    var cs' := cs + [NewCase(id, s, e, now)];
    assert cs'[..|cs|] == cs;
    forall t ensures Latest(cs', t) == if t == Target(e) then Some(|cs|) else Latest(cs, t) {
    }
  }

  lemma PushIsWellFormed(cs: Cases, id: nat, s: Signal, e: Event, now: Time)
    requires WellFormed(cs) && id !in CaseIds(cs)
    ensures WellFormed(cs + [NewCase(id, s, e, now)])
  {
    forall i | 0 <= i < |cs| ensures cs[i].id != id {
      assert CaseIds(cs)[i] == cs[i].id;
    }
  }

  /** The three stores after the escalation of a pending incident, found at position i of the history. */
  lemma EscalationAgrees(cs: Cases, history: seq<Incident>, active: map<string, Incident>, s: Signal, e: Event,
                         id: nat, now: Time, i: int)
    requires WellFormed(cs) && HistoryAgrees(history, cs) && ActiveAgrees(active, cs)
    requires Target(e) in active && Pending(active[Target(e)].status)
    requires var updated := AddSignal(active[Target(e)], s, Some(e), now);
             && -1 <= i < |history| && (i >= 0 ==> history[i].incidentId == updated.incidentId)
             && forall j :: 0 <= j < (if i >= 0 then i else |history|) ==> history[j].incidentId != updated.incidentId
    ensures var updated, cs' := AddSignal(active[Target(e)], s, Some(e), now), Told(cs, s, e, id, now);
            && 0 <= i && WellFormed(cs') && HistoryAgrees(history[i := updated], cs')
            && ActiveAgrees(active[Target(e) := updated], cs')
  {
    hide Target, Bounded, Escalated, CaseSeverity, Risk, Signals, EvidenceOf, Last;
    var k := Latest(cs, Target(e)).value;
    assert active[Target(e)].(updatedAt := 0) == Summary(cs[k]).(updatedAt := 0);
    PositionOfId(cs, history, k, i);
    AddSignalSummarises(cs[k], s, e, now);
    hide Summary;
    ExtendAgrees(cs, k, s, e, now, active, AddSignal(active[Target(e)], s, Some(e), now));
  }

  lemma OpeningAgrees(cs: Cases, history: seq<Incident>, active: map<string, Incident>, s: Signal, e: Event, id: nat,
                      now: Time)
    requires WellFormed(cs) && HistoryAgrees(history, cs) && ActiveAgrees(active, cs) && id !in CaseIds(cs)
    requires !(Target(e) in active && Pending(active[Target(e)].status))
    ensures var incident, cs' := NewIncident(id, s, e, now), Told(cs, s, e, id, now);
            && WellFormed(cs') && HistoryAgrees(history + [incident], cs')
            && ActiveAgrees(active[Target(e) := incident], cs')
  {
    hide Target, NewIncident, CaseSeverity, Risk, Signals, EvidenceOf, Last;
    PushAgrees(cs, id, s, e, now, active, NewIncident(id, s, e, now));
    assert Target(e) in active ==> Pending(active[Target(e)].status) == Pending(cs[Latest(cs, Target(e)).value].status);
    hide Summary, CaseIds;
  }

  lemma NewSummary(id: nat, s: Signal, e: Event, now: Time)
    ensures Summary(NewCase(id, s, e, now)) == NewIncident(id, s, e, now)
  {
    var log := [Entry(s, e)];
    assert log[..0] == [];
    assert TotalWeight(log) == TotalWeight(log[..0]) + s.riskWeight;
    assert EvidenceOf(log) == [e];
    assert Signals(log) == [s];
  }

  /** The active incident with an id is the summary of the case with that id. */
  lemma ActiveIsFound(cs: Cases, active: map<string, Incident>, t: string, id: nat)
    requires WellFormed(cs) && ActiveAgrees(active, cs) && t in active && active[t].incidentId == id
    ensures First(CaseIds(cs), id) == Latest(cs, t) && Latest(cs, t).Some?
  {
    var k := Latest(cs, t).value;
    assert CaseIds(cs)[k] == id;
    var f := First(CaseIds(cs), id).value;
    assert cs[f].id == id;
  }

  lemma StatusAgrees(cs: Cases, k: nat, status: Status, now: Time, active: map<string, Incident>,
                     active': map<string, Incident>, t: string, later: Time)
    requires WellFormed(cs) && ActiveAgrees(active, cs) && k < |cs| && t in active && Latest(cs, t) == Some(k)
    requires active' == active[t := active[t].(status := status, updatedAt := later)]
    ensures var cs' := cs[k := cs[k].(status := status, updatedAt := now)];
            WellFormed(cs') && ActiveAgrees(active', cs')
  {
    hide Latest, Summary;
    var cs' := cs[k := cs[k].(status := status, updatedAt := now)];
    assert WellFormed(cs');
    SummaryOfStatus(cs[k], status, now);
    forall u ensures Latest(cs', u) == Latest(cs, u) {
      LatestKept(cs, cs', u);
    }
    hide WellFormed;
    forall u | u in active && u != t
      ensures active'[u] == active[u] && cs'[Latest(cs, u).value] == cs[Latest(cs, u).value]
    {
      LatestOfTwo(cs, u, t);
    }
  }

  lemma SummaryOfStatus(c: Case, status: Status, now: Time)
    requires c.log != []
    ensures Summary(c.(status := status, updatedAt := now)) == Summary(c).(status := status, updatedAt := now)
  {
    hide CaseSeverity, Risk, Signals, EvidenceOf, Last;
  }

  lemma LatestOfTwo(cs: Cases, u: string, t: string)
    requires u != t && Latest(cs, u).Some?
    ensures Latest(cs, u) != Latest(cs, t)
  {
    hide Latest;
  }

  lemma StatusMissesActive(cs: Cases, id: nat, status: Status, now: Time, active: map<string, Incident>)
    requires WellFormed(cs) && ActiveAgrees(active, cs)
    requires forall t :: t in active ==> active[t].incidentId != id
    ensures var cs' := StatusSet(cs, id, status, now);
            WellFormed(cs') && ActiveAgrees(active, cs')
  {
    var cs' := StatusSet(cs, id, status, now);
    hide Latest, Summary, First;
    forall u ensures Latest(cs', u) == Latest(cs, u) {
      LatestKept(cs, cs', u);
    }
    forall t | t in active ensures cs'[Latest(cs, t).value] == cs[Latest(cs, t).value] {
      assert Summary(cs[Latest(cs, t).value]).incidentId == cs[Latest(cs, t).value].id by {
        IdOfSummary(cs[Latest(cs, t).value]);
      }
      FirstHasId(cs, id);
    }
  }

  lemma IdOfSummary(c: Case)
    requires c.log != []
    ensures Summary(c).incidentId == c.id
  {
  }

  lemma FirstHasId(cs: Cases, id: nat)
    ensures var k := First(CaseIds(cs), id); k.Some? ==> k.value < |cs| && cs[k.value].id == id
  {
  }

  // ---------- Every run ----------

  datatype Op = Tell(signal: Signal, event: Event, freshId: nat, now: Time)
              | SetStatus(id: nat, status: Status, now: Time)

  function Step(cs: Cases, op: Op): Cases {
    match op
    case Tell(s, e, id, now) => Told(cs, s, e, id, now)
    case SetStatus(id, status, now) => StatusSet(cs, id, status, now)
  }

  function Run(ops: seq<Op>): Cases {
    if ops == [] then [] else Step(Run(ops[..|ops| - 1]), ops[|ops| - 1])
  }

  function SignalCount(cs: Cases): nat {
    if cs == [] then 0 else SignalCount(cs[..|cs| - 1]) + |cs[|cs| - 1].log|
  }

  function TellCount(ops: seq<Op>): nat {
    if ops == [] then 0 else TellCount(ops[..|ops| - 1]) + (if ops[|ops| - 1].Tell? then 1 else 0)
  }

  lemma {:induction false} SignalCountUpdate(cs: Cases, k: nat, c: Case)
    requires k < |cs|
    ensures SignalCount(cs[k := c]) == SignalCount(cs) - |cs[k].log| + |c.log|
  {
    var init, cs' := cs[..|cs| - 1], cs[k := c];
    if k < |init| {
      SignalCountUpdate(init, k, c);
      assert cs'[..|cs'| - 1] == init[k := c];
    } else {
      assert cs'[..|cs'| - 1] == init;
    }
  }

  lemma ToldCount(cs: Cases, s: Signal, e: Event, id: nat, now: Time)
    ensures SignalCount(Told(cs, s, e, id, now)) == SignalCount(cs) + 1
  {
    hide Target;
    var k := Latest(cs, Target(e));
    if k.Some? && Pending(cs[k.value].status) {
      SignalCountUpdate(cs, k.value, Extended(cs[k.value], s, e, now));
    } else {
      assert (cs + [NewCase(id, s, e, now)])[..|cs|] == cs;
    }
  }

  lemma StatusSetCount(cs: Cases, id: nat, status: Status, now: Time)
    ensures SignalCount(StatusSet(cs, id, status, now)) == SignalCount(cs)
  {
    var k := First(CaseIds(cs), id);
    if k.Some? {
      SignalCountUpdate(cs, k.value, cs[k.value].(status := status, updatedAt := now));
    }
  }

  /** No signal is lost: the incidents of the history together hold as many signals as were ingested. */
  lemma {:induction false} SignalsAreConserved(ops: seq<Op>)
    ensures SignalCount(Run(ops)) == TellCount(ops)
  {
    if ops != [] {
      var cs, op := Run(ops[..|ops| - 1]), ops[|ops| - 1];
      SignalsAreConserved(ops[..|ops| - 1]);
      match op {
        case Tell(s, e, id, now) => ToldCount(cs, s, e, id, now);
        case SetStatus(id, status, now) => StatusSetCount(cs, id, status, now);
      }
    }
  }

  /** The case with this id has been succeeded by a later case of its target. */
  predicate Superseded(cs: Cases, id: nat) {
    var k := First(CaseIds(cs), id);
    k.Some? && Latest(cs, cs[k.value].target) != k
  }

  predicate Reopens(cs: Cases, op: Op) {
    op.SetStatus? && Pending(op.status) && Superseded(cs, op.id)
  }

  /** Only the latest case of a target may be pending. */
  predicate OnlyLatestPending(cs: Cases) {
    forall i :: 0 <= i < |cs| && Pending(cs[i].status) ==> Latest(cs, cs[i].target) == Some(i)
  }

  lemma TellKeepsOnlyLatestPending(cs: Cases, s: Signal, e: Event, id: nat, now: Time)
    requires OnlyLatestPending(cs)
    ensures OnlyLatestPending(Told(cs, s, e, id, now))
  {
    hide Target;
    var cs', k := Told(cs, s, e, id, now), Latest(cs, Target(e));
    if k.Some? && Pending(cs[k.value].status) {
      forall t ensures Latest(cs', t) == Latest(cs, t) { LatestKept(cs, cs', t); }
    } else {
      assert cs'[..|cs|] == cs;
      forall i | 0 <= i < |cs'| && Pending(cs'[i].status) ensures Latest(cs', cs'[i].target) == Some(i) {
        assert i < |cs| ==> Latest(cs, cs[i].target) == Some(i);
      }
    }
  }

  /** A step keeps it exactly unless it reopens a superseded case. */
  lemma StepKeepsOnlyLatestPending(cs: Cases, op: Op)
    requires OnlyLatestPending(cs)
    ensures OnlyLatestPending(Step(cs, op)) <==> !Reopens(cs, op)
  {
    if op.Tell? {
      TellKeepsOnlyLatestPending(cs, op.signal, op.event, op.freshId, op.now);
    } else {
      var cs', k := StatusSet(cs, op.id, op.status, op.now), First(CaseIds(cs), op.id);
      hide Latest, First, Told;
      forall t ensures Latest(cs', t) == Latest(cs, t) { LatestKept(cs, cs', t); }
      FirstHasId(cs, op.id);
      if k.Some? {
        assert cs'[k.value].status == op.status;
        assert forall i :: 0 <= i < |cs| && i != k.value ==> cs'[i] == cs[i];
      }
    }
  }

  /** As long as nobody reopens a superseded incident, a target has at most one pending incident. */
  lemma {:induction false} OnePendingPerTarget(ops: seq<Op>, i: nat, j: nat)
    requires forall k :: 0 <= k < |ops| ==> !Reopens(Run(ops[..k]), ops[k])
    requires i < |Run(ops)| && j < |Run(ops)| && Run(ops)[i].target == Run(ops)[j].target
    requires Pending(Run(ops)[i].status) && Pending(Run(ops)[j].status)
    ensures i == j
  {
    RunKeepsOnlyLatestPending(ops);
  }

  lemma {:induction false} RunKeepsOnlyLatestPending(ops: seq<Op>)
    requires forall k :: 0 <= k < |ops| ==> !Reopens(Run(ops[..k]), ops[k])
    ensures OnlyLatestPending(Run(ops))
  {
    if ops != [] {
      var before := ops[..|ops| - 1];
      forall k | 0 <= k < |before| ensures !Reopens(Run(before[..k]), before[k]) {
        assert before[..k] == ops[..k];
      }
      RunKeepsOnlyLatestPending(before);
      hide OnlyLatestPending, Step, Reopens;
      assert ops[..|ops| - 1] == before && !Reopens(Run(ops[..|ops| - 1]), ops[|ops| - 1]);
      StepKeepsOnlyLatestPending(Run(before), ops[|ops| - 1]);
    }
  }

  /** At most one case of each target is pending. */
  predicate OnePending(cs: Cases) {
    forall i, j :: 0 <= i < j < |cs| && Pending(cs[i].status) && Pending(cs[j].status) ==> cs[i].target != cs[j].target
  }

  /** Some case of the target, other than case k, is pending. */
  predicate PendingElsewhere(cs: Cases, target: string, k: int) {
    exists i :: 0 <= i < |cs| && i != k && cs[i].target == target && Pending(cs[i].status)
  }

  /** The calls that leave a target with two pending cases: a pending status for a case while another case of its
      target is pending, and a signal for a target whose pending case is not its latest. */
  predicate Doubles(cs: Cases, op: Op) {
    match op
    case Tell(_, e, _, _) =>
      var k := Latest(cs, Target(e));
      PendingElsewhere(cs, Target(e), -1) && (k.Some? ==> !Pending(cs[k.value].status))
    case SetStatus(id, status, _) =>
      var k := First(CaseIds(cs), id);
      k.Some? && Pending(status) && PendingElsewhere(cs, cs[k.value].target, k.value)
  }

  lemma TellKeepsOnePendingIff(cs: Cases, s: Signal, e: Event, id: nat, now: Time)
    requires OnePending(cs)
    ensures OnePending(Told(cs, s, e, id, now)) <==> !Doubles(cs, Tell(s, e, id, now))
  {
    hide Target, Latest;
    var cs', k := Told(cs, s, e, id, now), Latest(cs, Target(e));
    if k.Some? && Pending(cs[k.value].status) {
      assert forall i :: 0 <= i < |cs| ==> cs'[i].target == cs[i].target && cs'[i].status == cs[i].status;
    } else {
      assert forall i :: 0 <= i < |cs| ==> cs'[i] == cs[i];
      assert cs'[|cs|].target == Target(e) && cs'[|cs|].status == Open;
    }
  }

  lemma SetStatusKeepsOnePendingIff(cs: Cases, id: nat, status: Status, now: Time)
    requires OnePending(cs)
    ensures OnePending(StatusSet(cs, id, status, now)) <==> !Doubles(cs, SetStatus(id, status, now))
  {
    FirstHasId(cs, id);
    hide First;
    var cs', k := StatusSet(cs, id, status, now), First(CaseIds(cs), id);
    if k.Some? {
      assert cs'[k.value].status == status && cs'[k.value].target == cs[k.value].target;
      assert forall i :: 0 <= i < |cs| && i != k.value ==> cs'[i] == cs[i];
    }
  }

  ghost predicate AlwaysOnePending(ops: seq<Op>) {
    forall n :: 0 <= n <= |ops| ==> OnePending(Run(ops[..n]))
  }

  ghost predicate NeverDoubles(ops: seq<Op>) {
    forall n :: 0 <= n < |ops| ==> !Doubles(Run(ops[..n]), ops[n])
  }

  /** In a run no target ever has two pending incidents, exactly when no call of the run doubles. */
  lemma {:induction false} OnePendingIff(ops: seq<Op>)
    ensures AlwaysOnePending(ops) <==> NeverDoubles(ops)
    decreases |ops|
  {
    if ops == [] {
      assert ops[..0] == [];
    } else {
      hide OnePending, Doubles, Step;
      var before := ops[..|ops| - 1];
      OnePendingIff(before);
      LastCall(ops);
      if AlwaysOnePending(before) {
        assert before[..|before|] == before;
        StepKeepsOnePendingIff(Run(before), ops[|ops| - 1]);
      }
    }
  }

  lemma LastCall(ops: seq<Op>)
    requires ops != []
    ensures AlwaysOnePending(ops) <==> AlwaysOnePending(ops[..|ops| - 1]) && OnePending(Run(ops))
    ensures NeverDoubles(ops)
       <==> NeverDoubles(ops[..|ops| - 1]) && !Doubles(Run(ops[..|ops| - 1]), ops[|ops| - 1])
  {
    hide *;
    forall k: nat | k < |ops| ensures ops[..|ops| - 1][..k] == ops[..k] {
    }
    OnePendingUpTo(ops);
    DoublesUpTo(ops);
  }

  lemma OnePendingUpTo(ops: seq<Op>)
    requires ops != [] && forall k: nat :: k < |ops| ==> ops[..|ops| - 1][..k] == ops[..k]
    ensures AlwaysOnePending(ops) <==> AlwaysOnePending(ops[..|ops| - 1]) && OnePending(Run(ops))
  {
    hide OnePending, Run;
    var before := ops[..|ops| - 1];
    assert ops[..|ops|] == ops;
    if AlwaysOnePending(ops) {
      forall k | 0 <= k <= |before| ensures OnePending(Run(before[..k])) {
        assert OnePending(Run(ops[..k]));
      }
      assert OnePending(Run(ops[..|ops|]));
    }
    if AlwaysOnePending(before) && OnePending(Run(ops)) {
      forall k | 0 <= k <= |ops| ensures OnePending(Run(ops[..k])) {
        assert k < |ops| ==> OnePending(Run(before[..k]));
      }
    }
  }

  lemma DoublesUpTo(ops: seq<Op>)
    requires ops != [] && forall k: nat :: k < |ops| ==> ops[..|ops| - 1][..k] == ops[..k]
    ensures NeverDoubles(ops)
       <==> NeverDoubles(ops[..|ops| - 1]) && !Doubles(Run(ops[..|ops| - 1]), ops[|ops| - 1])
  {
    hide Doubles, Run;
    var before := ops[..|ops| - 1];
    if NeverDoubles(ops) {
      forall k | 0 <= k < |before| ensures !Doubles(Run(before[..k]), before[k]) {
        assert !Doubles(Run(ops[..k]), ops[k]);
      }
      assert !Doubles(Run(ops[..|before|]), ops[|before|]);
    }
    if NeverDoubles(before) && !Doubles(Run(before), ops[|before|]) {
      forall k | 0 <= k < |ops| ensures !Doubles(Run(ops[..k]), ops[k]) {
        assert k < |before| ==> !Doubles(Run(before[..k]), before[k]);
      }
    }
  }

  lemma StepKeepsOnePendingIff(cs: Cases, op: Op)
    requires OnePending(cs)
    ensures OnePending(Step(cs, op)) <==> !Doubles(cs, op)
  {
    match op
    case Tell(s, e, id, now) => TellKeepsOnePendingIff(cs, s, e, id, now);
    case SetStatus(id, status, now) => SetStatusKeepsOnePendingIff(cs, id, status, now);
  }

  /** A run that reaches two pending incidents: the first is resolved, succeeded by another, and reopened. */
  lemma ReopeningDoubles(s: Signal, e: Event)
    ensures var cs := Run([Tell(s, e, 0, 0), SetStatus(0, Resolved, 0), Tell(s, e, 1, 0), SetStatus(0, Open, 0)]);
            && |cs| == 2 && cs[0].id == 0 && cs[1].id == 1 && cs[0].target == cs[1].target == Target(e)
            && Pending(cs[0].status) && Pending(cs[1].status)
  {
    hide Target;
    var a, b, c, d := Tell(s, e, 0, 0), SetStatus(0, Resolved, 0), Tell(s, e, 1, 0), SetStatus(0, Open, 0);
    var first, second := NewCase(0, s, e, 0), NewCase(1, s, e, 0);
    assert [a, b, c, d][..3] == [a, b, c] && [a, b, c][..2] == [a, b] && [a, b][..1] == [a] && [a][..0] == [];
    assert Run([a]) == [first];
    assert CaseIds([first])[0] == 0;
    assert Run([a, b]) == [first.(status := Resolved)];
    assert Latest([first.(status := Resolved)], Target(e)) == Some(0);
    assert Run([a, b, c]) == [first.(status := Resolved), second];
    assert CaseIds([first.(status := Resolved), second])[0] == 0;
  }

  lemma BandIsMonotone(a: U32, b: U32)
    requires a <= b
    ensures Rank(Band(a)) <= Rank(Band(b))
  {
  }

  /** A further signal lowers the severity of a case exactly when it is the first to take the risk of a case
      opened at a higher severity to 25; after that the severity never drops. */
  lemma SeverityDropsIff(log: seq<Entry>, x: Entry)
    requires log != []
    ensures Rank(CaseSeverity(log + [x])) < Rank(CaseSeverity(log))
       <==> && (|log| == 1 || Risk(log) < 25)
            && Risk(log + [x]) >= 25 && Rank(Band(Risk(log + [x]))) < Rank(log[0].signal.severity)
  {
    AppendParts(log, x);
    hide TotalWeight, Risk;
    assert (log + [x])[0] == log[0];
    if Risk(log) <= Risk(log + [x]) {
      BandIsMonotone(Risk(log), Risk(log + [x]));
    }
  }

  /** For example: an incident opened as critical with weight 10 is of medium severity after a signal of weight 20. */
  lemma SeverityDrops(id: nat, e: Event, now: Time)
    ensures var first, second := Signal(0, "a", Critical, 10, []), Signal(1, "b", High, 20, []);
            var i := NewIncident(id, first, e, now);
            i.severity == Critical && AddSignal(i, second, Some(e), now).severity == Medium
  {
  }
}
