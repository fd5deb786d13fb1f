/** The detector of attack sequences across applications: per entity a window of stage observations, pruned as
    events arrive, where the class of an event depends on what is still in the window. */
module Sequence {
  import opened Basics
  import opened Capabilities

  datatype Stage = Reconnaissance | LateralMovement | HighImpactAction

  function Rank(s: Stage): nat {
    match s
    case Reconnaissance => 1
    case LateralMovement => 2
    case HighImpactAction => 3
  }

  datatype Action = Action(isSuccess: bool, statusCode: Option<nat>)

  datatype Event = Event(timestamp: Time, appId: string, action: Option<Action>, eventId: nat)

  datatype Observation = Observation(stage: Stage, appId: string, capability: Option<Capability>,
                                     timestamp: Time, eventId: nat)

  datatype Progress = Progress(stages: seq<Observation>, appsInvolved: set<string>, highestStage: Stage,
                               lastUpdated: Time, alertFired: bool)

  function Cutoff(now: Time, windowSeconds: int): Time {
    now - windowSeconds * SECOND
  }

  /** `retain` on the observations: those not older than the cutoff, in order. */
  function InWindow(log: seq<Observation>, cutoff: Time): seq<Observation> {
    if log == [] then []
    else
      var kept := InWindow(log[..|log| - 1], cutoff);
      if log[|log| - 1].timestamp >= cutoff then kept + [log[|log| - 1]] else kept
  }

  function Apps(log: seq<Observation>): set<string> {
    set o | o in log :: o.appId
  }

  /** The stage an event constitutes, given the applications seen in the window. */
  function Classify(e: Event, capabilities: seq<Capability>, apps: set<string>): Option<Stage> {
    var failed := e.action.Some? && !e.action.value.isSuccess;
    var status := if e.action.Some? && e.action.value.statusCode.Some? then e.action.value.statusCode.value else 200;
    if failed || status == 401 || status == 403 || status == 404 then Some(Reconnaissance)
    else if AdminOperation in capabilities || DataExport in capabilities || ProcessExecute in capabilities then
      Some(HighImpactAction)
    else if e.action.Some? && e.action.value.isSuccess && apps != {} && e.appId !in apps then Some(LateralMovement)
    else None
  }

  function Observe(e: Event, capabilities: seq<Capability>, stage: Stage): Observation {
    Observation(stage, e.appId, if capabilities == [] then None else Some(capabilities[0]), e.timestamp, e.eventId)
  }

  datatype Input = Input(event: Event, capabilities: seq<Capability>)

  function Begin(now: Time): Progress {
    Progress([], {}, Reconnaissance, now, false)
  }

  function Pruned(p: Progress, now: Time, windowSeconds: int): Progress {
    var kept := InWindow(p.stages, Cutoff(now, windowSeconds));
    p.(stages := kept, appsInvolved := Apps(kept), lastUpdated := now)
  }

  function Recorded(p: Progress, o: Observation): Progress {
    p.(stages := p.stages + [o], appsInvolved := p.appsInvolved + {o.appId},
       highestStage := if Rank(o.stage) > Rank(p.highestStage) then o.stage else p.highestStage)
  }

  predicate Complete(p: Progress) {
    p.highestStage == HighImpactAction && |p.appsInvolved| >= 2 && |p.stages| >= 3 && !p.alertFired
  }

  /** One event of an entity. */
  function Advance(p: Progress, i: Input, windowSeconds: int): Progress {
    var q := Pruned(p, i.event.timestamp, windowSeconds);
    var stage := Classify(i.event, i.capabilities, q.appsInvolved);
    if stage.None? then q
    else
      var r := Recorded(q, Observe(i.event, i.capabilities, stage.value));
      r.(alertFired := r.alertFired || Complete(r))
  }

  /** The alert names the observations of the chain. */
  datatype Signal = Signal(matchedEventIds: seq<nat>)

  function EventIds(log: seq<Observation>): seq<nat> {
    seq(|log|, i requires 0 <= i < |log| => log[i].eventId)
  }

  function Alert(p: Progress, i: Input, windowSeconds: int): Option<Signal> {
    var q := Advance(p, i, windowSeconds);
    if q.alertFired && !p.alertFired then Some(Signal(EventIds(q.stages))) else None
  }

  class CrossAppSequenceDetector {
    var entityProgress: map<string, Progress>
    const windowSeconds: int

    constructor (windowSeconds: int)
      ensures entityProgress == map[] && this.windowSeconds == windowSeconds
    {
      this.windowSeconds := windowSeconds;
      entityProgress := map[];
    }

    method EvaluateEvent(event: Event, canonicalId: string, capabilities: seq<Capability>)
      returns (signal: Option<Signal>)
      modifies this
      ensures var p := Tracked(old(entityProgress), canonicalId, event.timestamp);
              && entityProgress ==
                 old(entityProgress)[canonicalId := Advance(p, Input(event, capabilities), windowSeconds)]
              && signal == Alert(p, Input(event, capabilities), windowSeconds)
    {
      hide Classify, InWindow, Apps, EventIds;
      var now := event.timestamp;
      var cutoff := Cutoff(now, windowSeconds);
      if canonicalId !in entityProgress {
        entityProgress := entityProgress[canonicalId := Begin(now)];
      }
      var progress := entityProgress[canonicalId];
      progress := progress.(stages := InWindow(progress.stages, cutoff));
      progress := progress.(appsInvolved := Apps(progress.stages));
      progress := progress.(lastUpdated := now);
      signal := None;
      var observed := Classify(event, capabilities, progress.appsInvolved);
      if observed.Some? {
        progress := progress.(stages := progress.stages + [Observe(event, capabilities, observed.value)]);
        progress := progress.(appsInvolved := progress.appsInvolved + {event.appId});
        if Rank(observed.value) > Rank(progress.highestStage) {
          progress := progress.(highestStage := observed.value);
        }
        if progress.highestStage == HighImpactAction && |progress.appsInvolved| >= 2
           && |progress.stages| >= 3 && !progress.alertFired {
          progress := progress.(alertFired := true);
          signal := Some(Signal(EventIds(progress.stages)));
        }
      }
      entityProgress := entityProgress[canonicalId := progress];
    }

    method PruneStale(now: Time) returns (removed: int)
      modifies this
      ensures entityProgress == Fresh(old(entityProgress), now, windowSeconds)
      ensures removed == |old(entityProgress)| - |entityProgress|
    {
      var cutoff := Cutoff(now, windowSeconds);
      var before := |entityProgress|;
      entityProgress := map id | id in entityProgress && entityProgress[id].lastUpdated >= cutoff :: entityProgress[id];
      removed := before - |entityProgress|;
    }
  }

  function Tracked(m: map<string, Progress>, id: string, now: Time): Progress {
    if id in m then m[id] else Begin(now)
  }

  function Fresh(m: map<string, Progress>, now: Time, windowSeconds: int): map<string, Progress> {
    map id | id in m && m[id].lastUpdated >= Cutoff(now, windowSeconds) :: m[id]
  }

  // ---------- One tracked lifetime of an entity ----------

  /** What the detector keeps after the events h of an entity. */
  function Track(h: seq<Input>, w: nat): Progress
    requires h != []
  {
    var last := h[|h| - 1];
    if |h| == 1 then Advance(Begin(last.event.timestamp), last, w)
    else Advance(Track(h[..|h| - 1], w), last, w)
  }

  /** The specification keeps every observation ever made; only the classification looks at the window. */
  function Log(h: seq<Input>, w: nat): seq<Observation> {
    if h == [] then []
    else
      var before, last := Log(h[..|h| - 1], w), h[|h| - 1];
      var stage := Classify(last.event, last.capabilities, Apps(InWindow(before, Cutoff(last.event.timestamp, w))));
      if stage.None? then before else before + [Observe(last.event, last.capabilities, stage.value)]
  }

  /** The part of the log inside the window that ends at the last event. */
  function Window(h: seq<Input>, w: nat): seq<Observation>
    requires h != []
  {
    InWindow(Log(h, w), Cutoff(h[|h| - 1].event.timestamp, w))
  }

  predicate Timely(h: seq<Input>) {
    forall i, j :: 0 <= i <= j < |h| ==> h[i].event.timestamp <= h[j].event.timestamp
  }

  predicate SawHighImpact(log: seq<Observation>) {
    exists o :: o in log && o.stage == HighImpactAction
  }

  /** The condition of the alert, in terms of the whole log. */
  predicate Alarm(h: seq<Input>, w: nat) {
    h != [] && |Window(h, w)| >= 3 && |Apps(Window(h, w))| >= 2 && SawHighImpact(Log(h, w))
  }

  predicate AlarmedWithin(h: seq<Input>, w: nat) {
    exists k :: 0 < k <= |h| && Alarm(h[..k], w)
  }

  lemma {:induction false} InWindowTwice(log: seq<Observation>, a: Time, b: Time)
    requires a <= b
    ensures InWindow(InWindow(log, a), b) == InWindow(log, b)
  {
    if log != [] {
      InWindowTwice(log[..|log| - 1], a, b);
      var kept, last := InWindow(log[..|log| - 1], a), log[|log| - 1];
      assert (kept + [last])[..|kept|] == kept;
    }
  }

  lemma {:induction false} InWindowPart(log: seq<Observation>, cutoff: Time)
    ensures |InWindow(log, cutoff)| <= |log|
    ensures forall o :: o in InWindow(log, cutoff) <==> o in log && o.timestamp >= cutoff
  {
    if log != [] {
      InWindowPart(log[..|log| - 1], cutoff);
      assert log == log[..|log| - 1] + [log[|log| - 1]];
    }
  }

  lemma SubsetSize<T>(a: set<T>, b: set<T>)
    requires a <= b
    ensures |a| <= |b|
  {
    assert b == a + (b - a);
  }

  /** Appending an observation of now to a log keeps it in the window. */
  lemma InWindowAppend(log: seq<Observation>, o: Observation, cutoff: Time)
    requires o.timestamp >= cutoff
    ensures InWindow(log + [o], cutoff) == InWindow(log, cutoff) + [o]
    ensures Apps(InWindow(log, cutoff) + [o]) == Apps(InWindow(log, cutoff)) + {o.appId}
  {
    assert (log + [o])[..|log|] == log;
  }

  /** A later event that adds no observation cannot make the alert condition true. */
  lemma QuietStepRaisesNoAlarm(h: seq<Input>, w: nat)
    requires |h| > 1 && Timely(h) && Log(h, w) == Log(h[..|h| - 1], w) && Alarm(h, w)
    ensures Alarm(h[..|h| - 1], w)
  {
    var before := h[..|h| - 1];
    var log := Log(before, w);
    var a, b := Cutoff(before[|before| - 1].event.timestamp, w), Cutoff(h[|h| - 1].event.timestamp, w);
    InWindowTwice(log, a, b);
    InWindowPart(InWindow(log, a), b);
    SubsetSize(Apps(Window(h, w)), Apps(Window(before, w)));
  }

  lemma AlarmedStep(h: seq<Input>, w: nat)
    requires h != []
    ensures AlarmedWithin(h, w) <==> AlarmedWithin(h[..|h| - 1], w) || Alarm(h, w)
  {
    hide Alarm;
    var before := h[..|h| - 1];
    assert h[..|h|] == h;
    if k :| 0 < k <= |before| && Alarm(before[..k], w) {
      assert before[..k] == h[..k];
    }
    if k :| 0 < k <= |h| && Alarm(h[..k], w) {
      if k < |h| {
        assert before[..k] == h[..k];
      }
    }
  }

  ghost predicate Refines(p: Progress, h: seq<Input>, w: nat)
    requires h != []
  {
    && p.stages == Window(h, w)
    && p.appsInvolved == Apps(Window(h, w))
    && (p.highestStage == HighImpactAction <==> SawHighImpact(Log(h, w)))
    && p.lastUpdated == h[|h| - 1].event.timestamp
    && (p.alertFired <==> AlarmedWithin(h, w))
  }

  /** Pruning at the next event leaves the log cut to the new window. */
  lemma PrunedRefines(h: seq<Input>, w: nat, p: Progress)
    requires h != [] && Timely(h)
    requires |h| == 1 ==> p == Begin(h[0].event.timestamp)
    requires |h| > 1 ==> Refines(p, h[..|h| - 1], w)
    ensures var q, log := Pruned(p, h[|h| - 1].event.timestamp, w), Log(h[..|h| - 1], w);
            && q.stages == InWindow(log, Cutoff(h[|h| - 1].event.timestamp, w)) && q.appsInvolved == Apps(q.stages)
            && (q.highestStage == HighImpactAction <==> SawHighImpact(log))
            && (q.alertFired <==> AlarmedWithin(h[..|h| - 1], w))
            && q.lastUpdated == h[|h| - 1].event.timestamp
  {
    hide Alarm, Classify;
    var before := h[..|h| - 1];
    if |h| > 1 {
      InWindowTwice(Log(before, w), Cutoff(before[|before| - 1].event.timestamp, w),
                    Cutoff(h[|h| - 1].event.timestamp, w));
    }
  }

  lemma QuietRefines(h: seq<Input>, w: nat, p: Progress)
    requires h != [] && Timely(h)
    requires Log(h, w) == Log(h[..|h| - 1], w)
    requires p.stages == Window(h, w) && p.appsInvolved == Apps(p.stages)
    requires p.highestStage == HighImpactAction <==> SawHighImpact(Log(h, w))
    requires p.alertFired <==> AlarmedWithin(h[..|h| - 1], w)
    requires p.lastUpdated == h[|h| - 1].event.timestamp
    ensures Refines(p, h, w)
  {
    AlarmedStep(h, w);
    if Alarm(h, w) {
      QuietAlarmHasPast(h, w);
    }
  }

  lemma QuietAlarmHasPast(h: seq<Input>, w: nat)
    requires h != [] && Timely(h) && Log(h, w) == Log(h[..|h| - 1], w) && Alarm(h, w)
    ensures AlarmedWithin(h[..|h| - 1], w)
  {
    hide Classify;
    var before := h[..|h| - 1];
    InWindowPart(Log(h, w), Cutoff(h[|h| - 1].event.timestamp, w));
    QuietStepRaisesNoAlarm(h, w);
    assert before[..|before|] == before;
  }

  lemma {:induction false} ObservedRefines(h: seq<Input>, w: nat, q: Progress, o: Observation)
    requires h != [] && o.timestamp == h[|h| - 1].event.timestamp
    requires var log := Log(h[..|h| - 1], w);
             && Log(h, w) == log + [o]
             && q.stages == InWindow(log, Cutoff(o.timestamp, w)) && q.appsInvolved == Apps(q.stages)
             && (q.highestStage == HighImpactAction <==> SawHighImpact(log))
             && (q.alertFired <==> AlarmedWithin(h[..|h| - 1], w))
             && q.lastUpdated == o.timestamp
    ensures var r := Recorded(q, o);
            Refines(r.(alertFired := r.alertFired || Complete(r)), h, w)
  {
    hide Classify, AlarmedWithin, SawHighImpact;
    var log := Log(h[..|h| - 1], w);
    InWindowAppend(log, o, Cutoff(o.timestamp, w));
    HighImpactStep(log, o);
    AlarmedStep(h, w);
  }

  lemma AdvanceRefines(h: seq<Input>, w: nat, p: Progress)
    requires h != [] && Timely(h)
    requires |h| == 1 ==> p == Begin(h[0].event.timestamp)
    requires |h| > 1 ==> Refines(p, h[..|h| - 1], w)
    ensures Refines(Advance(p, h[|h| - 1], w), h, w)
  {
    hide Classify, AlarmedWithin, SawHighImpact, Refines, Pruned, Recorded, Complete, Apps, InWindow;
    var last := h[|h| - 1];
    PrunedRefines(h, w, p);
    var q := Pruned(p, last.event.timestamp, w);
    var stage := Classify(last.event, last.capabilities, q.appsInvolved);
    if stage.None? {
      QuietRefines(h, w, q);
    } else {
      ObservedRefines(h, w, q, Observe(last.event, last.capabilities, stage.value));
    }
  }

  lemma HighImpactStep(log: seq<Observation>, o: Observation)
    ensures SawHighImpact(log + [o]) <==> SawHighImpact(log) || o.stage == HighImpactAction
  {
    if x :| x in log && x.stage == HighImpactAction {
      assert x in log + [o];
    }
    assert o in log + [o];
  }

  /** Detector refinement: with timestamps in order, the pruned state is the full log cut to the window. */
  lemma {:induction false} TrackRefines(h: seq<Input>, w: nat)
    requires h != [] && Timely(h)
    ensures Refines(Track(h, w), h, w)
  {
    hide Refines, Advance;
    if |h| > 1 {
      TrackRefines(h[..|h| - 1], w);
      AdvanceRefines(h, w, Track(h[..|h| - 1], w));
    } else {
      AdvanceRefines(h, w, Begin(h[0].event.timestamp));
    }
  }

  /** What the detector holds before the last event of h. */
  function Before(h: seq<Input>, w: nat): Progress
    requires h != []
  {
    if |h| == 1 then Begin(h[0].event.timestamp) else Track(h[..|h| - 1], w)
  }

  /** The alert is raised exactly at the first event at which the log satisfies the condition; so at most once. */
  lemma {:induction false} AlertIffFirstAlarm(h: seq<Input>, w: nat)
    requires h != [] && Timely(h)
    ensures Alert(Before(h, w), h[|h| - 1], w).Some? <==> Alarm(h, w) && !AlarmedWithin(h[..|h| - 1], w)
  {
    hide Advance, Alarm, AlarmedWithin;
    TrackAlarms(h, w);
    AlarmedStep(h, w);
    NoAlarmAtStart(w);
    if |h| > 1 {
      TrackAlarms(h[..|h| - 1], w);
    } else {
      assert h[..0] == [];
    }
    assert Track(h, w) == Advance(Before(h, w), h[|h| - 1], w);
  }

  lemma TrackAlarms(h: seq<Input>, w: nat)
    requires h != [] && Timely(h)
    ensures Track(h, w).alertFired <==> AlarmedWithin(h, w)
  {
    hide Track, Alarm, AlarmedWithin, Window, Log;
    TrackRefines(h, w);
  }

  lemma NoAlarmAtStart(w: nat)
    ensures !AlarmedWithin([], w)
  {
  }

  /** A lateral movement enters an application that is new among the observations in its window, of which there is
      at least one; so no lifetime starts with one. */
  lemma {:induction false} LateralEntersNewApp(h: seq<Input>, w: nat, k: nat)
    requires k < |Log(h, w)| && Log(h, w)[k].stage == LateralMovement
    ensures var log, cutoff := Log(h, w), Cutoff(Log(h, w)[k].timestamp, w);
            && (exists j :: 0 <= j < k && log[j].timestamp >= cutoff)
            && (forall j :: 0 <= j < k && log[j].timestamp >= cutoff ==> log[j].appId != log[k].appId)
    decreases |h|
  {
    var before, last := Log(h[..|h| - 1], w), h[|h| - 1];
    if k < |before| {
      LateralEntersNewApp(h[..|h| - 1], w, k);
      assert forall j :: 0 <= j <= k ==> Log(h, w)[j] == before[j];
    } else {
      var cutoff := Cutoff(last.event.timestamp, w);
      InWindowPart(before, cutoff);
      var o :| o in InWindow(before, cutoff);
      var j :| 0 <= j < |before| && before[j] == o;
      assert Log(h, w)[j].timestamp >= cutoff;
      forall i | 0 <= i < k && before[i].timestamp >= cutoff ensures before[i].appId != last.event.appId {
        assert before[i] in InWindow(before, cutoff);
      }
    }
  }

  // ---------- Runs of the detector ----------

  datatype Op = Evaluate(id: string, input: Input) | PruneStale(now: Time)

  function Step(m: map<string, Progress>, op: Op, w: nat): map<string, Progress> {
    match op
    case Evaluate(id, i) => m[id := Advance(Tracked(m, id, i.event.timestamp), i, w)]
    case PruneStale(now) => Fresh(m, now, w)
  }

  function Run(ops: seq<Op>, w: nat): map<string, Progress> {
    if ops == [] then map[] else Step(Run(ops[..|ops| - 1], w), ops[|ops| - 1], w)
  }

  /** The events of an entity since tracking began: a stale entity is forgotten by the prune. */
  function Since(ops: seq<Op>, id: string, w: nat): seq<Input> {
    if ops == [] then []
    else
      var before := Since(ops[..|ops| - 1], id, w);
      match ops[|ops| - 1]
      case Evaluate(i, input) => if i == id then before + [input] else before
      case PruneStale(now) =>
        if before != [] && before[|before| - 1].event.timestamp < Cutoff(now, w) then [] else before
  }

  /** The detector tracks each entity as if it were alone, from the last prune that forgot it. */
  lemma {:induction false} RunTracksLifetimes(ops: seq<Op>, w: nat, id: string)
    ensures id in Run(ops, w) <==> Since(ops, id, w) != []
    ensures id in Run(ops, w) ==> Run(ops, w)[id] == Track(Since(ops, id, w), w)
  {
    if ops != [] {
      var before, op := ops[..|ops| - 1], ops[|ops| - 1];
      RunTracksLifetimes(before, w, id);
      var h := Since(before, id, w);
      if op.Evaluate? && op.id == id {
        assert (h + [op.input])[..|h|] == h;
      }
      if h != [] {
        TrackUpdated(h, w);
      }
      hide Advance;
    }
  }

  lemma TrackUpdated(h: seq<Input>, w: nat)
    requires h != []
    ensures Track(h, w).lastUpdated == h[|h| - 1].event.timestamp
  {
  }

  /** So in every run the pruned stages and applications of a tracked entity are those of its full log, cut to the
      window, and its flag says whether the alert condition was ever met. */
  lemma {:induction false} DetectorRefines(ops: seq<Op>, w: nat, id: string)
    requires id in Run(ops, w) && Timely(Since(ops, id, w))
    ensures var p, h := Run(ops, w)[id], Since(ops, id, w);
            && h != [] && p.stages == Window(h, w) && p.appsInvolved == Apps(Window(h, w))
            && (p.alertFired <==> AlarmedWithin(h, w))
  {
    RunTracksLifetimes(ops, w, id);
    hide Run, Since, Track, Window, AlarmedWithin;
    TrackRefines(Since(ops, id, w), w);
  }

  /** The whole detector: an event raises the alert exactly when it is the first of its entity's lifetime at which
      at least three observations and two applications lie in the window and a high-impact one was ever made. */
  lemma {:induction false} DetectorAlertsIff(ops: seq<Op>, w: nat, id: string, i: Input)
    requires Timely(Since(ops, id, w) + [i])
    ensures var h := Since(ops, id, w) + [i];
            Alert(Tracked(Run(ops, w), id, i.event.timestamp), i, w).Some?
            <==> Alarm(h, w) && !AlarmedWithin(Since(ops, id, w), w)
  {
    RunTracksLifetimes(ops, w, id);
    var h := Since(ops, id, w) + [i];
    assert h[..|h| - 1] == Since(ops, id, w);
    AlertIffFirstAlarm(h, w);
  }
}
