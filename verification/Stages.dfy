/** The stages of an attack, event by event: what makes an event an observation, and when a history is an attack. */
module Stages {
  import opened Basics
  import opened Capabilities
  import opened Sequence

  /** The action failed, or was refused or missed its target. */
  predicate Failed(e: Event) {
    e.action.Some?
    && (!e.action.value.isSuccess || e.action.value.statusCode in {Some(401), Some(403), Some(404)})
  }

  /** Not a failure, and one of the three capabilities with high impact. */
  predicate HighImpact(i: Input) {
    !Failed(i.event)
    && exists c :: c in {AdminOperation, DataExport, ProcessExecute} && c in i.capabilities
  }

  predicate Succeeded(e: Event) {
    e.action.Some? && e.action.value.isSuccess
  }

  /** The remaining successes enter an application that is new among earlier observations, of which there are some. */
  predicate Moves(i: Input, apps: set<string>) {
    !Failed(i.event) && !HighImpact(i) && Succeeded(i.event) && apps != {} && i.event.appId !in apps
  }

  lemma ClassifyIs(i: Input, apps: set<string>)
    ensures Classify(i.event, i.capabilities, apps) ==
            if Failed(i.event) then Some(Reconnaissance)
            else if HighImpact(i) then Some(HighImpactAction)
            else if Moves(i, apps) then Some(LateralMovement)
            else None
  {
  }

  /** What one event appends, behind the observations that are still in the window. */
  lemma EventAppends(p: Progress, i: Input, w: int)
    ensures var q, e := Advance(p, i, w), i.event;
            var kept := InWindow(p.stages, e.timestamp - w * 1_000_000_000);
            if Failed(e) || HighImpact(i) || Moves(i, Apps(kept)) then
              && |q.stages| == |kept| + 1 && q.stages[..|kept|] == kept
              && var o := q.stages[|kept|];
                 && (o.stage == Reconnaissance <==> Failed(e))
                 && (o.stage == HighImpactAction <==> HighImpact(i))
                 && (o.stage == LateralMovement <==> Moves(i, Apps(kept)))
                 && o.appId == e.appId && o.timestamp == e.timestamp && o.eventId == e.eventId
                 && o.capability == (if i.capabilities == [] then None else Some(i.capabilities[0]))
            else q.stages == kept
  {
    ClassifyIs(i, Apps(InWindow(p.stages, Cutoff(i.event.timestamp, w))));
    hide Classify, Failed, Apps, InWindow;
  }

  // ---------- A whole history ----------

  /** Event k lies in the window that ends at event j. */
  predicate Recent(h: seq<Input>, k: nat, j: nat, w: nat)
    requires k < |h| && j < |h|
  {
    h[k].event.timestamp >= h[j].event.timestamp - w * 1_000_000_000
  }

  /** Event j of the history is an observation. */
  ghost predicate Noted(h: seq<Input>, j: nat, w: nat)
    requires j < |h|
    decreases j
  {
    || Failed(h[j].event)
    || HighImpact(h[j])
    || (&& Succeeded(h[j].event)
        && (exists k :: 0 <= k < j && Recent(h, k, j, w) && Noted(h, k, w))
        && forall k :: 0 <= k < j && Recent(h, k, j, w) && Noted(h, k, w) ==> h[k].event.appId != h[j].event.appId)
  }

  ghost function RecentlyNoted(h: seq<Input>, w: nat): set<nat>
    requires h != []
  {
    set j: nat | j < |h| && Recent(h, j, |h| - 1, w) && Noted(h, j, w)
  }

  /** At least three observations in at least two applications within the window, and one of high impact ever. */
  ghost predicate IsAttack(h: seq<Input>, w: nat) {
    && h != []
    && |RecentlyNoted(h, w)| >= 3
    && |set j | j in RecentlyNoted(h, w) :: h[j].event.appId| >= 2
    && exists i :: i in h && HighImpact(i)
  }

  /** The events noted so far, in order. */
  ghost function Notes(h: seq<Input>, n: nat, w: nat): (notes: seq<nat>)
    requires n <= |h|
    ensures forall j :: j in notes <==> 0 <= j < n && Noted(h, j, w)
    ensures forall i, j :: 0 <= i < j < |notes| ==> notes[i] < notes[j]
  {
    if n == 0 then []
    else
      var before := Notes(h, n - 1, w);
      assert forall i :: 0 <= i < |before| ==> before[i] in before;
      before + (if Noted(h, n - 1, w) then [n - 1] else [])
  }

  lemma {:induction false} NotedInPrefix(h: seq<Input>, n: nat, j: nat, w: nat)
    requires j < n <= |h|
    ensures Noted(h[..n], j, w) == Noted(h, j, w)
    decreases j
  {
    forall k | 0 <= k < j ensures Noted(h[..n], k, w) == Noted(h, k, w) {
      NotedInPrefix(h, n, k, w);
    }
    hide Failed, HighImpact;
    assert forall k :: 0 <= k <= j ==> h[..n][k] == h[k];
    assert forall k :: 0 <= k < j ==> Recent(h[..n], k, j, w) == Recent(h, k, j, w);
  }

  function StageOf(i: Input): Stage {
    if Failed(i.event) then Reconnaissance else if HighImpact(i) then HighImpactAction else LateralMovement
  }

  function ObservationOf(i: Input): Observation {
    Observe(i.event, i.capabilities, StageOf(i))
  }

  predicate Within(notes: seq<nat>, n: nat) {
    forall k :: 0 <= k < |notes| ==> notes[k] < n
  }

  ghost function Observations(h: seq<Input>, notes: seq<nat>): seq<Observation>
    requires Within(notes, |h|)
  {
    seq(|notes|, k requires 0 <= k < |notes| => ObservationOf(h[notes[k]]))
  }

  lemma NotesAreWithin(h: seq<Input>, n: nat, w: nat)
    requires n <= |h|
    ensures Within(Notes(h, n, w), n)
  {
    hide Noted;
    var notes := Notes(h, n, w);
    forall k | 0 <= k < |notes| ensures notes[k] < n {
      assert notes[k] in notes;
    }
  }

  lemma ObservationsMore(h: seq<Input>, notes: seq<nat>, j: nat)
    requires Within(notes, |h|) && j < |h|
    ensures Within(notes + [j], |h|)
    ensures Observations(h, notes + [j]) == Observations(h, notes) + [ObservationOf(h[j])]
  {
  }

  /** The applications among the observations in a window are those of the events. */
  lemma AppsOfNotes(h: seq<Input>, notes: seq<nat>, cutoff: Time)
    requires Within(notes, |h|)
    ensures Apps(InWindow(Observations(h, notes), cutoff))
         == set j | j in notes && j < |h| && h[j].event.timestamp >= cutoff :: h[j].event.appId
  {
    hide StageOf;
    var log := Observations(h, notes);
    InWindowPart(log, cutoff);
    var apps := set j | j in notes && j < |h| && h[j].event.timestamp >= cutoff :: h[j].event.appId;
    forall a | a in Apps(InWindow(log, cutoff)) ensures a in apps {
      var o :| o in InWindow(log, cutoff) && o.appId == a;
      var k :| 0 <= k < |log| && log[k] == o;
      assert notes[k] in notes;
    }
    forall a | a in apps ensures a in Apps(InWindow(log, cutoff)) {
      var j :| j in notes && j < |h| && h[j].event.timestamp >= cutoff && h[j].event.appId == a;
      var k :| 0 <= k < |notes| && notes[k] == j;
      assert log[k] in log;
    }
  }

  /** The applications of the events noted recently before event n. */
  ghost function EarlierApps(h: seq<Input>, n: nat, w: nat): set<string>
    requires n < |h|
  {
    set k | 0 <= k < n && Recent(h, k, n, w) && Noted(h, k, w) :: h[k].event.appId
  }

  lemma NotedUnfolds(h: seq<Input>, n: nat, w: nat)
    requires n < |h|
    ensures Noted(h, n, w) <==> Failed(h[n].event) || HighImpact(h[n]) || Moves(h[n], EarlierApps(h, n, w))
  {
    hide Failed, HighImpact, Recent;
    var apps := EarlierApps(h, n, w);
    if k :| 0 <= k < n && Recent(h, k, n, w) && Noted(h, k, w) {
      assert h[k].event.appId in apps;
    }
    forall k | 0 <= k < n && Recent(h, k, n, w) && Noted(h, k, w) ensures h[k].event.appId in apps {
    }
  }

  lemma EarlierAppsAre(h: seq<Input>, n: nat, w: nat)
    requires n < |h|
    ensures Within(Notes(h, n, w), |h|)
    ensures Apps(InWindow(Observations(h, Notes(h, n, w)), Cutoff(h[n].event.timestamp, w))) == EarlierApps(h, n, w)
  {
    NotesAreWithin(h, n, w);
    var notes, cutoff := Notes(h, n, w), Cutoff(h[n].event.timestamp, w);
    assert cutoff == h[n].event.timestamp - w * 1_000_000_000;
    assert forall j :: 0 <= j < n ==> (Recent(h, j, n, w) <==> h[j].event.timestamp >= cutoff);
    hide InWindow, Observations, Apps, Notes, Noted, Recent, Cutoff;
    AppsOfNotes(h, notes, cutoff);
    assert EarlierApps(h, n, w) == set j | j in notes && j < |h| && h[j].event.timestamp >= cutoff :: h[j].event.appId;
  }

  /** An event is noted exactly when it is classified among the observations before it. */
  lemma NotedIffClassified(h: seq<Input>, n: nat, w: nat)
    requires n < |h|
    ensures Within(Notes(h, n, w), |h|)
    ensures var apps := Apps(InWindow(Observations(h, Notes(h, n, w)), Cutoff(h[n].event.timestamp, w)));
            Classify(h[n].event, h[n].capabilities, apps) == if Noted(h, n, w) then Some(StageOf(h[n])) else None
  {
    EarlierAppsAre(h, n, w);
    NotedUnfolds(h, n, w);
    ClassifyIs(h[n], EarlierApps(h, n, w));
    hide Failed, HighImpact, Noted, EarlierApps, Notes, Observations, InWindow, Apps, Classify, Cutoff;
  }

  lemma LogMore(g: seq<Input>, i: Input, w: nat)
    ensures var apps := Apps(InWindow(Log(g, w), Cutoff(i.event.timestamp, w)));
            var stage := Classify(i.event, i.capabilities, apps);
            Log(g + [i], w)
            == Log(g, w) + (if stage.Some? then [Observe(i.event, i.capabilities, stage.value)] else [])
  {
    hide Classify, InWindow, Apps;
    assert (g + [i])[..|g|] == g;
  }

  /** One more event: what the log gains is what the notes gain. */
  lemma LogStep(h: seq<Input>, n: nat, w: nat)
    requires n < |h|
    requires Within(Notes(h, n, w), |h|) && Log(h[..n], w) == Observations(h, Notes(h, n, w))
    ensures Log(h[..n + 1], w) == Log(h[..n], w) + (if Noted(h, n, w) then [ObservationOf(h[n])] else [])
  {
    hide Noted, Classify, InWindow, Apps, StageOf, Observe, Observations, Notes, Log, Cutoff;
    assert h[..n + 1] == h[..n] + [h[n]];
    NotedIffClassified(h, n, w);
    LogMore(h[..n], h[n], w);
  }

  lemma NotesMore(h: seq<Input>, n: nat, w: nat)
    requires n < |h|
    ensures Notes(h, n + 1, w) == Notes(h, n, w) + (if Noted(h, n, w) then [n] else [])
  {
    hide Noted;
  }

  lemma NoLog(h: seq<Input>, w: nat)
    ensures Within(Notes(h, 0, w), |h|) && Log(h[..0], w) == Observations(h, Notes(h, 0, w))
  {
    hide Noted;
  }

  /** The log of the detector lists exactly the events noted, with their stages. */
  lemma {:induction false} LogIsNotes(h: seq<Input>, n: nat, w: nat)
    requires n <= |h|
    ensures Within(Notes(h, n, w), |h|) && Log(h[..n], w) == Observations(h, Notes(h, n, w))
  {
    hide Noted, Notes, Log, ObservationOf, Observations;
    if n == 0 {
      NoLog(h, w);
    } else {
      LogIsNotes(h, n - 1, w);
      LogStep(h, n - 1, w);
      NotesAreWithin(h, n, w);
      NotesMore(h, n - 1, w);
      ObservationsMore(h, Notes(h, n - 1, w), n - 1);
      assert Notes(h, n - 1, w) + [] == Notes(h, n - 1, w) && Log(h[..n - 1], w) + [] == Log(h[..n - 1], w);
    }
  }

  lemma InWindowMore(log: seq<Observation>, o: Observation, cutoff: Time)
    ensures InWindow(log + [o], cutoff) == InWindow(log, cutoff) + (if o.timestamp >= cutoff then [o] else [])
  {
    assert (log + [o])[..|log|] == log;
  }

  function Late(h: seq<Input>, notes: seq<nat>, cutoff: Time): set<nat> {
    set j | j in notes && j < |h| && h[j].event.timestamp >= cutoff
  }

  lemma LateMore(h: seq<Input>, notes: seq<nat>, j: nat, cutoff: Time)
    requires j < |h|
    ensures Late(h, notes + [j], cutoff)
         == Late(h, notes, cutoff) + (if h[j].event.timestamp >= cutoff then {j} else {})
  {
  }

  /** Distinct events in a window are as many as their observations. */
  lemma {:induction false} WindowSize(h: seq<Input>, notes: seq<nat>, cutoff: Time)
    requires Within(notes, |h|) && forall i, j :: 0 <= i < j < |notes| ==> notes[i] < notes[j]
    ensures |InWindow(Observations(h, notes), cutoff)| == |Late(h, notes, cutoff)|
  {
    if notes == [] {
      assert Late(h, notes, cutoff) == {};
    } else {
      var init, last := notes[..|notes| - 1], notes[|notes| - 1];
      assert notes == init + [last] && last !in Late(h, init, cutoff);
      hide InWindow, Late, Observations, ObservationOf;
      WindowSize(h, init, cutoff);
      ObservationsMore(h, init, last);
      InWindowMore(Observations(h, init), ObservationOf(h[last]), cutoff);
      LateMore(h, init, last, cutoff);
      TimeOfObservation(h[last]);
    }
  }

  lemma TimeOfObservation(i: Input)
    ensures ObservationOf(i).timestamp == i.event.timestamp
  {
  }

  lemma LateIsRecent(h: seq<Input>, w: nat)
    requires h != []
    ensures Late(h, Notes(h, |h|, w), Cutoff(h[|h| - 1].event.timestamp, w)) == RecentlyNoted(h, w)
  {
    hide Noted, Notes;
  }

  /** Observations and applications in the window that ends with the history. */
  lemma WindowIsRecent(h: seq<Input>, w: nat)
    requires h != []
    ensures |Window(h, w)| == |RecentlyNoted(h, w)|
    ensures Apps(Window(h, w)) == set j | j in RecentlyNoted(h, w) :: h[j].event.appId
  {
    hide Noted, Notes, InWindow, Apps, Log, Observations, RecentlyNoted, Cutoff;
    assert h[..|h|] == h;
    var notes, cutoff := Notes(h, |h|, w), Cutoff(h[|h| - 1].event.timestamp, w);
    LogIsNotes(h, |h|, w);
    WindowSize(h, notes, cutoff);
    AppsOfNotes(h, notes, cutoff);
    LateIsRecent(h, w);
    assert (set j | j in notes && j < |h| && h[j].event.timestamp >= cutoff :: h[j].event.appId)
        == set j | j in Late(h, notes, cutoff) :: h[j].event.appId;
  }

  /** The alarm of the detector is the attack condition on the events themselves. */
  lemma {:induction false} AlarmIsAttack(h: seq<Input>, w: nat)
    ensures Alarm(h, w) <==> IsAttack(h, w)
  {
    hide Window, Log, Apps, RecentlyNoted, HighImpact, SawHighImpact;
    if h != [] {
      WindowIsRecent(h, w);
      ImpactIsNoted(h, w);
    }
  }

  lemma ImpactIsNoted(h: seq<Input>, w: nat)
    ensures SawHighImpact(Log(h, w)) <==> exists i :: i in h && HighImpact(i)
  {
    hide HighImpact, Failed, Notes, Log;
    assert h[..|h|] == h;
    LogIsNotes(h, |h|, w);
    var notes := Notes(h, |h|, w);
    var log := Observations(h, notes);
    if o :| o in log && o.stage == HighImpactAction {
      var k :| 0 <= k < |log| && log[k] == o;
      assert h[notes[k]] in h;
    }
    if i :| i in h && HighImpact(i) {
      var j :| 0 <= j < |h| && h[j] == i;
      ImpactHasStage(i);
      assert Noted(h, j, w);
      var k :| 0 <= k < |notes| && notes[k] == j;
      assert log[k] in log && log[k].stage == HighImpactAction;
    }
  }

  lemma ImpactHasStage(i: Input)
    ensures StageOf(i) == HighImpactAction <==> HighImpact(i)
  {
  }

  /** The history is an attack, and was none at any earlier event. */
  ghost predicate FirstAttack(h: seq<Input>, w: nat) {
    IsAttack(h, w) && forall k :: 0 < k < |h| ==> !IsAttack(h[..k], w)
  }

  lemma FirstAlarmIsFirstAttack(g: seq<Input>, i: Input, w: nat)
    ensures Alarm(g + [i], w) && !AlarmedWithin(g, w) <==> FirstAttack(g + [i], w)
  {
    hide Alarm, IsAttack;
    var h := g + [i];
    AlarmIsAttack(h, w);
    forall k | 0 < k <= |g| ensures Alarm(g[..k], w) <==> IsAttack(h[..k], w) {
      AlarmIsAttack(g[..k], w);
      assert g[..k] == h[..k];
    }
  }

  /** The ids of the first n events that are noted and recent at the end of the history. */
  ghost function RecentIds(h: seq<Input>, n: nat, w: nat): seq<nat>
    requires n <= |h|
  {
    if n == 0 then []
    else RecentIds(h, n - 1, w)
         + (if Recent(h, n - 1, |h| - 1, w) && Noted(h, n - 1, w) then [h[n - 1].event.eventId] else [])
  }

  lemma IdsMore(log: seq<Observation>, o: Observation)
    ensures EventIds(log + [o]) == EventIds(log) + [o.eventId] && EventIds(log + []) == EventIds(log)
  {
    assert log + [] == log;
  }


  lemma RecentIdsStep(h: seq<Input>, notes: seq<nat>, n: nat, w: nat)
    requires n < |h| && Within(notes, |h|)
    ensures var cutoff := Cutoff(h[|h| - 1].event.timestamp, w);
            && Within(notes + [n], |h|)
            && EventIds(InWindow(Observations(h, notes + [n]), cutoff))
               == EventIds(InWindow(Observations(h, notes), cutoff))
                  + (if Recent(h, n, |h| - 1, w) then [h[n].event.eventId] else [])
  {
    var cutoff, o := Cutoff(h[|h| - 1].event.timestamp, w), ObservationOf(h[n]);
    assert Recent(h, n, |h| - 1, w) <==> o.timestamp >= cutoff;
    assert o.eventId == h[n].event.eventId;
    hide InWindow, Observations, EventIds, ObservationOf, Cutoff, Recent;
    var before := Observations(h, notes);
    ObservationsMore(h, notes, n);
    InWindowMore(before, o, cutoff);
    IdsMore(InWindow(before, cutoff), o);
  }

  /** The ids of the observations in the window that ends with the history. */
  ghost function WindowIds(h: seq<Input>, notes: seq<nat>, w: nat): seq<nat>
    requires h != [] && Within(notes, |h|)
  {
    EventIds(InWindow(Observations(h, notes), Cutoff(h[|h| - 1].event.timestamp, w)))
  }

  lemma NoIds(h: seq<Input>, w: nat)
    requires h != []
    ensures Within(Notes(h, 0, w), |h|) && WindowIds(h, Notes(h, 0, w), w) == []
  {
    hide Noted;
  }

  lemma WindowIdsStep(h: seq<Input>, n: nat, w: nat)
    requires n < |h|
    ensures Within(Notes(h, n, w), |h|) && Within(Notes(h, n + 1, w), |h|)
    ensures WindowIds(h, Notes(h, n + 1, w), w)
         == WindowIds(h, Notes(h, n, w), w)
          + (if Recent(h, n, |h| - 1, w) && Noted(h, n, w) then [h[n].event.eventId] else [])
  {
    hide Noted, InWindow, Observations, EventIds, Cutoff, Recent, Notes;
    NotesAreWithin(h, n, w);
    NotesAreWithin(h, n + 1, w);
    NotesMore(h, n, w);
    if Noted(h, n, w) {
      RecentIdsStep(h, Notes(h, n, w), n, w);
    } else {
      assert Notes(h, n, w) + [] == Notes(h, n, w);
    }
  }

  lemma {:induction false} RecentIdsAre(h: seq<Input>, n: nat, w: nat)
    requires n <= |h| && h != []
    ensures Within(Notes(h, n, w), |h|) && WindowIds(h, Notes(h, n, w), w) == RecentIds(h, n, w)
  {
    hide Noted, Notes, WindowIds, Within, Recent;
    NotesAreWithin(h, n, w);
    if n == 0 {
      NoIds(h, w);
    } else {
      RecentIdsAre(h, n - 1, w);
      WindowIdsStep(h, n - 1, w);
    }
  }

  /** Over every run of the detector, in terms of events alone: an event raises the alert exactly when its entity's
      history first becomes an attack, and the alert names the events noted within the window, in order. */
  lemma {:induction false} AlertsOnFirstAttack(ops: seq<Op>, w: nat, id: string, i: Input)
    requires Timely(Since(ops, id, w) + [i])
    ensures var h := Since(ops, id, w) + [i];
            var alert := Alert(Tracked(Run(ops, w), id, i.event.timestamp), i, w);
            && (alert.Some? <==> FirstAttack(h, w))
            && (alert.Some? ==> alert.value.matchedEventIds == RecentIds(h, |h|, w))
  {
    var g := Since(ops, id, w);
    var h := g + [i];
    var p := Tracked(Run(ops, w), id, i.event.timestamp);
    DetectorAlertsIff(ops, w, id, i);
    FirstAlarmIsFirstAttack(g, i, w);
    hide Alarm, IsAttack, FirstAttack, Advance, Log, Notes, Observations, InWindow, RecentIds, EventIds, Run, Timely,
      AlarmedWithin, Cutoff;
    DetectorRefines(ops + [Evaluate(id, i)], w, id) by {
      OneMore(ops, w, id, i);
    }
    OneMore(ops, w, id, i);
    assert h[..|h|] == h;
    LogIsNotes(h, |h|, w);
    RecentIdsAre(h, |h|, w);
  }

  lemma OneMore(ops: seq<Op>, w: nat, id: string, i: Input)
    ensures var more := ops + [Evaluate(id, i)];
            && Since(more, id, w) == Since(ops, id, w) + [i] && id in Run(more, w)
            && Run(more, w)[id] == Advance(Tracked(Run(ops, w), id, i.event.timestamp), i, w)
  {
    hide Advance;
    assert (ops + [Evaluate(id, i)])[..|ops|] == ops;
  }

  /** The highest stage seen in a log, in the order of reconnaissance, lateral movement and high impact. */
  predicate IsHighest(s: Stage, log: seq<Observation>) {
    match s
    case HighImpactAction => exists o :: o in log && o.stage == HighImpactAction
    case LateralMovement =>
      (forall o :: o in log ==> o.stage != HighImpactAction) && exists o :: o in log && o.stage == LateralMovement
    case Reconnaissance => forall o :: o in log ==> o.stage == Reconnaissance
  }

  lemma HighestMore(s: Stage, log: seq<Observation>, o: Observation)
    requires IsHighest(s, log)
    ensures IsHighest(if Rank(o.stage) > Rank(s) then o.stage else s, log + [o])
  {
    assert o in log + [o];
    assert forall x :: x in log + [o] <==> x in log || x == o;
  }

  lemma HighestStep(p: Progress, log: seq<Observation>, i: Input, w: nat)
    requires IsHighest(p.highestStage, log)
    requires InWindow(p.stages, Cutoff(i.event.timestamp, w)) == InWindow(log, Cutoff(i.event.timestamp, w))
    ensures var stage := Classify(i.event, i.capabilities, Apps(InWindow(log, Cutoff(i.event.timestamp, w))));
            IsHighest(Advance(p, i, w).highestStage,
                      log + if stage.Some? then [Observe(i.event, i.capabilities, stage.value)] else [])
  {
    hide Classify, InWindow, Apps, IsHighest;
    var stage := Classify(i.event, i.capabilities, Apps(InWindow(log, Cutoff(i.event.timestamp, w))));
    if stage.Some? {
      HighestMore(p.highestStage, log, Observe(i.event, i.capabilities, stage.value));
    } else {
      assert log + [] == log;
    }
  }

  /** Before its last event a run has a highest stage, and its pruned log is that of the specification. */
  ghost predicate Ready(h: seq<Input>, w: nat)
    requires h != []
  {
    var log, cutoff := Log(h[..|h| - 1], w), Cutoff(h[|h| - 1].event.timestamp, w);
    IsHighest(Before(h, w).highestStage, log) && InWindow(Before(h, w).stages, cutoff) == InWindow(log, cutoff)
  }

  lemma FirstIsReady(h: seq<Input>, w: nat)
    requires |h| == 1
    ensures Ready(h, w)
  {
    assert Log(h[..0], w) == [];
  }

  lemma NextIsReady(h: seq<Input>, w: nat)
    requires |h| > 1 && Timely(h) && IsHighest(Track(h[..|h| - 1], w).highestStage, Log(h[..|h| - 1], w))
    ensures Ready(h, w)
  {
    hide Track, Log, InWindow, IsHighest, Apps;
    var before := h[..|h| - 1];
    TrackRefines(before, w);
    InWindowTwice(Log(before, w), Cutoff(before[|before| - 1].event.timestamp, w),
                  Cutoff(h[|h| - 1].event.timestamp, w));
  }

  lemma TrackAdvances(h: seq<Input>, w: nat)
    requires h != []
    ensures Track(h, w) == Advance(Before(h, w), h[|h| - 1], w)
  {
    hide Advance;
  }

  /** The detector keeps the highest stage an entity has reached since tracking began. */
  lemma {:induction false} HighestStageIs(h: seq<Input>, w: nat)
    requires h != [] && Timely(h)
    ensures IsHighest(Track(h, w).highestStage, Log(h, w))
  {
    hide Track, Before, Log, InWindow, Classify, Apps, Advance, IsHighest;
    var before, last := h[..|h| - 1], h[|h| - 1];
    if |h| > 1 {
      HighestStageIs(before, w);
      NextIsReady(h, w);
    } else {
      FirstIsReady(h, w);
    }
    HighestStep(Before(h, w), Log(before, w), last, w);
    LogMore(before, last, w);
    assert h == before + [last];
    TrackAdvances(h, w);
  }
}
