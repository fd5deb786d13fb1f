/** The correlation engine: each event goes through identity resolution, the inference of capabilities, the context
    graph and the detector of attack sequences. What does the whole raise for the events of one entity? */
module Correlation {
  import opened Basics
  import opened Capabilities
  import EdgeIds
  import Events
  import G = Graph
  import GT = GraphTheorems
  import I = Identity
  import IT = IdentityTheorems
  import Lineage
  import S = Sequence
  import Stages

  datatype Action = Action(verb: Option<string>, endpoint: Option<string>, isSuccess: bool, statusCode: Option<nat>)

  datatype Resource = Resource(resourceId: Option<string>, resourceType: Option<string>)

  /** A security event, as far as correlation looks at it. */
  datatype Event = Event(eventId: nat, timestamp: Time, appId: string, eventType: string, actor: Option<I.Actor>,
                         containerId: Option<string>, ip: Option<string>, pid: Option<nat>, processName: Option<string>,
                         sensor: Events.SensorType, action: Option<Action>, resource: Option<Resource>)
  {
    function ForIdentity(): I.Event {
      I.Event(timestamp, appId, actor, containerId, ip, pid)
    }

    function ForGraph(): G.Event {
      G.Event(timestamp, appId, eventType,
              if action.Some? then
                Some(G.Action(action.value.verb, action.value.endpoint, action.value.statusCode)) else None,
              if resource.Some? then resource.value.resourceId else None, ip)
    }

    function ForDetector(): S.Event {
      S.Event(timestamp, appId,
              if action.Some? then Some(S.Action(action.value.isSuccess, action.value.statusCode)) else None, eventId)
    }

    function Endpoint(): string {
      if action.Some? && action.value.endpoint.Some? then action.value.endpoint.value else ""
    }
  }

  function Only(c: Capability, holds: bool): seq<Capability> {
    if holds then [c] else []
  }

  function DatabaseAccess(e: Event): seq<Capability> {
    if e.resource.Some? && e.resource.value.resourceType.Some?
       && (Contains(e.resource.value.resourceType.value, "db")
           || Contains(e.resource.value.resourceType.value, "database")
           || Contains(e.resource.value.resourceType.value, "table"))
    then [if e.action.Some? && e.action.value.verb != Some("GET") then DatabaseWrite else DatabaseRead]
    else []
  }

  predicate Executes(e: Event) {
    e.processName.Some? || e.eventType == "kernel.process_exec" || e.sensor in {Events.Tetragon, Events.NativeSensor}
  }

  predicate Authenticates(e: Event) {
    "auth." <= e.eventType || Contains(e.Endpoint(), "/auth/") || Contains(e.Endpoint(), "/login")
  }

  predicate Administers(e: Event) {
    "admin." <= e.eventType || "/admin" <= e.Endpoint() || Contains(e.Endpoint(), "/actuator")
    || Contains(e.Endpoint(), "/config")
  }

  predicate Exports(e: Event) {
    Contains(e.eventType, "export") || Contains(e.Endpoint(), "/export") || Contains(e.Endpoint(), "/dump")
    || Contains(e.Endpoint(), "/backup")
  }

  predicate Connects(e: Event) {
    e.sensor == Events.Hubble || e.eventType == "network_flow"
  }

  predicate Reads(e: Event) {
    Contains(e.eventType, "file") || Contains(e.eventType, "directory")
  }

  function OfAccounts(e: Event): seq<Capability> {
    Only(ProcessExecute, Executes(e)) + Only(SessionAuthenticate, Authenticates(e))
    + Only(AdminOperation, Administers(e))
  }

  function OfData(e: Event): seq<Capability> {
    OfAccounts(e) + Only(DataExport, Exports(e)) + DatabaseAccess(e)
  }

  /** `infer_capabilities` */
  function Inferred(e: Event): seq<Capability> {
    OfData(e) + Only(NetworkConnect, Connects(e)) + Only(FilesystemRead, Reads(e))
  }

  // ---------- Which capabilities ----------

  function Place(e: Event): string {
    match e.action
    case Some(Action(_, Some(endpoint), _, _)) => endpoint
    case _ => ""
  }

  /** The resource is a database or a table. */
  ghost predicate OnDatabase(e: Event) {
    && e.resource.Some? && e.resource.value.resourceType.Some?
    && OneOccurs({"db", "database", "table"}, e.resource.value.resourceType.value)
  }

  /** The action is something else than a GET. */
  predicate Modifies(e: Event) {
    match e.action
    case Some(action) => action.verb != Some("GET")
    case None => false
  }

  /** What an event shows about the capabilities it exercises. */
  ghost predicate Shows(e: Event, c: Capability) {
    match c
    case ProcessExecute =>
      e.processName.Some? || e.eventType == "kernel.process_exec" || e.sensor in {Events.Tetragon, Events.NativeSensor}
    case SessionAuthenticate => "auth." <= e.eventType || OneOccurs({"/auth/", "/login"}, Place(e))
    case AdminOperation =>
      "admin." <= e.eventType || "/admin" <= Place(e) || OneOccurs({"/actuator", "/config"}, Place(e))
    case DataExport => Occurs("export", e.eventType) || OneOccurs({"/export", "/dump", "/backup"}, Place(e))
    case DatabaseRead => OnDatabase(e) && !Modifies(e)
    case DatabaseWrite => OnDatabase(e) && Modifies(e)
    case NetworkConnect => e.sensor == Events.Hubble || e.eventType == "network_flow"
    case FilesystemRead => OneOccurs({"file", "directory"}, e.eventType)
    case FilesystemWrite => false
  }

  /** The place of a capability among those inferred. */
  function Turn(c: Capability): nat {
    match c
    case ProcessExecute => 0
    case SessionAuthenticate => 1
    case AdminOperation => 2
    case DataExport => 3
    case DatabaseRead => 4
    case DatabaseWrite => 4
    case NetworkConnect => 5
    case FilesystemRead => 6
    case FilesystemWrite => 7
  }

  lemma OneOfTwo(a: string, b: string, text: string)
    ensures OneOccurs({a, b}, text) <==> Contains(text, a) || Contains(text, b)
  {
    hide Contains, Occurs;
    ContainsIff(text, a);
    ContainsIff(text, b);
  }

  lemma OneOfThree(a: string, b: string, c: string, text: string)
    ensures OneOccurs({a, b, c}, text) <==> Contains(text, a) || Contains(text, b) || Contains(text, c)
  {
    hide Contains, Occurs;
    ContainsIff(text, a);
    ContainsIff(text, b);
    ContainsIff(text, c);
  }

  lemma DatabaseShows(e: Event)
    ensures DatabaseAccess(e) == if OnDatabase(e) then [if Modifies(e) then DatabaseWrite else DatabaseRead] else []
  {
    hide Contains, Occurs;
    if e.resource.Some? && e.resource.value.resourceType.Some? {
      var kind := e.resource.value.resourceType.value;
      ContainsIff(kind, "db");
      ContainsIff(kind, "database");
      ContainsIff(kind, "table");
    }
  }

  /** In their turn, and all before the n-th. */
  predicate InTurn(s: seq<Capability>, n: nat) {
    (forall i :: 0 <= i < |s| ==> Turn(s[i]) < n) && forall i, j :: 0 <= i < j < |s| ==> Turn(s[i]) < Turn(s[j])
  }

  lemma NextTurn(s: seq<Capability>, t: seq<Capability>, n: nat)
    requires InTurn(s, n) && |t| <= 1 && (t != [] ==> Turn(t[0]) == n)
    ensures InTurn(s + t, n + 1) && forall c :: c in s + t <==> c in s || c in t
  {
  }

  lemma OnlyIs(c: Capability, holds: bool)
    ensures |Only(c, holds)| <= 1 && (Only(c, holds) != [] ==> Only(c, holds)[0] == c)
    ensures forall d :: d in Only(c, holds) <==> holds && d == c
  {
  }

  lemma AuthenticatesShows(e: Event)
    ensures Shows(e, SessionAuthenticate) == Authenticates(e)
  {
    assert Place(e) == e.Endpoint();
    hide Contains, OneOccurs, Place;
    OneOfTwo("/auth/", "/login", Place(e));
  }

  lemma AdministersShows(e: Event)
    ensures Shows(e, AdminOperation) == Administers(e)
  {
    assert Place(e) == e.Endpoint();
    hide Contains, OneOccurs, Place;
    OneOfTwo("/actuator", "/config", Place(e));
  }

  lemma ExportsShows(e: Event)
    ensures Shows(e, DataExport) == Exports(e)
  {
    assert Place(e) == e.Endpoint();
    hide Contains, Occurs, OneOccurs, Place;
    ContainsIff(e.eventType, "export");
    OneOfThree("/export", "/dump", "/backup", Place(e));
  }

  lemma ReadsShows(e: Event)
    ensures Shows(e, FilesystemRead) == Reads(e)
  {
    hide Contains, OneOccurs;
    OneOfTwo("file", "directory", e.eventType);
  }

  lemma Turns(c: Capability)
    ensures Turn(c) == 0 <==> c == ProcessExecute
    ensures Turn(c) == 1 <==> c == SessionAuthenticate
    ensures Turn(c) == 2 <==> c == AdminOperation
    ensures Turn(c) == 3 <==> c == DataExport
    ensures Turn(c) == 4 <==> c == DatabaseRead || c == DatabaseWrite
    ensures Turn(c) == 5 <==> c == NetworkConnect
    ensures Turn(c) == 6 <==> c == FilesystemRead
    ensures Turn(c) < 8 && (Turn(c) == 7 <==> c == FilesystemWrite)
  {
  }

  /** The part of the inferred capabilities that comes before turn n. */
  ghost predicate ShownBefore(e: Event, s: seq<Capability>, n: nat) {
    InTurn(s, n) && forall c :: c in s <==> Turn(c) < n && Shows(e, c)
  }

  lemma OneShown(e: Event, s: seq<Capability>, c: Capability, holds: bool)
    requires ShownBefore(e, s, Turn(c)) && Shows(e, c) == holds && c != DatabaseRead && c != DatabaseWrite
    ensures ShownBefore(e, s + Only(c, holds), Turn(c) + 1)
  {
    forall d ensures Turn(d) == Turn(c) ==> d == c {
      Turns(c);
      Turns(d);
    }
    OnlyIs(c, holds);
    NextTurn(s, Only(c, holds), Turn(c));
    hide Shows, Only, InTurn;
  }

  lemma DatabaseShown(e: Event, s: seq<Capability>)
    requires ShownBefore(e, s, 4)
    ensures ShownBefore(e, s + DatabaseAccess(e), 5)
  {
    DatabaseShows(e);
    hide OnDatabase, Modifies, DatabaseAccess, InTurn;
    NextTurn(s, DatabaseAccess(e), 4);
    forall c ensures Turn(c) == 4 <==> c == DatabaseRead || c == DatabaseWrite {
      Turns(c);
    }
  }

  lemma NothingShown(e: Event)
    ensures ShownBefore(e, [], 0)
  {
    hide Shows;
  }

  /** An event is taken to exercise exactly the capabilities it shows, each once and in their turn. */
  lemma InferredIff(e: Event)
    ensures forall i, j :: 0 <= i < j < |Inferred(e)| ==> Turn(Inferred(e)[i]) < Turn(Inferred(e)[j])
    ensures forall c :: c in Inferred(e) <==> Shows(e, c)
  {
    assert !Shows(e, FilesystemWrite);
    forall c ensures c == FilesystemWrite || Turn(c) < 7 {
      Turns(c);
    }
    InferredShown(e);
    hide Shows, Inferred, Turn;
  }

  lemma AccountsShown(e: Event)
    ensures ShownBefore(e, OfAccounts(e), 3)
  {
    assert Shows(e, ProcessExecute) == Executes(e);
    assert Turn(ProcessExecute) == 0 && Turn(SessionAuthenticate) == 1 && Turn(AdminOperation) == 2;
    var a, b := Only(ProcessExecute, Executes(e)), Only(SessionAuthenticate, Authenticates(e));
    assert [] + a == a;
    hide Only, Shows, ShownBefore, Turn, Executes, Authenticates, Administers;
    AuthenticatesShows(e);
    AdministersShows(e);
    NothingShown(e);
    OneShown(e, [], ProcessExecute, Executes(e));
    OneShown(e, a, SessionAuthenticate, Authenticates(e));
    OneShown(e, a + b, AdminOperation, Administers(e));
  }

  lemma DataShown(e: Event)
    ensures ShownBefore(e, OfData(e), 5)
  {
    assert Turn(DataExport) == 3;
    hide Only, DatabaseAccess, OfAccounts, Shows, ShownBefore, Turn, Exports;
    ExportsShows(e);
    AccountsShown(e);
    OneShown(e, OfAccounts(e), DataExport, Exports(e));
    DatabaseShown(e, OfAccounts(e) + Only(DataExport, Exports(e)));
  }

  lemma InferredShown(e: Event)
    ensures ShownBefore(e, Inferred(e), 7)
  {
    assert Shows(e, NetworkConnect) == Connects(e) && Turn(NetworkConnect) == 5 && Turn(FilesystemRead) == 6;
    hide Only, OfData, Shows, ShownBefore, Turn, Connects, Reads;
    ReadsShows(e);
    DataShown(e);
    OneShown(e, OfData(e), NetworkConnect, Connects(e));
    OneShown(e, OfData(e) + Only(NetworkConnect, Connects(e)), FilesystemRead, Reads(e));
  }

  function Names(capabilities: seq<Capability>): set<string> {
    set c | c in capabilities :: CapabilityName(c)
  }

  /** What the three components hold. */
  datatype State = State(directory: I.Directory, graph: G.Graph, progress: map<string, S.Progress>)

  const START := State(I.EMPTY, G.EMPTY, map[])

  function InputOf(e: Event): S.Input {
    S.Input(e.ForDetector(), Inferred(e))
  }

  function SightingOf(e: Event, now: Time): I.Sighting {
    I.Sighting(e.ForIdentity(), now, Names(Inferred(e)))
  }

  function Processed(x: State, e: Event, now: Time, w: int): State {
    var id := I.Resolved(x.directory, e.ForIdentity());
    State(I.Step(x.directory, SightingOf(e, now)),
          G.AllTouched(x.graph, G.Touches(e.ForGraph(), id, Inferred(e)), e.timestamp),
          x.progress[id := S.Advance(S.Tracked(x.progress, id, e.timestamp), InputOf(e), w)])
  }

  /** The alert that processing an event raises. */
  function AlertOn(x: State, e: Event, w: int): Option<S.Signal> {
    S.Alert(S.Tracked(x.progress, I.Resolved(x.directory, e.ForIdentity()), e.timestamp), InputOf(e), w)
  }

  /** What each component is told about an event: its time, its application and what it shows, and of its parts those
      that the component looks at. */
  lemma ViewsAre(e: Event, now: Time)
    ensures var s := SightingOf(e, now);
            && s.now == now && s.event.timestamp == e.timestamp && s.event.appId == e.appId && s.event.actor == e.actor
            && s.event.containerId == e.containerId && s.event.ip == e.ip && s.event.pid == e.pid
            && forall word :: word in s.capabilities <==> exists c :: Shows(e, c) && CapabilityName(c) == word
    ensures var g := e.ForGraph();
            && g.timestamp == e.timestamp && g.appId == e.appId && g.eventType == e.eventType && g.ip == e.ip
            && (g.action.Some? <==> e.action.Some?)
            && (e.action.Some? ==> && g.action.value.verb == e.action.value.verb
                                   && g.action.value.endpoint == e.action.value.endpoint
                                   && g.action.value.statusCode == e.action.value.statusCode)
            && (e.resource.Some? ==> g.resourceId == e.resource.value.resourceId)
            && (e.resource.None? ==> g.resourceId == None)
    ensures var x := InputOf(e);
            && x.event.timestamp == e.timestamp && x.event.appId == e.appId && x.event.eventId == e.eventId
            && (x.event.action.Some? <==> e.action.Some?)
            && (e.action.Some? ==> && x.event.action.value.isSuccess == e.action.value.isSuccess
                                   && x.event.action.value.statusCode == e.action.value.statusCode)
            && forall c :: c in x.capabilities <==> Shows(e, c)
  {
    InferredIff(e);
    hide Inferred, Shows;
    assert forall word :: word in Names(Inferred(e)) <==> exists c :: c in Inferred(e) && CapabilityName(c) == word;
  }

  /** The engine, which drives three components in place. */
  class CorrelationEngine {
    const identity: I.IdentityResolver
    const graph: G.MemoryContextGraph
    const sequenceDetector: S.CrossAppSequenceDetector

    function Contents(): State
      reads identity, graph, sequenceDetector
    {
      State(identity.Contents(), graph.Contents(), sequenceDetector.entityProgress)
    }

    constructor ()
      ensures Contents() == START && graph.ttlSeconds == 3600 && sequenceDetector.windowSeconds == 600
      ensures fresh(identity) && fresh(graph) && fresh(sequenceDetector)
    {
      identity := new I.IdentityResolver();
      graph := new G.MemoryContextGraph(3600);
      sequenceDetector := new S.CrossAppSequenceDetector(600);
    }

    method ProcessEvent(event: Event, now: Time) returns (id: string, signal: Option<S.Signal>)
      modifies identity, graph, sequenceDetector
      ensures Contents() == Processed(old(Contents()), event, now, sequenceDetector.windowSeconds)
      ensures id == I.Resolved(old(identity.Contents()), event.ForIdentity())
      ensures signal == AlertOn(old(Contents()), event, sequenceDetector.windowSeconds)
    {
      hide I.Resolve, I.Resolved, I.AddCapabilities, G.AllTouched, G.Touches, S.Advance, S.Alert, Inferred;
      id := identity.ResolveAndUpdate(event.ForIdentity(), now);
      var capabilities := Inferred(event);
      identity.NoteCapabilities(id, Names(capabilities));
      graph.RecordEvent(event.ForGraph(), id, capabilities);
      signal := sequenceDetector.EvaluateEvent(event.ForDetector(), id, capabilities);
    }
  }

  // ---------- Every history ----------

  datatype Op = Process(event: Event, now: Time) | PruneGraph(cutoff: Time) | PruneStale(now: Time)

  function Step(x: State, op: Op, w: int): State {
    match op
    case Process(e, now) => Processed(x, e, now, w)
    case PruneGraph(cutoff) => x.(graph := G.Pruned(x.graph, cutoff))
    case PruneStale(now) => x.(progress := S.Fresh(x.progress, now, w))
  }

  function Run(ops: seq<Op>, w: int): State {
    if ops == [] then START else Step(Run(ops[..|ops| - 1], w), ops[|ops| - 1], w)
  }

  /** The events of a history, as the resolver sees them. */
  function Sightings(ops: seq<Op>): seq<I.Sighting> {
    if ops == [] then []
    else
      var before := Sightings(ops[..|ops| - 1]);
      match ops[|ops| - 1]
      case Process(e, now) => before + [SightingOf(e, now)]
      case _ => before
  }

  /** The id of the next event after a history. */
  function IdAfter(ops: seq<Op>, e: Event): string {
    I.Resolved(I.Run(Sightings(ops)), e.ForIdentity())
  }

  function GraphOp(before: seq<Op>, op: Op): seq<GT.Op> {
    match op
    case Process(e, _) => [GT.Record(e.ForGraph(), IdAfter(before, e), Inferred(e))]
    case PruneGraph(cutoff) => [GT.Prune(cutoff)]
    case PruneStale(_) => []
  }

  function GraphOps(ops: seq<Op>): seq<GT.Op> {
    if ops == [] then [] else GraphOps(ops[..|ops| - 1]) + GraphOp(ops[..|ops| - 1], ops[|ops| - 1])
  }

  function DetectorOp(before: seq<Op>, op: Op): seq<S.Op> {
    match op
    case Process(e, _) => [S.Evaluate(IdAfter(before, e), InputOf(e))]
    case PruneGraph(_) => []
    case PruneStale(now) => [S.PruneStale(now)]
  }

  function DetectorOps(ops: seq<Op>): seq<S.Op> {
    if ops == [] then [] else DetectorOps(ops[..|ops| - 1]) + DetectorOp(ops[..|ops| - 1], ops[|ops| - 1])
  }

  lemma IdentityMore(h: seq<I.Sighting>, s: I.Sighting)
    ensures I.Run(h + [s]) == I.Step(I.Run(h), s)
  {
    assert (h + [s])[..|h|] == h;
  }

  lemma GraphMore(ops: seq<GT.Op>, op: GT.Op)
    ensures GT.Run(ops + [op]) == GT.Step(GT.Run(ops), op)
  {
    assert (ops + [op])[..|ops|] == ops;
  }

  lemma DetectorMore(ops: seq<S.Op>, op: S.Op, w: nat)
    ensures S.Run(ops + [op], w) == S.Step(S.Run(ops, w), op, w)
  {
    assert (ops + [op])[..|ops|] == ops;
  }

  /** The engine is its three components, each fed with what the resolver makes of the events. */
  lemma {:induction false} RunIsComponents(ops: seq<Op>, w: nat)
    ensures Run(ops, w) == State(I.Run(Sightings(ops)), GT.Run(GraphOps(ops)), S.Run(DetectorOps(ops), w))
  {
    if ops != [] {
      hide I.Run, I.Step, I.Resolved, GT.Run, G.AllTouched, G.Touches, G.Pruned, S.Run, S.Advance, S.Fresh, S.Tracked,
        S.Since, InputOf, SightingOf, Inferred;
      var before := ops[..|ops| - 1];
      RunIsComponents(before, w);
      assert GraphOps(before) + [] == GraphOps(before) && DetectorOps(before) + [] == DetectorOps(before);
      match ops[|ops| - 1] {
        case Process(e, now) =>
          IdentityMore(Sightings(before), SightingOf(e, now));
          GraphMore(GraphOps(before), GT.Record(e.ForGraph(), IdAfter(before, e), Inferred(e)));
          DetectorMore(DetectorOps(before), S.Evaluate(IdAfter(before, e), InputOf(e)), w);
        case PruneGraph(cutoff) => GraphMore(GraphOps(before), GT.Prune(cutoff));
        case PruneStale(now) => DetectorMore(DetectorOps(before), S.PruneStale(now), w);
      }
    } else {
      assert I.Run([]) == I.EMPTY && GT.Run([]) == G.EMPTY && S.Run([], w) == map[];
    }
  }

  /** An event raises the alert exactly when it is the first to meet the alarm condition among the events booked on
      its id since the detector last forgot that id. */
  lemma {:induction false} BookedAlertIff(ops: seq<Op>, e: Event, w: nat)
    requires S.Timely(S.Since(DetectorOps(ops), IdAfter(ops, e), w) + [InputOf(e)])
    ensures var h := S.Since(DetectorOps(ops), IdAfter(ops, e), w);
            AlertOn(Run(ops, w), e, w).Some? <==> S.Alarm(h + [InputOf(e)], w) && !S.AlarmedWithin(h, w)
  {
    RunIsComponents(ops, w);
    hide I.Run, I.Resolved, GT.Run, S.Run, S.Alert, S.Tracked, S.Since, S.Alarm, S.AlarmedWithin, S.Timely, Inferred,
      Run, Sightings, DetectorOps;
    S.DetectorAlertsIff(DetectorOps(ops), w, IdAfter(ops, e), InputOf(e));
  }

  // ---------- The events of one entity ----------

  /** The part of a step that an entity notices. */
  function Effect(x: seq<S.Op>, id: string): seq<S.Op> {
    if x != [] && x[0].Evaluate? && x[0].id != id then [] else x
  }

  /** What an entity's history becomes by one step. */
  function Extended(h: seq<S.Input>, x: seq<S.Op>, w: nat): seq<S.Input> {
    if x == [] then h
    else if x[0].Evaluate? then h + [x[0].input]
    else if h != [] && h[|h| - 1].event.timestamp < S.Cutoff(x[0].now, w) then []
    else h
  }

  lemma SinceOne(a: seq<S.Op>, op: S.Op, id: string, w: nat)
    ensures S.Since(a + [op], id, w) == Extended(S.Since(a, id, w), Effect([op], id), w)
  {
    assert (a + [op])[..|a|] == a;
  }

  lemma SinceExtends(a: seq<S.Op>, x: seq<S.Op>, id: string, w: nat)
    requires |x| <= 1
    ensures S.Since(a + x, id, w) == Extended(S.Since(a, id, w), Effect(x, id), w)
  {
    if x == [] {
      assert a + x == a;
    } else {
      assert x == [x[0]];
      hide S.Since, Extended, Effect;
      SinceOne(a, x[0], id, w);
    }
  }

  lemma SinceMore(a: seq<S.Op>, b: seq<S.Op>, x: seq<S.Op>, y: seq<S.Op>, id: string, w: nat)
    requires S.Since(a, id, w) == S.Since(b, id, w) && |x| <= 1 && |y| <= 1 && Effect(x, id) == Effect(y, id)
    ensures S.Since(a + x, id, w) == S.Since(b + y, id, w)
  {
    hide *;
    SinceExtends(a, x, id, w);
    SinceExtends(b, y, id, w);
  }

  /** How the event would have been booked in the end, unless its id has been absorbed since. */
  function SurvivingOp(before: seq<Op>, op: Op, h: seq<I.Sighting>): seq<S.Op> {
    match op
    case Process(e, _) =>
      if Lineage.Alive(h, IdAfter(before, e)) then
        [S.Evaluate(IT.Owner(I.Run(h).aliases, e.ForIdentity()), InputOf(e))] else []
    case PruneGraph(_) => []
    case PruneStale(now) => [S.PruneStale(now)]
  }

  function SurvivingOps(ops: seq<Op>, h: seq<I.Sighting>): seq<S.Op> {
    if ops == [] then []
    else SurvivingOps(ops[..|ops| - 1], h) + SurvivingOp(ops[..|ops| - 1], ops[|ops| - 1], h)
  }

  lemma SurvivingEffect(before: seq<Op>, op: Op, h: seq<I.Sighting>, id: string)
    requires Lineage.Alive(h, id) && (op.Process? ==> Sightings(before) + [SightingOf(op.event, op.now)] <= h)
    ensures Effect(DetectorOp(before, op), id) == Effect(SurvivingOp(before, op, h), id)
  {
    hide I.Run, I.Resolved, IT.Owner, Lineage.Alive, Inferred;
    if op.Process? {
      var j := |Sightings(before)|;
      assert h[j] == SightingOf(op.event, op.now) && h[..j] == Sightings(before);
      Lineage.BookedIffAlive(h, j, id);
    }
  }

  /** What the detector has seen of a living entity are exactly its events that were not booked on an id absorbed
      since. */
  lemma {:induction false} TrackedIsSurviving(ops: seq<Op>, h: seq<I.Sighting>, id: string, w: nat)
    requires Sightings(ops) <= h && Lineage.Alive(h, id)
    ensures S.Since(DetectorOps(ops), id, w) == S.Since(SurvivingOps(ops, h), id, w)
  {
    if ops != [] {
      hide I.Run, Lineage.Alive, InputOf, SightingOf, S.Since, DetectorOp, SurvivingOp, Effect;
      var before, op := ops[..|ops| - 1], ops[|ops| - 1];
      TrackedIsSurviving(before, h, id, w);
      SurvivingEffect(before, op, h, id);
      OneOp(before, op, h);
      hide Sightings;
      SinceMore(DetectorOps(before), SurvivingOps(before, h), DetectorOp(before, op), SurvivingOp(before, op, h),
                id, w);
    }
  }

  lemma OneOp(before: seq<Op>, op: Op, h: seq<I.Sighting>)
    ensures |DetectorOp(before, op)| <= 1 && |SurvivingOp(before, op, h)| <= 1
    ensures |EntityOp(op, I.Run(h).aliases)| <= 1
  {
    hide I.Run, Lineage.Alive, InputOf;
  }

  /** Without any assumption on merges: an event raises the alert exactly when it is the first at which the
      events of its entity that were not booked on an id absorbed since are an attack. */
  lemma {:induction false} AlertIff(ops: seq<Op>, e: Event, now: Time, w: nat)
    requires var surviving := SurvivingOps(ops, Sightings(ops) + [SightingOf(e, now)]);
             S.Timely(S.Since(surviving, IdAfter(ops, e), w) + [InputOf(e)])
    ensures var surviving := SurvivingOps(ops, Sightings(ops) + [SightingOf(e, now)]);
            var g := S.Since(surviving, IdAfter(ops, e), w);
            AlertOn(Run(ops, w), e, w).Some? <==> Stages.FirstAttack(g + [InputOf(e)], w)
  {
    var h := Sightings(ops) + [SightingOf(e, now)];
    LastIsAlive(ops, e, now);
    hide *;
    TrackedIsSurviving(ops, h, IdAfter(ops, e), w);
    BookedAlertIff(ops, e, w);
    Stages.FirstAlarmIsFirstAttack(S.Since(DetectorOps(ops), IdAfter(ops, e), w), InputOf(e), w);
  }

  lemma LastIsAlive(ops: seq<Op>, e: Event, now: Time)
    ensures var h := Sightings(ops) + [SightingOf(e, now)];
            Sightings(ops) <= h && Lineage.Alive(h, IdAfter(ops, e))
  {
    hide Inferred;
    var h := Sightings(ops) + [SightingOf(e, now)];
    Lineage.LastResolves(h);
    assert h[..|h| - 1] == Sightings(ops);
  }

  function EntityOp(op: Op, aliases: map<string, string>): seq<S.Op> {
    match op
    case Process(e, _) => [S.Evaluate(IT.Owner(aliases, e.ForIdentity()), InputOf(e))]
    case PruneGraph(_) => []
    case PruneStale(now) => [S.PruneStale(now)]
  }

  /** The history as it would be if every event had been booked on the entity it belongs to in the end. */
  function EntityOps(ops: seq<Op>, aliases: map<string, string>): seq<S.Op> {
    if ops == [] then [] else EntityOps(ops[..|ops| - 1], aliases) + EntityOp(ops[|ops| - 1], aliases)
  }

  /** No event of this entity was booked on an id that has been absorbed since. */
  ghost predicate Unsplit(h: seq<I.Sighting>, id: string) {
    forall j :: 0 <= j < |h| && Lineage.OwnerOf(h, j) == id ==> Lineage.Alive(h, Lineage.IdAt(h, j))
  }

  lemma UnsplitEffect(before: seq<Op>, op: Op, h: seq<I.Sighting>, id: string)
    requires Unsplit(h, id) && (op.Process? ==> Sightings(before) + [SightingOf(op.event, op.now)] <= h)
    ensures Effect(SurvivingOp(before, op, h), id) == Effect(EntityOp(op, I.Run(h).aliases), id)
  {
    hide I.Run, I.Resolved, IT.Owner, Lineage.Alive, Inferred;
    if op.Process? {
      var j := |Sightings(before)|;
      assert h[j] == SightingOf(op.event, op.now) && h[..j] == Sightings(before);
      assert Lineage.OwnerOf(h, j) == id ==> Lineage.Alive(h, Lineage.IdAt(h, j));
    }
  }

  lemma {:induction false} UnsplitIsSurviving(ops: seq<Op>, h: seq<I.Sighting>, id: string, w: nat)
    requires Sightings(ops) <= h && Unsplit(h, id)
    ensures S.Since(SurvivingOps(ops, h), id, w) == S.Since(EntityOps(ops, I.Run(h).aliases), id, w)
  {
    if ops != [] {
      hide I.Run, Unsplit, InputOf, SightingOf, S.Since, SurvivingOp, EntityOp, Effect;
      var before, op := ops[..|ops| - 1], ops[|ops| - 1];
      UnsplitIsSurviving(before, h, id, w);
      UnsplitEffect(before, op, h, id);
      OneOp(before, op, h);
      hide Sightings;
      SinceMore(SurvivingOps(before, h), EntityOps(before, I.Run(h).aliases), SurvivingOp(before, op, h),
                EntityOp(op, I.Run(h).aliases), id, w);
    }
  }

  /** So an event raises the alert of an unsplit entity exactly when it is the first at which all the entity's
      events are an attack, whatever other ids have come and gone. */
  lemma {:induction false} EntityAlertIff(ops: seq<Op>, e: Event, now: Time, w: nat)
    requires var h := Sightings(ops) + [SightingOf(e, now)];
             Unsplit(h, IdAfter(ops, e))
    requires var all := EntityOps(ops, I.Run(Sightings(ops) + [SightingOf(e, now)]).aliases);
             S.Timely(S.Since(all, IdAfter(ops, e), w) + [InputOf(e)])
    ensures var all := EntityOps(ops, I.Run(Sightings(ops) + [SightingOf(e, now)]).aliases);
            var g := S.Since(all, IdAfter(ops, e), w);
            AlertOn(Run(ops, w), e, w).Some? <==> Stages.FirstAttack(g + [InputOf(e)], w)
  {
    var h := Sightings(ops) + [SightingOf(e, now)];
    LastIsAlive(ops, e, now);
    hide *;
    UnsplitIsSurviving(ops, h, IdAfter(ops, e), w);
    AlertIff(ops, e, now, w);
  }

  // ---------- The graph behind the resolver ----------

  lemma IdsAreCanonical(ops: seq<Op>, e: Event)
    ensures "canonical:" <= IdAfter(ops, e) && !("app:" <= IdAfter(ops, e))
  {
    LastIsAlive(ops, e, 0);
    hide I.Run, I.Resolved, Inferred, I.ExtractAliases, Sightings;
    IT.LiveIdsAreRooted(Sightings(ops) + [SightingOf(e, 0)], IdAfter(ops, e));
    assert "canonical:"[0] != "app:"[0];
  }

  /** The events come from entities and applications without marks in their names. */
  ghost predicate Unmarked(ops: seq<Op>) {
    forall i :: 0 <= i < |ops| && ops[i].Process? ==>
      && EdgeIds.PlainEntity(IdAfter(ops[..i], ops[i].event))
      && (GT.HasEndpoint(ops[i].event.ForGraph()) ==> EdgeIds.PlainApp(ops[i].event.appId))
  }

  lemma PlainMore(ops: seq<GT.Op>, more: seq<GT.Op>)
    requires GT.PlainNames(ops) && GT.PlainNames(more)
    ensures GT.PlainNames(ops + more)
  {
    hide GT.PlainName, GT.HasEndpoint, EdgeIds.PlainApp;
  }

  lemma LastIsPlain(ops: seq<Op>)
    requires ops != [] && Unmarked(ops)
    ensures GT.PlainNames(GraphOp(ops[..|ops| - 1], ops[|ops| - 1]))
  {
    hide IdAfter, EdgeIds.PlainEntity, EdgeIds.PlainApp, GT.HasEndpoint, Inferred;
    var op := ops[|ops| - 1];
    if op.Process? {
      IdsAreCanonical(ops[..|ops| - 1], op.event);
      assert op.event.ForGraph().appId == op.event.appId;
    }
  }

  lemma UnmarkedPrefix(ops: seq<Op>)
    requires ops != [] && Unmarked(ops)
    ensures Unmarked(ops[..|ops| - 1])
  {
    hide IdAfter, EdgeIds.PlainEntity, EdgeIds.PlainApp, GT.HasEndpoint;
    var before := ops[..|ops| - 1];
    assert forall i :: 0 <= i < |before| ==> before[..i] == ops[..i];
  }

  lemma {:induction false} UnmarkedIsPlain(ops: seq<Op>)
    requires Unmarked(ops)
    ensures GT.PlainNames(GraphOps(ops))
  {
    if ops != [] {
      hide GraphOp, Unmarked, GT.PlainNames;
      UnmarkedPrefix(ops);
      UnmarkedIsPlain(ops[..|ops| - 1]);
      LastIsPlain(ops);
      PlainMore(GraphOps(ops[..|ops| - 1]), GraphOp(ops[..|ops| - 1], ops[|ops| - 1]));
    }
  }

  /** Behind the resolver pruning the graph is exact as long as no canonical id and no application has a mark. */
  lemma EnginePruneIsExact(ops: seq<Op>, w: nat, cutoff: Time, k: string)
    requires Unmarked(ops)
    ensures var g := Run(ops, w).graph;
            k in G.Pruned(g, cutoff).edges <==> k in g.edges && g.edges[k].lastSeen >= cutoff
  {
    hide I.Run, GT.Run, S.Run, Run, G.Pruned, GT.Apart, GT.EdgesIn, Unmarked;
    RunIsComponents(ops, w);
    UnmarkedIsPlain(ops);
    GT.PlainNamesKeepApart(GraphOps(ops));
    GT.PruneIsExact(GraphOps(ops), cutoff, k);
  }
}
