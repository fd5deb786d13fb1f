/** What makes the detection rules raise signals, in terms of the events themselves: which events each rule looks at,
    how many of them it takes, and what the signal says. */
module Conditions {
  import opened Basics
  import opened Events
  import opened HotState
  import opened Rules
  import opened Incidents
  import opened Engine

  // ---------- Which events ----------

  function Place(e: Event): string {
    match e.action
    case Some(Action(_, _, Some(endpoint), _)) => endpoint
    case _ => ""
  }

  /** A failed action, refused as unauthorised or at an endpoint that has to do with logging in. */
  ghost predicate FailedLogin(e: Event) {
    && e.action.Some? && !e.action.value.isSuccess
    && (e.action.value.statusCode == Some(401) || OneOccurs({"login", "auth", "token", "session"}, Place(e)))
  }

  predicate Answered(e: Event, codes: set<nat>) {
    e.action.Some? && e.action.value.statusCode.Some? && e.action.value.statusCode.value in codes
  }

  /** A GET on data that leaves the application. */
  ghost predicate DataQuery(e: Event) {
    && e.action.Some? && e.action.value.verb == Some("GET")
    && OneOccurs({"/export", "/records", "/download", "/customers", "/dump"}, Place(e))
  }

  const SHELLS: set<string> := {"/bin/sh", "/bin/bash", "sh", "bash", "nc", "ncat", "netcat", "curl", "wget", "socat",
                                "sudo"}

  /** From below the application, and critical or about a shell or a network tool. */
  ghost predicate KernelAlarm(e: Event) {
    && (e.sensor in {Tetragon, Falco, System, NativeSensor}
        || OneOccurs({"process_exec", "falco", "tetragon", "kernel.execve"}, e.eventType))
    && (e.severity == Critical || OneOccurs(SHELLS, Place(e)) || OneOccurs(SHELLS, e.rawEventType)
        || (e.processName.Some? && exists path, shell :: shell in SHELLS && e.processName.value == path + shell))
  }

  /** Somebody without the role of an administrator at an administrative route, refused or let in. */
  ghost predicate AdminProbe(e: Event) {
    && OneOccurs({"/admin", "/root", "/system/keys"}, Place(e))
    && (e.actor.None? || e.actor.value.role != Some("admin"))
    && (e.action.None? || e.action.value.statusCode.None? || Answered(e, {200, 401, 403}))
  }

  ghost predicate Meets(r: Rule, e: Event) {
    match r
    case BruteForce => FailedLogin(e)
    case ApiEnumeration => Answered(e, {404})
    case UnauthorizedBurst => Answered(e, {401, 403})
    case MassScraping => DataQuery(e)
    case KernelAnomaly => KernelAlarm(e)
    case PrivilegeCreep => AdminProbe(e)
  }

  lemma AppliesLogin(e: Event)
    ensures Applies(BruteForce, e) <==> FailedLogin(e)
  {
    hide Contains, Occurs;
    ContainsIff(Place(e), "login");
    ContainsIff(Place(e), "auth");
    ContainsIff(Place(e), "token");
    ContainsIff(Place(e), "session");
  }

  lemma AppliesScraping(e: Event)
    ensures Applies(MassScraping, e) <==> DataQuery(e)
  {
    hide Contains, Occurs;
    ContainsIff(Place(e), "/export");
    ContainsIff(Place(e), "/records");
    ContainsIff(Place(e), "/download");
    ContainsIff(Place(e), "/customers");
    ContainsIff(Place(e), "/dump");
  }

  lemma AppliesAdmin(e: Event)
    ensures Applies(PrivilegeCreep, e) <==> AdminProbe(e)
  {
    hide Contains, Occurs;
    ContainsIff(Place(e), "/admin");
    ContainsIff(Place(e), "/root");
    ContainsIff(Place(e), "/system/keys");
  }

  lemma KernelSources(e: Event)
    ensures IsKernelEvent(e)
       <==> e.sensor in {Tetragon, Falco, System, NativeSensor}
            || OneOccurs({"process_exec", "falco", "tetragon", "kernel.execve"}, e.eventType)
  {
    hide Contains, Occurs;
    ContainsIff(e.eventType, "process_exec");
    ContainsIff(e.eventType, "falco");
    ContainsIff(e.eventType, "tetragon");
    ContainsIff(e.eventType, "kernel.execve");
  }

  lemma Binaries(b: string)
    ensures b in BINARIES <==> b in SHELLS
  {
  }

  lemma NoneInEmpty(b: string)
    requires b in SHELLS
    ensures !EndsWith("", b)
  {
  }

  /** A suspicious binary is named by the process, the endpoint or the raw type. */
  lemma NamesBinaryIff(e: Event)
    ensures NamesBinary(e)
       <==> || OneOccurs(SHELLS, Place(e)) || OneOccurs(SHELLS, e.rawEventType)
            || (e.processName.Some? && exists path, shell :: shell in SHELLS && e.processName.value == path + shell)
  {
    hide Contains, Occurs, EndsWith;
    if NamesBinary(e) {
      var name := if e.processName.Some? then e.processName.value else "";
      var b :| b in BINARIES && (EndsWith(name, b) || Contains(e.Endpoint(), b) || Contains(e.rawEventType, b));
      Binaries(b);
      ContainsIff(Place(e), b);
      ContainsIff(e.rawEventType, b);
      EndsWithIff(name, b);
      if e.processName.None? {
        NoneInEmpty(b);
      }
    }
    if b :| b in SHELLS && (Occurs(b, Place(e)) || Occurs(b, e.rawEventType)) {
      Binaries(b);
      ContainsIff(Place(e), b);
      ContainsIff(e.rawEventType, b);
    }
    if e.processName.Some? {
      if path, b :| b in SHELLS && e.processName.value == path + b {
        Binaries(b);
        EndsWithIff(e.processName.value, b);
      }
    }
  }

  /** A rule looks at exactly the events that meet its description. */
  lemma AppliesIff(r: Rule, e: Event)
    ensures Applies(r, e) <==> Meets(r, e)
  {
    match r
    case BruteForce => AppliesLogin(e);
    case MassScraping => AppliesScraping(e);
    case PrivilegeCreep => AppliesAdmin(e);
    case KernelAnomaly =>
      hide IsKernelEvent, NamesBinary, OneOccurs;
      KernelSources(e);
      NamesBinaryIff(e);
    case _ =>
  }

  // ---------- How many of them ----------

  function From(e: Event): string {
    match e.ip
    case Some(ip) => ip
    case None => "unknown"
  }

  function Asked(e: Event): string {
    match e.action
    case Some(Action(_, _, Some(endpoint), _)) => endpoint
    case _ => "unknown_route"
  }

  /** The key under which a rule counts the events of a source. */
  predicate CountsUnder(r: Rule, source: string, key: string) {
    (r, key) in {(BruteForce, "bf:ip:" + source), (ApiEnumeration, "enum_404:ip:" + source),
                 (UnauthorizedBurst, "unauth:ip:" + source), (MassScraping, "scrape:ip:" + source)}
  }

  /** The key is not reset after event j. */
  predicate Lasting(g: seq<Seen>, j: nat, key: string) {
    forall k :: j < k < |g| && g[k].Reset? ==> g[k].key != key
  }

  /** The events of a source that meet a rule, lie between two times, and came after the last reset of the key. */
  ghost function Counted(g: seq<Seen>, r: Rule, source: string, key: string, low: int, high: int): set<nat> {
    set j: nat | && j < |g| && g[j].Seen? && Meets(r, g[j].event) && From(g[j].event) == source
                 && low <= g[j].event.at <= high && Lasting(g, j, key)
  }

  lemma LastingMore(g: seq<Seen>, x: Seen, j: nat, key: string)
    ensures j < |g| ==> (Lasting(g + [x], j, key) <==> Lasting(g, j, key) && !(x.Reset? && x.key == key))
    ensures Lasting(g + [x], |g|, key)
  {
    var more := g + [x];
    assert more[|g|] == x && forall k :: 0 <= k < |g| ==> more[k] == g[k];
    if j < |g| && Lasting(more, j, key) {
      forall k | j < k < |g| && g[k].Reset? ensures g[k].key != key {
        assert more[k] == g[k];
      }
    }
  }

  lemma CountedMore(g: seq<Seen>, x: Seen, r: Rule, source: string, key: string, low: int, high: int)
    ensures Counted(g + [x], r, source, key, low, high) ==
            if x.Reset? then (if x.key == key then {} else Counted(g, r, source, key, low, high))
            else Counted(g, r, source, key, low, high)
                 + (if Meets(r, x.event) && From(x.event) == source && low <= x.event.at <= high then {|g|} else {})
  {
    hide Meets, From;
    forall j: nat | j < |g| ensures Lasting(g + [x], j, key) <==> Lasting(g, j, key) && !(x.Reset? && x.key == key) {
      LastingMore(g, x, j, key);
    }
    LastingMore(g, x, |g|, key);
    hide Lasting;
    assert (g + [x])[|g|] == x;
    assert forall j :: 0 <= j < |g| ==> (g + [x])[j] == g[j];
  }

  lemma KeyIs(r: Rule, source: string, key: string)
    requires CountsUnder(r, source, key)
    ensures Counts(r) && key == Key(r, source)
  {
  }

  lemma TimesMore(g: seq<Seen>, x: Seen, r: Rule, source: string)
    requires Counts(r)
    ensures Times(g + [x], r, source) ==
            if x.Reset? then (if x.key == Key(r, source) then [] else Times(g, r, source))
            else Times(g, r, source) + (if Meets(r, x.event) && From(x.event) == source then [x.event.at] else [])
  {
    assert (g + [x])[..|g|] == g;
    if x.Seen? {
      AppliesIff(r, x.event);
    }
    hide Applies, Meets;
  }

  lemma CountMore(times: seq<I64>, at: I64, low: int, high: int)
    ensures CountBetween(times + [at], low, high)
         == CountBetween(times, low, high) + (if low <= at <= high then 1 else 0)
  {
    assert (times + [at])[..|times|] == times;
  }

  lemma CountedEarlier(g: seq<Seen>, r: Rule, source: string, key: string, low: int, high: int)
    ensures |g| !in Counted(g, r, source, key, low, high)
    ensures Counted([], r, source, key, low, high) == {}
  {
    hide Meets, From, Lasting;
  }

  lemma NoTimes(r: Rule, source: string)
    requires Counts(r)
    ensures Times([], r, source) == []
  {
  }

  lemma CountStep(g: seq<Seen>, x: Seen, r: Rule, source: string, key: string, low: int, high: int)
    requires Counts(r) && key == Key(r, source)
    requires CountBetween(Times(g, r, source), low, high) == |Counted(g, r, source, key, low, high)|
    ensures CountBetween(Times(g + [x], r, source), low, high) == |Counted(g + [x], r, source, key, low, high)|
  {
    hide Times, CountBetween, Counted, Meets, From, Key;
    CountedEarlier(g, r, source, key, low, high);
    CountedMore(g, x, r, source, key, low, high);
    TimesMore(g, x, r, source);
    NoCount(low, high);
    if x.Seen? {
      CountMore(Times(g, r, source), x.event.at, low, high);
      assert Times(g, r, source) + [] == Times(g, r, source);
    }
  }

  /** What the rules count are exactly these events. */
  lemma {:induction false} CountIs(g: seq<Seen>, r: Rule, source: string, key: string, low: int, high: int)
    requires CountsUnder(r, source, key)
    ensures Counts(r) && CountBetween(Times(g, r, source), low, high) == |Counted(g, r, source, key, low, high)|
  {
    hide *;
    KeyIs(r, source, key);
    if g == [] {
      CountedEarlier(g, r, source, key, low, high);
      NoTimes(r, source);
      NoCount(low, high);
    } else {
      CountIs(g[..|g| - 1], r, source, key, low, high);
      CountStep(g[..|g| - 1], g[|g| - 1], r, source, key, low, high);
      assert g == g[..|g| - 1] + [g[|g| - 1]];
    }
  }

  lemma NoCount(low: int, high: int)
    ensures CountBetween([], low, high) == 0
  {
  }

  /** The routes that a source has missed, since the key was last reset, so late that they are not forgotten now. */
  ghost function Missed(g: seq<Seen>, source: string, now: int): set<string> {
    set j: nat | && j < |g| && g[j].Seen? && Answered(g[j].event, {404}) && From(g[j].event) == source
                 && g[j].now > now - 60_000 && Lasting(g, j, "enum_paths:ip:" + source) :: Asked(g[j].event)
  }

  lemma RecentMore(h: seq<Record>, x: Record, ttl: int, now: int)
    ensures RecentItems(h + [x], ttl, now)
         == RecentItems(h, ttl, now) + (if x.at + ttl * 1000 > now then {x.item} else {})
  {
    var more := h + [x];
    assert forall i :: 0 <= i < |h| ==> more[i] == h[i];
    assert more[|h|] == x;
    forall y | y in RecentItems(h, ttl, now) ensures y in RecentItems(more, ttl, now) {
      var i :| 0 <= i < |h| && h[i].at + ttl * 1000 > now && h[i].item == y;
      assert more[i] == h[i];
    }
  }

  lemma MissedMore(g: seq<Seen>, x: Seen, source: string, now: int)
    ensures Missed(g + [x], source, now) ==
            if x.Reset? then (if x.key == "enum_paths:ip:" + source then {} else Missed(g, source, now))
            else Missed(g, source, now)
                 + (if Answered(x.event, {404}) && From(x.event) == source && x.now > now - 60_000 then {Asked(x.event)}
                    else {})
  {
    hide Answered, From, Asked;
    var key, more := "enum_paths:ip:" + source, g + [x];
    forall j: nat | j < |g| ensures Lasting(more, j, key) <==> Lasting(g, j, key) && !(x.Reset? && x.key == key) {
      LastingMore(g, x, j, key);
    }
    LastingMore(g, x, |g|, key);
    hide Lasting;
    assert more[|g|] == x;
    assert forall j :: 0 <= j < |g| ==> more[j] == g[j];
    forall y | y in Missed(g, source, now) && !(x.Reset? && x.key == key) ensures y in Missed(more, source, now) {
      var j: nat :| && j < |g| && g[j].Seen? && Answered(g[j].event, {404}) && From(g[j].event) == source
                    && g[j].now > now - 60_000 && Lasting(g, j, key) && Asked(g[j].event) == y;
      assert Lasting(more, j, key);
    }
    if x.Seen? && Answered(x.event, {404}) && From(x.event) == source && x.now > now - 60_000 {
      assert more[|g|] == x && Lasting(more, |g|, key);
    }
  }

  lemma ProbesMore(g: seq<Seen>, x: Seen, source: string)
    ensures Probes(g + [x], source) ==
            if x.Reset? then (if x.key == "enum_paths:ip:" + source then [] else Probes(g, source))
            else Probes(g, source)
                 + (if Answered(x.event, {404}) && From(x.event) == source then [Record(Asked(x.event), x.now)] else [])
  {
    assert (g + [x])[..|g|] == g;
    if x.Seen? {
      AppliesIff(ApiEnumeration, x.event);
    }
    hide Applies;
  }

  /** What the enumeration rule remembers are exactly these routes. */
  lemma {:induction false} MissedIs(g: seq<Seen>, source: string, now: int)
    ensures RecentItems(Probes(g, source), 60, now) == Missed(g, source, now)
  {
    if g == [] {
      assert RecentItems([], 60, now) == {} && Missed([], source, now) == {};
    } else {
      var before, x := g[..|g| - 1], g[|g| - 1];
      MissedIs(before, source, now);
      assert g == before + [x];
      NothingRecent(now);
      hide Answered, From, Asked, Probes, Missed, RecentItems;
      MissedMore(before, x, source, now);
      ProbesMore(before, x, source);
      if x.Seen? {
        RecentMore(Probes(before, source), Record(Asked(x.event), x.now), 60, now);
        assert Probes(before, source) + [] == Probes(before, source);
      }
    }
  }

  lemma NothingRecent(now: int)
    ensures RecentItems([], 60, now) == {}
  {
  }

  // ---------- What is raised ----------

  /** The condition of each rule, with the default limits, on the last event of a history. */
  ghost predicate Condition(g: seq<Seen>, r: Rule)
    requires EndsWithEvent(g)
  {
    var e, now := g[|g| - 1].event, g[|g| - 1].now;
    var source, low := From(e), e.at - 60_000;
    && Meets(r, e)
    && match r
       case BruteForce => |Counted(g, r, source, "bf:ip:" + source, low, e.at)| >= 10
       case ApiEnumeration =>
         || |Counted(g, r, source, "enum_404:ip:" + source, low, e.at)| >= 20
         || |Missed(g, source, now) + {Asked(e)}| >= 25
       case UnauthorizedBurst => |Counted(g, r, source, "unauth:ip:" + source, low, e.at)| >= 15
       case MassScraping => |Counted(g, r, source, "scrape:ip:" + source, low, e.at)| >= 25
       case KernelAnomaly => true
       case PrivilegeCreep => true
  }

  /** The name, the severity and the weight of a rule's signal. */
  function Label(r: Rule): (string, Severity, U32) {
    match r
    case BruteForce => ("Credential Brute-Force / Password Spray", High, 35)
    case ApiEnumeration => ("Rapid API / Directory Enumeration Scan", Medium, 25)
    case UnauthorizedBurst => ("Unauthorized Access Burst (401/403)", High, 30)
    case MassScraping => ("Mass Data Scraping / Export Burst", High, 30)
    case KernelAnomaly => ("Suspicious Container / Kernel Execution", Critical, 50)
    case PrivilegeCreep => ("Administrative Privilege Creep / Probe", High, 35)
  }

  ghost function SignalIf(g: seq<Seen>, r: Rule, id: nat): seq<Signal>
    requires EndsWithEvent(g)
  {
    if Condition(g, r) then [Signal(id, Label(r).0, Label(r).1, Label(r).2, [g[|g| - 1].event.eventId])] else []
  }

  lemma SourcesAgree(e: Event)
    ensures From(e) == Source(e) && Asked(e) == Route(e)
  {
  }

  lemma DefaultAlarms(g: seq<Seen>, r: Rule)
    requires EndsWithEvent(g) && Counts(r) && Applies(r, g[|g| - 1].event)
    requires InOrder(g, r, Source(g[|g| - 1].event))
    ensures var e := g[|g| - 1].event;
            Alarms(g, DEFAULTS, r)
            <==> || CountBetween(Times(g, r, Source(e)), e.at - 60_000, e.at) >= DefaultThreshold(r)
                 || (r == ApiEnumeration
                     && |RecentItems(Probes(g, Source(e)), 60, g[|g| - 1].now) + {Route(e)}| >= 25)
  {
    hide *;
    FiresIff(g, DEFAULTS, r);
    DefaultFiresIff(g, r);
  }

  lemma CountAlarms(g: seq<Seen>, r: Rule, key: string)
    requires EndsWithEvent(g) && Meets(r, g[|g| - 1].event) && CountsUnder(r, From(g[|g| - 1].event), key)
    requires InOrder(g, r, Source(g[|g| - 1].event))
    ensures Counts(r)
    ensures var e := g[|g| - 1].event;
            Alarms(g, DEFAULTS, r)
            <==> || |Counted(g, r, From(e), key, e.at - 60_000, e.at)| >= DefaultThreshold(r)
                 || (r == ApiEnumeration && |Missed(g, From(e), g[|g| - 1].now) + {Asked(e)}| >= 25)
  {
    var e := g[|g| - 1].event;
    hide *;
    KeyIs(r, From(e), key);
    AppliesIff(r, e);
    SourcesAgree(e);
    DefaultAlarms(g, r);
    CountIs(g, r, From(e), key, e.at - 60_000, e.at);
    MissedIs(g, From(e), g[|g| - 1].now);
  }

  lemma OthersAlarm(g: seq<Seen>, r: Rule)
    requires EndsWithEvent(g) && !(Meets(r, g[|g| - 1].event) && Counts(r))
    ensures Alarms(g, DEFAULTS, r) <==> Meets(r, g[|g| - 1].event)
  {
    AppliesIff(r, g[|g| - 1].event);
    hide Applies, Meets;
  }

  lemma ConditionIff(g: seq<Seen>, r: Rule)
    requires EndsWithEvent(g) && InOrder(g, r, Source(g[|g| - 1].event))
    ensures Alarms(g, DEFAULTS, r) <==> Condition(g, r)
  {
    var e := g[|g| - 1].event;
    hide Meets, Alarms, InOrder, Counted, Missed, From, Asked;
    if !Meets(r, e) || !Counts(r) {
      OthersAlarm(g, r);
    } else {
      var source := From(e);
      match r
      case BruteForce => CountAlarms(g, r, "bf:ip:" + source);
      case ApiEnumeration => CountAlarms(g, r, "enum_404:ip:" + source);
      case UnauthorizedBurst => CountAlarms(g, r, "unauth:ip:" + source);
      case MassScraping => CountAlarms(g, r, "scrape:ip:" + source);
    }
  }

  /** The engine raises the signal of a rule exactly when its condition holds of the events so far. */
  lemma {:induction false} RaisesOn(h: seq<Call>, i: nat)
    requires Stamped(h) && EndsWithEvaluation(h) && i < |RULES|
    requires InOrder(Sights(h), RULES[i], Source(h[|h| - 1].event))
    ensures EndsWithEvent(Sights(h)) && (Raises(h, DEFAULTS, i) <==> Condition(Sights(h), RULES[i]))
  {
    SightsLast(h);
    hide *;
    RaisesIff(h, DEFAULTS, i);
    ConditionIff(Sights(h), RULES[i]);
  }

  lemma OneMoreLabel(x: Snapshot, n: nat, e: Event, st: Settings, stamps: seq<Stamp>)
    requires n < |RULES| == |stamps|
    ensures SignalsRaised(x, RULES[..n + 1], e, st, stamps)
         == SignalsRaised(x, RULES[..n], e, st, stamps)
          + (if LastFires(x, RULES[..n + 1], e, st, stamps) then
               [Signal(stamps[n].signalId, Label(RULES[n]).0, Label(RULES[n]).1, Label(RULES[n]).2, [e.eventId])]
             else [])
  {
    hide LastFires;
    assert RULES[..n + 1][..n] == RULES[..n];
  }

  /** The rules in the order in which they are asked. */
  const IN_TURN: seq<Rule> := [BruteForce, ApiEnumeration, UnauthorizedBurst, MassScraping, KernelAnomaly,
                               PrivilegeCreep]

  /** The signals of the first n rules. */
  ghost function Due(g: seq<Seen>, n: nat, stamps: seq<Stamp>): seq<Signal>
    requires EndsWithEvent(g) && n <= |IN_TURN| == |stamps|
  {
    if n == 0 then [] else Due(g, n - 1, stamps) + SignalIf(g, IN_TURN[n - 1], stamps[n - 1].signalId)
  }

  lemma {:induction false} SignalsUpTo(h: seq<Call>, n: nat)
    requires Stamped(h) && EndsWithEvaluation(h) && n <= |RULES| && LastInOrder(Sights(h))
    ensures EndsWithEvent(Sights(h))
    ensures var x, last := After(h[..|h| - 1], DEFAULTS), h[|h| - 1];
            SignalsRaised(x, RULES[..n], last.event, DEFAULTS, last.stamps) == Due(Sights(h), n, last.stamps)
  {
    SightsLast(h);
    assert IN_TURN == RULES;
    hide Condition, Label, Sights, After, LastInOrder, Source, LastFires, InOrder;
    if n > 0 {
      hide SignalsRaised;
      SignalsUpTo(h, n - 1);
      OrderOfRule(Sights(h), RULES[n - 1]);
      RaisesOn(h, n - 1);
      OneMoreLabel(After(h[..|h| - 1], DEFAULTS), n - 1, h[|h| - 1].event, DEFAULTS, h[|h| - 1].stamps);
    }
  }

  /** An event is answered with the signals of exactly the rules whose conditions it meets, in their order. */
  lemma SignalsAre(h: seq<Call>)
    requires Stamped(h) && EndsWithEvaluation(h) && LastInOrder(Sights(h))
    ensures EndsWithEvent(Sights(h)) && |h[|h| - 1].stamps| == |IN_TURN|
    ensures var last := h[|h| - 1];
            SignalsRaised(After(h[..|h| - 1], DEFAULTS), RULES, last.event, DEFAULTS, last.stamps)
            == Due(Sights(h), |IN_TURN|, last.stamps)
  {
    assert RULES[..|RULES|] == RULES && IN_TURN == RULES;
    hide SignalsRaised, Due, Sights, After, LastInOrder;
    SignalsUpTo(h, |RULES|);
  }
}
