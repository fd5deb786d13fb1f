/** The detection rules: four that count over the hot state and two that look at one event only. */
module Rules {
  import opened Basics
  import opened Events
  import opened HotState

  datatype Rule = BruteForce | ApiEnumeration | UnauthorizedBurst | MassScraping | KernelAnomaly | PrivilegeCreep

  /** The order in which the engine evaluates its rules. */
  const RULES: seq<Rule> := [BruteForce, ApiEnumeration, UnauthorizedBurst, MassScraping, KernelAnomaly, PrivilegeCreep]

  predicate Counts(r: Rule) {
    r in {BruteForce, ApiEnumeration, UnauthorizedBurst, MassScraping}
  }

  /** Window and threshold of a rule that counts. */
  datatype Limits = Limits(windowMs: I64, threshold: nat)

  /** The fields of the rules. */
  datatype Settings = Settings(bruteForce: Limits, enumeration: Limits, distinctThreshold: nat,
                               unauthorized: Limits, scraping: Limits)

  const DEFAULTS := Settings(Limits(60_000, 10), Limits(60_000, 20), 25, Limits(60_000, 15), Limits(60_000, 25))

  function LimitsOf(st: Settings, r: Rule): Limits
    requires Counts(r)
  {
    match r
    case BruteForce => st.bruteForce
    case ApiEnumeration => st.enumeration
    case UnauthorizedBurst => st.unauthorized
    case MassScraping => st.scraping
  }

  predicate IsKernelEvent(e: Event) {
    e.sensor in {Tetragon, Falco, System, NativeSensor}
    || Contains(e.eventType, "process_exec") || Contains(e.eventType, "falco")
    || Contains(e.eventType, "tetragon") || Contains(e.eventType, "kernel.execve")
  }

  const BINARIES: seq<string> := ["/bin/sh", "/bin/bash", "sh", "bash", "nc", "ncat", "netcat", "curl", "wget", "socat",
                                  "sudo"]

  predicate NamesBinary(e: Event) {
    exists b :: b in BINARIES && (EndsWith(if e.processName.Some? then e.processName.value else "", b)
                                  || Contains(e.Endpoint(), b) || Contains(e.rawEventType, b))
  }

  /** The events a rule counts or, if it does not count, signals. */
  predicate Applies(r: Rule, e: Event) {
    match r
    case BruteForce =>
      e.action.Some? && !e.action.value.isSuccess
      && (e.StatusCode() == Some(401) || Contains(e.Endpoint(), "login") || Contains(e.Endpoint(), "auth")
          || Contains(e.Endpoint(), "token") || Contains(e.Endpoint(), "session"))
    case ApiEnumeration => e.StatusCode() == Some(404)
    case UnauthorizedBurst => e.StatusCode() == Some(401) || e.StatusCode() == Some(403)
    case MassScraping =>
      e.action.Some? && e.action.value.verb == Some("GET")
      && (Contains(e.Endpoint(), "/export") || Contains(e.Endpoint(), "/records") || Contains(e.Endpoint(), "/download")
          || Contains(e.Endpoint(), "/customers") || Contains(e.Endpoint(), "/dump"))
    case KernelAnomaly => IsKernelEvent(e) && (NamesBinary(e) || e.severity == Critical)
    case PrivilegeCreep =>
      (Contains(e.Endpoint(), "/admin") || Contains(e.Endpoint(), "/root") || Contains(e.Endpoint(), "/system/keys"))
      && !(e.actor.Some? && e.actor.value.role == Some("admin"))
      && e.StatusCode() in {None, Some(200), Some(401), Some(403)}
  }

  function SignalOf(r: Rule, e: Event, id: nat): Signal {
    match r
    case BruteForce => Signal(id, "Credential Brute-Force / Password Spray", High, 35, [e.eventId])
    case ApiEnumeration => Signal(id, "Rapid API / Directory Enumeration Scan", Medium, 25, [e.eventId])
    case UnauthorizedBurst => Signal(id, "Unauthorized Access Burst (401/403)", High, 30, [e.eventId])
    case MassScraping => Signal(id, "Mass Data Scraping / Export Burst", High, 30, [e.eventId])
    case KernelAnomaly => Signal(id, "Suspicious Container / Kernel Execution", Critical, 50, [e.eventId])
    case PrivilegeCreep => Signal(id, "Administrative Privilege Creep / Probe", High, 35, [e.eventId])
  }

  function KeyPrefix(r: Rule): string
    requires Counts(r)
  {
    match r
    case BruteForce => "bf:ip:"
    case ApiEnumeration => "enum_404:ip:"
    case UnauthorizedBurst => "unauth:ip:"
    case MassScraping => "scrape:ip:"
  }

  /** Events without an address count as coming from "unknown". */
  function Source(e: Event): string {
    if e.ip.Some? then e.ip.value else "unknown"
  }

  function Key(r: Rule, source: string): string
    requires Counts(r)
  {
    KeyPrefix(r) + source
  }

  function Route(e: Event): string {
    if e.action.Some? && e.action.value.endpoint.Some? then e.action.value.endpoint.value else "unknown_route"
  }

  function PathsKey(source: string): string {
    "enum_paths:ip:" + source
  }

  /** How long a failed route is remembered: the window in whole seconds, cut off towards zero. */
  function PathsTtl(st: Settings): int {
    var w: int := st.enumeration.windowMs;
    if w >= 0 then w / 1000 else -((0 - w) / 1000)
  }

  /** The hits that evaluating a rule records. */
  function HitsFor(r: Rule, e: Event, st: Settings): seq<HitOp> {
    if Counts(r) && Applies(r, e) then [Hit(Key(r, Source(e)), e.at, LimitsOf(st, r).windowMs)] else []
  }

  /** The hits of a few rules in a row. */
  function HitsOfRules(rules: seq<Rule>, e: Event, st: Settings): seq<HitOp> {
    if rules == [] then [] else HitsOfRules(rules[..|rules| - 1], e, st) + HitsFor(rules[|rules| - 1], e, st)
  }

  function Apply(m: Windows, ops: seq<HitOp>): Windows {
    if ops == [] then m else HitStep(Apply(m, ops[..|ops| - 1]), ops[|ops| - 1])
  }

  /** The failed routes that evaluating a rule records. */
  function PathsAfter(m: DistinctSets, r: Rule, e: Event, st: Settings, now: int): DistinctSets {
    if r == ApiEnumeration && Applies(ApiEnumeration, e) then
      AfterDistinct(m, PathsKey(Source(e)), Route(e), PathsTtl(st), now)
    else m
  }

  /** Whether a rule fires on an event, from what the hot state holds once the event is recorded. */
  predicate Fires(r: Rule, e: Event, st: Settings, windows: Windows, paths: DistinctSets) {
    Applies(r, e) &&
    (Counts(r) ==>
       || |WindowOf(windows, Key(r, Source(e)))| >= LimitsOf(st, r).threshold
       || (r == ApiEnumeration && |SetOf(paths, PathsKey(Source(e)))| >= st.distinctThreshold))
  }

  /** One rule: `evaluate`. */
  method Evaluate(r: Rule, e: Event, st: Settings, state: MemoryHotState, now: int, signalId: nat)
    returns (signal: Option<Signal>)
    modifies state
    ensures state.slidingWindows == Apply(old(state.slidingWindows), HitsFor(r, e, st))
    ensures state.distinctSets == PathsAfter(old(state.distinctSets), r, e, st, now)
    ensures state.entityRisks == old(state.entityRisks)
    ensures signal == if Fires(r, e, st, state.slidingWindows, state.distinctSets) then Some(SignalOf(r, e, signalId))
                      else None
  {
    hide Applies, SignalOf;
    assert HitsFor(r, e, st) != [] ==> HitsFor(r, e, st)[..0] == [];
    if !Applies(r, e) {
      return None;
    }
    if !Counts(r) {
      return Some(SignalOf(r, e, signalId));
    }
    var count := state.RecordHit(Key(r, Source(e)), e.at, LimitsOf(st, r).windowMs);
    var fires := count >= LimitsOf(st, r).threshold;
    if r == ApiEnumeration {
      var distinct := state.RecordDistinct(PathsKey(Source(e)), Route(e), PathsTtl(st), now);
      fires := fires || distinct >= st.distinctThreshold;
    }
    return if fires then Some(SignalOf(r, e, signalId)) else None;
  }

  lemma {:induction false} ApplyConcat(m: Windows, a: seq<HitOp>, b: seq<HitOp>)
    ensures Apply(m, a + b) == Apply(Apply(m, a), b)
  {
    if b == [] {
      assert a + b == a;
    } else {
      assert (a + b)[..|a + b| - 1] == a + b[..|b| - 1];
      ApplyConcat(m, a, b[..|b| - 1]);
    }
  }

  /** The hits of one rule do not touch the keys of another. */
  lemma KeysDiffer(r: Rule, s: string, r': Rule, s': string)
    requires Counts(r) && Counts(r')
    ensures Key(r, s) == Key(r', s') <==> r == r' && s == s'
  {
    if r == r' {
      assert Key(r, s)[|KeyPrefix(r)|..] == s && Key(r', s')[|KeyPrefix(r)|..] == s';
    } else {
      assert Key(r, s)[0] == KeyPrefix(r)[0] && Key(r', s')[0] == KeyPrefix(r')[0];
    }
  }

  /** What one rule records does not change whether another fires. */
  lemma FiresKept(r: Rule, e: Event, st: Settings, windows: Windows, paths: DistinctSets, r': Rule, now: int)
    requires r != r'
    ensures Fires(r, e, st, Apply(windows, HitsFor(r', e, st)), PathsAfter(paths, r', e, st, now))
         == Fires(r, e, st, windows, paths)
  {
    hide Applies, DropOld;
    if Counts(r) && Counts(r') {
      KeysDiffer(r, Source(e), r', Source(e));
    }
    assert HitsFor(r', e, st) != [] ==> HitsFor(r', e, st)[..0] == [];
  }

  // ---------- Every history of events ----------

  /** An event, with the clock when its failed route was recorded; or the reset of a key of the hot state. */
  datatype Seen = Seen(event: Event, now: int) | Reset(key: string)

  function HitsOfSeen(x: Seen, st: Settings): seq<HitOp> {
    match x
    case Seen(e, _) => HitsOfRules(RULES, e, st)
    case Reset(key) => [ResetHits(key)]
  }

  function HitOps(h: seq<Seen>, st: Settings): seq<HitOp> {
    if h == [] then [] else HitOps(h[..|h| - 1], st) + HitsOfSeen(h[|h| - 1], st)
  }

  function WindowsAfter(h: seq<Seen>, st: Settings): Windows {
    if h == [] then map[] else Apply(WindowsAfter(h[..|h| - 1], st), HitsOfSeen(h[|h| - 1], st))
  }

  function PathsAfterAll(h: seq<Seen>, st: Settings): DistinctSets {
    if h == [] then map[]
    else
      var before := PathsAfterAll(h[..|h| - 1], st);
      match h[|h| - 1]
      case Seen(e, now) => PathsAfter(before, ApiEnumeration, e, st, now)
      case Reset(key) => before - {key}
  }

  /** The times of the events from a source that a rule counts, since its key was last reset. */
  function Times(h: seq<Seen>, r: Rule, source: string): seq<I64>
    requires Counts(r)
  {
    if h == [] then []
    else
      var before := Times(h[..|h| - 1], r, source);
      match h[|h| - 1]
      case Seen(e, _) => before + Added(r, e, source)
      case Reset(key) => if key == Key(r, source) then [] else before
  }

  /** What an event adds to the times of a rule. */
  function Added(r: Rule, e: Event, source: string): seq<I64> {
    if Applies(r, e) && Source(e) == source then [e.at] else []
  }

  /** The routes a source failed to find since its key was last reset, with the clock at the time. */
  function Probes(h: seq<Seen>, source: string): seq<Record> {
    if h == [] then []
    else
      var before := Probes(h[..|h| - 1], source);
      match h[|h| - 1]
      case Seen(e, now) =>
        before + (if Applies(ApiEnumeration, e) && Source(e) == source then [Record(Route(e), now)] else [])
      case Reset(key) => if key == PathsKey(source) then [] else before
  }

  lemma {:induction false} RunConcat(a: seq<HitOp>, b: seq<HitOp>)
    ensures HitRun(a + b) == Apply(HitRun(a), b)
  {
    if b == [] {
      assert a + b == a;
    } else {
      assert (a + b)[..|a + b| - 1] == a + b[..|b| - 1];
      RunConcat(a, b[..|b| - 1]);
    }
  }

  lemma {:induction false} WindowsAreRun(h: seq<Seen>, st: Settings)
    ensures WindowsAfter(h, st) == HitRun(HitOps(h, st))
  {
    hide HitsOfSeen;
    if h != [] {
      WindowsAreRun(h[..|h| - 1], st);
      RunConcat(HitOps(h[..|h| - 1], st), HitsOfSeen(h[|h| - 1], st));
    }
  }

  lemma HitsOfAppend(ops: seq<HitOp>, r': Rule, e: Event, st: Settings, r: Rule, source: string)
    requires Counts(r)
    ensures HitsOf(ops + HitsFor(r', e, st), Key(r, source))
         == HitsOf(ops, Key(r, source)) + (if r == r' then Added(r, e, source) else [])
  {
    if Counts(r') {
      KeysDiffer(r, source, r', Source(e));
    }
    hide Applies;
    var hits := HitsFor(r', e, st);
    if hits != [] {
      assert (ops + hits)[..|ops + hits| - 1] == ops;
    } else {
      assert ops + hits == ops;
    }
  }

  lemma {:induction false} HitsOfRulesAppend(ops: seq<HitOp>, rules: seq<Rule>, e: Event, st: Settings, r: Rule,
                                             source: string)
    requires Counts(r) && forall i, j :: 0 <= i < j < |rules| ==> rules[i] != rules[j]
    ensures HitsOf(ops + HitsOfRules(rules, e, st), Key(r, source))
         == HitsOf(ops, Key(r, source)) + (if r in rules then Added(r, e, source) else [])
  {
    hide HitsOf, HitsFor, Key, Added;
    if rules == [] {
      assert ops + HitsOfRules(rules, e, st) == ops;
    } else {
      var init, last := rules[..|rules| - 1], rules[|rules| - 1];
      HitsOfRulesAppend(ops, init, e, st, r, source);
      HitsOfAppend(ops + HitsOfRules(init, e, st), last, e, st, r, source);
      assert ops + HitsOfRules(rules, e, st) == ops + HitsOfRules(init, e, st) + HitsFor(last, e, st);
      assert r in rules <==> r in init || r == last;
    }
  }

  lemma AllRules(r: Rule)
    ensures r in RULES && forall i, j :: 0 <= i < j < |RULES| ==> RULES[i] != RULES[j]
  {
    match r
    case BruteForce => assert RULES[0] == r;
    case ApiEnumeration => assert RULES[1] == r;
    case UnauthorizedBurst => assert RULES[2] == r;
    case MassScraping => assert RULES[3] == r;
    case KernelAnomaly => assert RULES[4] == r;
    case PrivilegeCreep => assert RULES[5] == r;
  }

  lemma ResetAppend(ops: seq<HitOp>, key: string, k: string)
    ensures HitsOf(ops + [ResetHits(key)], k) == if key == k then [] else HitsOf(ops, k)
  {
    assert (ops + [ResetHits(key)])[..|ops|] == ops;
  }

  /** The hits under a rule's key are the rule's own events from that source, whatever the other rules record. */
  lemma {:induction false} HitsAreTimes(h: seq<Seen>, st: Settings, r: Rule, source: string)
    requires Counts(r)
    ensures HitsOf(HitOps(h, st), Key(r, source)) == Times(h, r, source)
  {
    if h != [] {
      HitsAreTimes(h[..|h| - 1], st, r, source);
      AllRules(r);
      hide Applies, HitsOf, HitsOfRules, Key;
      match h[|h| - 1] {
        case Seen(e, _) => HitsOfRulesAppend(HitOps(h[..|h| - 1], st), RULES, e, st, r, source);
        case Reset(key) => ResetAppend(HitOps(h[..|h| - 1], st), key, Key(r, source));
      }
    }
  }

  lemma {:induction false} RulesAreUniform(rules: seq<Rule>, e: Event, st: Settings, r: Rule, source: string)
    requires Counts(r)
    ensures OneWindow(HitsOfRules(rules, e, st), Key(r, source), LimitsOf(st, r).windowMs)
  {
    if rules != [] {
      var last := rules[|rules| - 1];
      RulesAreUniform(rules[..|rules| - 1], e, st, r, source);
      if Counts(last) {
        KeysDiffer(r, source, last, Source(e));
      }
      hide Applies, Key;
    }
  }

  lemma {:induction false} WindowsAreUniform(h: seq<Seen>, st: Settings, r: Rule, source: string)
    requires Counts(r)
    ensures OneWindow(HitOps(h, st), Key(r, source), LimitsOf(st, r).windowMs)
  {
    if h != [] {
      WindowsAreUniform(h[..|h| - 1], st, r, source);
      if h[|h| - 1].Seen? {
        RulesAreUniform(RULES, h[|h| - 1].event, st, r, source);
      }
      hide HitsOfRules, Key;
    }
  }

  lemma RecordsAppend(h: seq<Record>, x: Record, ttl: int)
    ensures Records(h + [x], ttl) == Unexpired(Records(h, ttl), x.at)[x.item := x.at + ttl * 1000]
  {
    assert (h + [x])[..|h|] == h;
  }

  lemma PathsKeysDiffer(source: string, source': string)
    ensures PathsKey(source) == PathsKey(source') <==> source == source'
  {
    assert PathsKey(source)[|"enum_paths:ip:"|..] == source;
    assert PathsKey(source')[|"enum_paths:ip:"|..] == source';
  }

  lemma {:induction false} PathsAreRecords(h: seq<Seen>, st: Settings, source: string)
    ensures SetOf(PathsAfterAll(h, st), PathsKey(source)) == Records(Probes(h, source), PathsTtl(st))
  {
    if h != [] {
      var before, x := h[..|h| - 1], h[|h| - 1];
      PathsAreRecords(before, st, source);
      assert Records([], PathsTtl(st)) == map[];
      if x.Seen? {
        PathsKeysDiffer(source, Source(x.event));
      }
      hide Applies, Route, PathsKey, Records, Unexpired, PathsTtl;
      var probes, more := Probes(before, source), Probes(h, source);
      if x.Seen? && Applies(ApiEnumeration, x.event) && Source(x.event) == source {
        RecordsAppend(probes, Record(Route(x.event), x.now), PathsTtl(st));
      } else {
        assert x.Seen? ==> more == probes;
      }
    }
  }

  lemma {:induction false} WindowCounts(h: seq<Seen>, st: Settings, r: Rule, source: string)
    requires Counts(r) && Ordered(Times(h, r, source)) && Times(h, r, source) != []
    ensures |WindowOf(WindowsAfter(h, st), Key(r, source))|
         == CountWithLast(Times(h, r, source), LimitsOf(st, r).windowMs)
  {
    hide HitsOf, HitRun, OneWindow, CountWithLast, Times, HitOps, WindowsAfter, Key, Ordered;
    WindowsAreRun(h, st);
    HitsAreTimes(h, st, r, source);
    WindowsAreUniform(h, st, r, source);
    LastCountIsExact(HitOps(h, st), Key(r, source), LimitsOf(st, r).windowMs);
  }

  predicate EndsWithEvent(h: seq<Seen>) {
    h != [] && h[|h| - 1].Seen?
  }

  lemma LastTime(h: seq<Seen>, r: Rule)
    requires EndsWithEvent(h) && Counts(r) && Applies(r, h[|h| - 1].event)
    ensures var times := Times(h, r, Source(h[|h| - 1].event));
            times != [] && times[|times| - 1] == h[|h| - 1].event.at
  {
    hide Applies, Source;
  }

  /** The events that a rule counts for a source are in order of their time, and for enumeration of the clock.
      Nothing is asked of the events of other sources or rules. */
  predicate InOrder(h: seq<Seen>, r: Rule, source: string) {
    Counts(r) ==>
      && Ordered(Times(h, r, source))
      && (r == ApiEnumeration ==>
            forall i, j :: 0 <= i <= j < |Probes(h, source)| ==> Probes(h, source)[i].at <= Probes(h, source)[j].at)
  }

  /** The condition of a rule on the last event of a history, in terms of all events so far. */
  predicate Alarms(h: seq<Seen>, st: Settings, r: Rule)
    requires EndsWithEvent(h)
  {
    var e, now := h[|h| - 1].event, h[|h| - 1].now;
    Applies(r, e) &&
    (Counts(r) ==>
       || (Times(h, r, Source(e)) != []
           && CountWithLast(Times(h, r, Source(e)), LimitsOf(st, r).windowMs) >= LimitsOf(st, r).threshold)
       || (r == ApiEnumeration
           && |RecentItems(Probes(h, Source(e)), PathsTtl(st), now) + {Route(e)}| >= st.distinctThreshold))
  }

  /** A count rule fires exactly when its event brings the number of its events from that source in the window to the
      threshold, whatever other rules and sources record. The enumeration rule also fires when the source has probed
      enough distinct routes in the window, measured by the clock. */
  lemma {:induction false} FiresIff(h: seq<Seen>, st: Settings, r: Rule)
    requires EndsWithEvent(h) && InOrder(h, r, Source(h[|h| - 1].event))
    ensures Fires(r, h[|h| - 1].event, st, WindowsAfter(h, st), PathsAfterAll(h, st)) <==> Alarms(h, st, r)
  {
    var e := h[|h| - 1].event;
    if Applies(r, e) && Counts(r) {
      LastTime(h, r);
      hide Applies, CountWithLast, Times, Probes, WindowsAfter, PathsAfterAll, Key, PathsKey, RecentItems, PathsTtl;
      WindowCounts(h, st, r, Source(e));
      if r == ApiEnumeration {
        PathsCount(h, st);
      }
    }
    hide Applies, CountWithLast, Times, Probes, WindowsAfter, PathsAfterAll, Key, PathsKey, RecentItems, PathsTtl;
  }

  /** How many routes are stored right after one has been recorded. */
  lemma PathsCount(h: seq<Seen>, st: Settings)
    requires EndsWithEvent(h) && Applies(ApiEnumeration, h[|h| - 1].event)
    requires InOrder(h, ApiEnumeration, Source(h[|h| - 1].event))
    ensures var e := h[|h| - 1].event;
            |SetOf(PathsAfterAll(h, st), PathsKey(Source(e)))|
            == |RecentItems(Probes(h, Source(e)), PathsTtl(st), h[|h| - 1].now) + {Route(e)}|
  {
    var e, now := h[|h| - 1].event, h[|h| - 1].now;
    var probes := Probes(h, Source(e));
    LastProbe(h);
    assert RecordsInOrder(probes, now) by {
      hide Applies, Times, Probes, Ordered, Source;
    }
    hide *;
    PathsAreRecords(h, st, Source(e));
    DistinctCountIsExact(probes, PathsTtl(st), now);
  }

  lemma LastProbe(h: seq<Seen>)
    requires EndsWithEvent(h) && Applies(ApiEnumeration, h[|h| - 1].event)
    ensures var e, probes := h[|h| - 1].event, Probes(h, Source(h[|h| - 1].event));
            probes != [] && probes[|probes| - 1] == Record(Route(e), h[|h| - 1].now)
  {
    hide Applies, Route, Source;
  }

  /** Routes are remembered for the whole seconds of the window; of a negative window the fraction is cut off too. */
  lemma PathsTtlIs(st: Settings)
    ensures st.enumeration.windowMs >= 0 ==>
              0 <= PathsTtl(st) && PathsTtl(st) * 1000 <= st.enumeration.windowMs < (PathsTtl(st) + 1) * 1000
    ensures st.enumeration.windowMs < 0 ==>
              0 >= PathsTtl(st) && (PathsTtl(st) - 1) * 1000 < st.enumeration.windowMs <= PathsTtl(st) * 1000
  {
  }

  function DefaultThreshold(r: Rule): nat
    requires Counts(r)
  {
    match r
    case BruteForce => 10
    case ApiEnumeration => 20
    case UnauthorizedBurst => 15
    case MassScraping => 25
  }

  lemma DefaultLimits(r: Rule)
    requires Counts(r)
    ensures LimitsOf(DEFAULTS, r) == Limits(60_000, DefaultThreshold(r))
    ensures PathsTtl(DEFAULTS) == 60 && DEFAULTS.distinctThreshold == 25
  {
  }

  /** The rules with their default fields: ten failed logins, twenty misses or twenty-five distinct routes, fifteen
      refusals, or twenty-five data queries in a minute. */
  lemma {:induction false} DefaultFiresIff(h: seq<Seen>, r: Rule)
    requires EndsWithEvent(h) && Counts(r) && Applies(r, h[|h| - 1].event)
    requires InOrder(h, r, Source(h[|h| - 1].event))
    ensures var e := h[|h| - 1].event;
            Fires(r, e, DEFAULTS, WindowsAfter(h, DEFAULTS), PathsAfterAll(h, DEFAULTS))
            <==> || CountBetween(Times(h, r, Source(e)), e.at - 60_000, e.at) >= DefaultThreshold(r)
                 || (r == ApiEnumeration
                     && |RecentItems(Probes(h, Source(e)), 60, h[|h| - 1].now) + {Route(e)}| >= 25)
  {
    hide Applies, Times, Probes, CountBetween, CountWithLast, RecentItems, WindowsAfter, PathsAfterAll, Fires, Alarms,
         InOrder, Source, Route, PathsTtl, LimitsOf;
    var times := Times(h, r, Source(h[|h| - 1].event));
    var minute: I64 := 60_000;
    hide *;
    LastTime(h, r);
    FiresIff(h, DEFAULTS, r);
    CountWithLastIsCount(times, minute);
    AlarmsWithin(h, DEFAULTS, r, Limits(60_000, DefaultThreshold(r)), 60, 25) by {
      DefaultLimits(r);
    }
  }

  lemma AlarmsWithin(h: seq<Seen>, st: Settings, r: Rule, l: Limits, ttl: int, distinct: nat)
    requires EndsWithEvent(h) && Counts(r) && Applies(r, h[|h| - 1].event)
    requires Times(h, r, Source(h[|h| - 1].event)) != []
    requires LimitsOf(st, r) == l && PathsTtl(st) == ttl && st.distinctThreshold == distinct
    ensures var e := h[|h| - 1].event;
            Alarms(h, st, r)
            <==> || CountWithLast(Times(h, r, Source(e)), l.windowMs) >= l.threshold
                 || (r == ApiEnumeration
                     && |RecentItems(Probes(h, Source(e)), ttl, h[|h| - 1].now) + {Route(e)}| >= distinct)
  {
    hide Applies, Times, Probes, CountWithLast, RecentItems, Route, Source, LimitsOf, PathsTtl;
  }
}
