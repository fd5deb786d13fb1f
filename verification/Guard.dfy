/** The guard inside a protected application: it verifies signed commands and enforces them from three local
    tables, which it cleans lazily. */
module Guard {
  import opened Basics
  import opened Commands
  import opened Nonce

  /** What the guard relies on: the controller's key, signature verification, and the printing of ids and times. */
  datatype Trust = Trust(key: string, verify: (string, string, string) -> Option<CryptoError>, printer: Printer)

  /** Each restriction is filed under a key of one of the three tables. */
  datatype Key = Ip(ip: string) | Session(session: string) | Capability(target: string, capability: string)

  datatype Tables = Tables(blockedIps: map<string, Time>, revokedSessions: map<string, Time>,
                           revokedCapabilities: map<(string, string), Time>)

  datatype State = State(tables: Tables, nonces: Nonces)

  const START := State(Tables(map[], map[], map[]), map[])

  datatype Outcome = Done(applied: bool) | Rejected(error: CryptoError)

  function CleanIp(ip: string): string {
    TrimStart(ip, "ip:")
  }

  function CleanSession(session: string): string {
    TrimStart(session, "session:")
  }

  /** Where a command is filed; a capability command without a capability is filed nowhere. */
  function KeyOf(c: Command): Option<Key> {
    match c.action
    case BlockNetwork => Some(Ip(CleanIp(c.target)))
    case RevokeSession => Some(Session(CleanSession(c.target)))
    case RevokeCapability => if c.capability.Some? then Some(Capability(c.target, c.capability.value)) else None
    case _ => Some(Session(c.target))
  }

  function Lookup(t: Tables, k: Key): Option<Time> {
    match k
    case Ip(ip) => if ip in t.blockedIps then Some(t.blockedIps[ip]) else None
    case Session(s) => if s in t.revokedSessions then Some(t.revokedSessions[s]) else None
    case Capability(target, cap) =>
      if (target, cap) in t.revokedCapabilities then Some(t.revokedCapabilities[(target, cap)]) else None
  }

  function Filed(t: Tables, k: Key, expiry: Time): Tables {
    match k
    case Ip(ip) => t.(blockedIps := t.blockedIps[ip := expiry])
    case Session(s) => t.(revokedSessions := t.revokedSessions[s := expiry])
    case Capability(target, cap) => t.(revokedCapabilities := t.revokedCapabilities[(target, cap) := expiry])
  }

  function Struck(t: Tables, k: Key): Tables {
    match k
    case Ip(ip) => t.(blockedIps := t.blockedIps - {ip})
    case Session(s) => t.(revokedSessions := t.revokedSessions - {s})
    case Capability(target, cap) => t.(revokedCapabilities := t.revokedCapabilities - {(target, cap)})
  }

  /** The keys a rollback clears: for capabilities all those of the target. */
  predicate Clears(target: string, action: Action, k: Key) {
    match action
    case BlockNetwork => k == Ip(CleanIp(target))
    case RevokeSession => k == Session(CleanSession(target))
    case RevokeCapability => k.Capability? && k.target == target
    case _ => k == Session(target)
  }

  function RolledBackTables(t: Tables, target: string, action: Action): Tables {
    match action
    case BlockNetwork => Struck(t, Ip(CleanIp(target)))
    case RevokeSession => Struck(t, Session(CleanSession(target)))
    case RevokeCapability =>
      t.(revokedCapabilities := map k | k in t.revokedCapabilities && k.0 != target :: t.revokedCapabilities[k])
    case _ => Struck(t, Session(target))
  }

  predicate Live(t: Tables, k: Key, now: Time) {
    Lookup(t, k).Some? && now < Lookup(t, k).value
  }

  /** A check strikes an entry that has expired. */
  function Checked(t: Tables, k: Key, now: Time): Tables {
    if Lookup(t, k).Some? && now >= Lookup(t, k).value then Struck(t, k) else t
  }

  ghost function Authentic(trust: Trust, c: Command): Option<CryptoError> {
    if c.signerKey != trust.key then Some(VerificationFailed)
    else trust.verify(c.signerKey, Text(c, trust.printer), c.signature)
  }

  function ShowingOf(c: Command, now: Time): Showing {
    Showing(c.nonce, c.issuedAt, now)
  }

  ghost function ApplyOutcome(trust: Trust, s: State, c: Command, now: Time): Outcome {
    if Authentic(trust, c).Some? then Rejected(Authentic(trust, c).value)
    else if Verdict(s.nonces, GUARD_LIMITS, ShowingOf(c, now)).Some? then
      Rejected(Verdict(s.nonces, GUARD_LIMITS, ShowingOf(c, now)).value)
    else Done(!IsExpired(c, now))
  }

  ghost function Applied(trust: Trust, s: State, c: Command, now: Time): State {
    if Authentic(trust, c).Some? then s
    else
      var nonces := Recorded(s.nonces, GUARD_LIMITS, ShowingOf(c, now));
      if ApplyOutcome(trust, s, c, now) == Done(true) && KeyOf(c).Some? then
        State(Filed(s.tables, KeyOf(c).value, c.expiresAt), nonces)
      else s.(nonces := nonces)
  }

  /** The three keys a request may depend on; the capability is looked up under the session id as it is given. */
  datatype Request = Request(ip: Option<string>, session: Option<string>, capability: Option<string>) {
    function IpKey(): Option<Key> {
      if ip.Some? then Some(Ip(CleanIp(ip.value))) else None
    }

    function SessionKey(): Option<Key> {
      if session.Some? then Some(Session(CleanSession(session.value))) else None
    }

    function CapabilityKey(): Option<Key> {
      if session.Some? && capability.Some? then Some(Capability(session.value, capability.value)) else None
    }
  }

  predicate Hit(t: Tables, k: Option<Key>, now: Time) {
    k.Some? && Live(t, k.value, now)
  }

  predicate Allowed(t: Tables, r: Request, now: Time) {
    !Hit(t, r.IpKey(), now) && !Hit(t, r.SessionKey(), now) && !Hit(t, r.CapabilityKey(), now)
  }

  function Missed(t: Tables, k: Option<Key>, now: Time): Tables {
    if k.Some? then Checked(t, k.value, now) else t
  }

  /** The checks run in order until one of them hits. */
  function RequestTables(t: Tables, r: Request, now: Time): Tables {
    if Hit(t, r.IpKey(), now) then t
    else
      var t1 := Missed(t, r.IpKey(), now);
      if Hit(t1, r.SessionKey(), now) then t1
      else
        var t2 := Missed(t1, r.SessionKey(), now);
        if Hit(t2, r.CapabilityKey(), now) then t2 else Missed(t2, r.CapabilityKey(), now)
  }

  class ContainmentGuard {
    const trust: Trust
    const tracker: NonceTracker
    var blockedIps: map<string, Time>
    var revokedSessions: map<string, Time>
    var revokedCapabilities: map<(string, string), Time>

    function TablesNow(): Tables
      reads this
    {
      Tables(blockedIps, revokedSessions, revokedCapabilities)
    }

    function StateNow(): State
      reads this, tracker
    {
      State(TablesNow(), tracker.seenNonces)
    }

    predicate Valid() {
      tracker.limits == GUARD_LIMITS
    }

    constructor (trust: Trust)
      ensures Valid() && StateNow() == START && this.trust == trust && fresh(tracker)
    {
      this.trust := trust;
      tracker := new NonceTracker(60);
      blockedIps, revokedSessions, revokedCapabilities := map[], map[], map[];
    }

    method ApplyCommand(cmd: Command, now: Time) returns (outcome: Outcome)
      requires Valid()
      modifies this, tracker
      ensures outcome == ApplyOutcome(trust, old(StateNow()), cmd, now)
      ensures StateNow() == Applied(trust, old(StateNow()), cmd, now)
    {
      if cmd.signerKey != trust.key {
        return Rejected(VerificationFailed);
      }
      var text := CanonicalBytes(cmd, trust.printer);
      var bad := trust.verify(cmd.signerKey, text, cmd.signature);
      if bad.Some? {
        return Rejected(bad.value);
      }
      var replay := tracker.CheckAndRecord(cmd.nonce, cmd.issuedAt, now);
      if replay.Some? {
        return Rejected(replay.value);
      }
      if IsExpired(cmd, now) {
        return Done(false);
      }
      match cmd.action {
        case BlockNetwork =>
          blockedIps := blockedIps[CleanIp(cmd.target) := cmd.expiresAt];
        case RevokeSession =>
          revokedSessions := revokedSessions[CleanSession(cmd.target) := cmd.expiresAt];
        case RevokeCapability =>
          if cmd.capability.Some? {
            revokedCapabilities := revokedCapabilities[(cmd.target, cmd.capability.value) := cmd.expiresAt];
          }
        case _ =>
          revokedSessions := revokedSessions[cmd.target := cmd.expiresAt];
      }
      return Done(true);
    }

    method RollbackAction(target: string, action: Action)
      modifies this
      ensures TablesNow() == RolledBackTables(old(TablesNow()), target, action)
    {
      match action {
        case BlockNetwork => blockedIps := blockedIps - {CleanIp(target)};
        case RevokeSession => revokedSessions := revokedSessions - {CleanSession(target)};
        case RevokeCapability =>
          revokedCapabilities := map k | k in revokedCapabilities && k.0 != target :: revokedCapabilities[k];
        case _ => revokedSessions := revokedSessions - {target};
      }
    }

    method IsIpBlocked(ip: string, now: Time) returns (blocked: bool)
      modifies this
      ensures blocked == Live(old(TablesNow()), Ip(CleanIp(ip)), now)
      ensures TablesNow() == Checked(old(TablesNow()), Ip(CleanIp(ip)), now)
    {
      var clean := CleanIp(ip);
      if clean in blockedIps {
        if now < blockedIps[clean] {
          return true;
        }
        blockedIps := blockedIps - {clean};
      }
      return false;
    }

    method IsSessionRevoked(session: string, now: Time) returns (revoked: bool)
      modifies this
      ensures revoked == Live(old(TablesNow()), Session(CleanSession(session)), now)
      ensures TablesNow() == Checked(old(TablesNow()), Session(CleanSession(session)), now)
    {
      var clean := CleanSession(session);
      if clean in revokedSessions {
        if now < revokedSessions[clean] {
          return true;
        }
        revokedSessions := revokedSessions - {clean};
      }
      return false;
    }

    method IsCapabilityRevoked(target: string, capability: string, now: Time) returns (revoked: bool)
      modifies this
      ensures revoked == Live(old(TablesNow()), Capability(target, capability), now)
      ensures TablesNow() == Checked(old(TablesNow()), Capability(target, capability), now)
    {
      var key := (target, capability);
      if key in revokedCapabilities {
        if now < revokedCapabilities[key] {
          return true;
        }
        revokedCapabilities := revokedCapabilities - {key};
      }
      return false;
    }

    method IsRequestAllowed(r: Request, now: Time) returns (allowed: bool)
      modifies this
      ensures allowed == Allowed(old(TablesNow()), r, now)
      ensures TablesNow() == RequestTables(old(TablesNow()), r, now)
    {
      MissedKeepsLive(TablesNow(), r, now);
      if r.ip.Some? {
        var blocked := IsIpBlocked(r.ip.value, now);
        if blocked {
          return false;
        }
      }
      if r.session.Some? {
        var revoked := IsSessionRevoked(r.session.value, now);
        if revoked {
          return false;
        }
      }
      if r.session.Some? && r.capability.Some? {
        var revoked := IsCapabilityRevoked(r.session.value, r.capability.value, now);
        if revoked {
          return false;
        }
      }
      return true;
    }
  }

  lemma MissedKeepsLive(t: Tables, r: Request, now: Time)
    ensures var t1 := Missed(t, r.IpKey(), now);
            && Hit(t1, r.SessionKey(), now) == Hit(t, r.SessionKey(), now)
            && Hit(t1, r.CapabilityKey(), now) == Hit(t, r.CapabilityKey(), now)
            && Hit(Missed(t1, r.SessionKey(), now), r.CapabilityKey(), now) == Hit(t, r.CapabilityKey(), now)
  {
  }

  // ---------- What accepted commands do to requests ----------

  /** A command is accepted exactly when it bears the controller's key and a good signature over its text, was issued
      less than 61 seconds from now, and its nonce is not remembered; it takes effect until it expires. */
  lemma AcceptedIff(trust: Trust, s: State, c: Command, now: Time, applied: bool)
    ensures ApplyOutcome(trust, s, c, now) == Done(applied)
       <==> && c.signerKey == trust.key && trust.verify(c.signerKey, Text(c, trust.printer), c.signature) == None
            && c.issuedAt - 61 * SECOND < now < c.issuedAt + 61 * SECOND
            && !(c.nonce in s.nonces && s.nonces[c.nonce] > now - 15 * 60 * SECOND)
            && applied == (now < c.expiresAt)
  {
    hide Text;
  }

  /** What an accepted command restricts: an address, a session, or a capability of a target. */
  predicate Restricts(c: Command, r: Request) {
    match c.action
    case BlockNetwork => r.ip.Some? && TrimStart(r.ip.value, "ip:") == TrimStart(c.target, "ip:")
    case RevokeSession =>
      r.session.Some? && TrimStart(r.session.value, "session:") == TrimStart(c.target, "session:")
    case RevokeCapability =>
      r.session == Some(c.target) && r.capability.Some? && r.capability == c.capability
    case _ => r.session.Some? && TrimStart(r.session.value, "session:") == c.target
  }

  /** From then on a request is refused exactly if the command restricts it or it was refused before; unless the
      command has expired, when nothing changes. */
  lemma AcceptedRefuses(trust: Trust, s: State, c: Command, now: Time, r: Request)
    requires ApplyOutcome(trust, s, c, now).Done?
    ensures now >= c.expiresAt ==> Applied(trust, s, c, now).tables == s.tables
    ensures now < c.expiresAt ==>
              (!Allowed(Applied(trust, s, c, now).tables, r, now) <==> Restricts(c, r) || !Allowed(s.tables, r, now))
  {
    hide Authentic, Verdict, Recorded;
  }

  /** The restriction lasts until the expiry of the command and not longer. */
  lemma RestrictionLasts(trust: Trust, s: State, c: Command, now: Time, r: Request, later: Time)
    requires ApplyOutcome(trust, s, c, now).Done? && now < c.expiresAt && Restricts(c, r)
    ensures later < c.expiresAt ==> !Allowed(Applied(trust, s, c, now).tables, r, later)
    ensures later >= c.expiresAt && Allowed(s.tables, r, later) ==> Allowed(Applied(trust, s, c, now).tables, r, later)
  {
    hide Authentic, Verdict, Recorded;
  }

  lemma KeyRestricts(c: Command, r: Request, k: Key)
    requires KeyOf(c) == Some(k) && (r.IpKey() == Some(k) || r.SessionKey() == Some(k) || r.CapabilityKey() == Some(k))
    ensures Restricts(c, r)
  {
  }

  predicate IpRefused(t: Tables, r: Request, now: Time) {
    r.ip.Some? && var ip := TrimStart(r.ip.value, "ip:"); ip in t.blockedIps && now < t.blockedIps[ip]
  }

  predicate SessionRefused(t: Tables, r: Request, now: Time) {
    r.session.Some? && var session := TrimStart(r.session.value, "session:");
                       session in t.revokedSessions && now < t.revokedSessions[session]
  }

  predicate CapabilityRefused(t: Tables, r: Request, now: Time) {
    r.session.Some? && r.capability.Some? && var key := (r.session.value, r.capability.value);
                                             key in t.revokedCapabilities && now < t.revokedCapabilities[key]
  }

  /** A request is allowed exactly when no table refuses it. */
  lemma AllowedIff(t: Tables, r: Request, now: Time)
    ensures Allowed(t, r, now) <==> !IpRefused(t, r, now) && !SessionRefused(t, r, now) && !CapabilityRefused(t, r, now)
  {
    hide TrimStart;
  }

  /** What a request looks at. */
  predicate LooksAt(t: Tables, r: Request, now: Time, k: Key) {
    match k
    case Ip(ip) => r.ip.Some? && ip == TrimStart(r.ip.value, "ip:")
    case Session(session) =>
      !IpRefused(t, r, now) && r.session.Some? && session == TrimStart(r.session.value, "session:")
    case Capability(target, capability) =>
      && !IpRefused(t, r, now) && !SessionRefused(t, r, now)
      && r.session == Some(target) && r.capability == Some(capability)
  }

  lemma KeysLookedAt(t: Tables, r: Request, now: Time, k: Key)
    ensures r.IpKey() == Some(k) || (!Hit(t, r.IpKey(), now) && r.SessionKey() == Some(k))
            || (!Hit(t, r.IpKey(), now) && !Hit(t, r.SessionKey(), now) && r.CapabilityKey() == Some(k))
       <==> LooksAt(t, r, now, k)
  {
    hide TrimStart;
  }

  lemma MissedForgets(t: Tables, k: Option<Key>, now: Time, j: Key)
    ensures Lookup(Missed(t, k, now), j)
         == if k == Some(j) && Lookup(t, j).Some? && Lookup(t, j).value <= now then None else Lookup(t, j)
    ensures Live(Missed(t, k, now), j, now) <==> Live(t, j, now)
  {
  }

  /** A request looks at its address, its session and its capability in turn until one refuses it, and forgets exactly
      the entries it looks at whose time has passed. */
  lemma RequestForgets(t: Tables, r: Request, now: Time, k: Key)
    ensures Lookup(RequestTables(t, r, now), k)
         == if Lookup(t, k).Some? && Lookup(t, k).value <= now && LooksAt(t, r, now, k) then None else Lookup(t, k)
  {
    KeysLookedAt(t, r, now, k);
    hide Lookup, Missed, LooksAt, Checked, TrimStart;
    var t1 := Missed(t, r.IpKey(), now);
    var t2 := Missed(t1, r.SessionKey(), now);
    MissedForgets(t, r.IpKey(), now, k);
    MissedForgets(t1, r.SessionKey(), now, k);
    MissedForgets(t2, r.CapabilityKey(), now, k);
    if r.session.Some? {
      MissedForgets(t, r.IpKey(), now, r.SessionKey().value);
    }
    if r.CapabilityKey().Some? {
      MissedForgets(t, r.IpKey(), now, r.CapabilityKey().value);
      MissedForgets(t1, r.SessionKey(), now, r.CapabilityKey().value);
    }
  }

  /** A rollback takes back the address, the session, or all capabilities of its target, and nothing else. */
  lemma RollbackFrees(t: Tables, target: string, action: Action, r: Request, now: Time)
    ensures var t' := RolledBackTables(t, target, action);
            && (IpRefused(t', r, now) <==>
                  IpRefused(t, r, now)
                  && !(action == BlockNetwork && TrimStart(r.ip.value, "ip:") == TrimStart(target, "ip:")))
            && (SessionRefused(t', r, now) <==>
                  && SessionRefused(t, r, now)
                  && !(action == RevokeSession
                       && TrimStart(r.session.value, "session:") == TrimStart(target, "session:"))
                  && !(action !in {BlockNetwork, RevokeSession, RevokeCapability}
                       && TrimStart(r.session.value, "session:") == target))
            && (CapabilityRefused(t', r, now) <==>
                  CapabilityRefused(t, r, now) && !(action == RevokeCapability && r.session.value == target))
  {
    hide TrimStart;
  }

  // ---------- Runs ----------

  datatype Op = Apply(cmd: Command, now: Time)
              | Rollback(target: string, action: Action, now: Time)
              | Check(key: Key, now: Time)
              | Ask(request: Request, now: Time)

  ghost function Step(trust: Trust, s: State, op: Op): State {
    match op
    case Apply(cmd, now) => Applied(trust, s, cmd, now)
    case Rollback(target, action, _) => s.(tables := RolledBackTables(s.tables, target, action))
    case Check(key, now) => s.(tables := Checked(s.tables, key, now))
    case Ask(request, now) => s.(tables := RequestTables(s.tables, request, now))
  }

  ghost function Run(trust: Trust, h: seq<Op>): State {
    if h == [] then START else Step(trust, Run(trust, h[..|h| - 1]), h[|h| - 1])
  }

  /** The command of step i was accepted and not expired. */
  ghost predicate Enforced(trust: Trust, before: seq<Op>, op: Op) {
    op.Apply? && ApplyOutcome(trust, Run(trust, before), op.cmd, op.now) == Done(true)
  }

  /** What the history says about a key: the expiry of the last accepted command filed under it, unless a
      rollback that clears the key came later. Checks do not enter. */
  ghost function Standing(trust: Trust, h: seq<Op>, k: Key): Option<Time> {
    if h == [] then None
    else
      var before, op := h[..|h| - 1], h[|h| - 1];
      if Enforced(trust, before, op) && KeyOf(op.cmd) == Some(k) then Some(op.cmd.expiresAt)
      else if op.Rollback? && Clears(op.target, op.action, k) then None
      else Standing(trust, before, k)
  }

  ghost predicate Timely(h: seq<Op>, now: Time) {
    && (forall i, j :: 0 <= i <= j < |h| ==> h[i].now <= h[j].now)
    && (h != [] ==> h[|h| - 1].now <= now)
  }

  lemma LookupFiled(t: Tables, k: Key, e: Time, j: Key)
    ensures Lookup(Filed(t, k, e), j) == if j == k then Some(e) else Lookup(t, j)
  {
  }

  lemma LookupCleared(t: Tables, target: string, action: Action, j: Key)
    ensures Lookup(RolledBackTables(t, target, action), j) == if Clears(target, action, j) then None else Lookup(t, j)
  {
  }

  lemma LookupChecked(t: Tables, k: Key, now: Time, j: Key)
    ensures Lookup(Checked(t, k, now), j)
         == if j == k && Lookup(t, k).Some? && now >= Lookup(t, k).value then None else Lookup(t, j)
  {
  }

  /** The entry of a table, or a missing entry whose time has passed. */
  ghost predicate Agrees(entry: Option<Time>, standing: Option<Time>, now: Time) {
    entry == standing || (entry.None? && standing.Some? && standing.value <= now)
  }

  lemma MissedAgrees(t: Tables, k: Option<Key>, now: Time, j: Key, standing: Option<Time>)
    requires Agrees(Lookup(t, j), standing, now)
    ensures Agrees(Lookup(Missed(t, k, now), j), standing, now)
  {
    if k.Some? {
      LookupChecked(t, k.value, now, j);
    }
  }

  lemma RequestAgrees(t: Tables, r: Request, now: Time, j: Key, standing: Option<Time>)
    requires Agrees(Lookup(t, j), standing, now)
    ensures Agrees(Lookup(RequestTables(t, r, now), j), standing, now)
  {
    hide Missed, Hit, Lookup, Agrees;
    MissedAgrees(t, r.IpKey(), now, j, standing);
    var t1 := Missed(t, r.IpKey(), now);
    MissedAgrees(t1, r.SessionKey(), now, j, standing);
    MissedAgrees(Missed(t1, r.SessionKey(), now), r.CapabilityKey(), now, j, standing);
  }

  /** The tables agree with the history, up to entries whose time has passed. */
  lemma {:induction false} TablesAgree(trust: Trust, h: seq<Op>, now: Time, k: Key)
    requires Timely(h, now)
    ensures Agrees(Lookup(Run(trust, h).tables, k), Standing(trust, h, k), now)
  {
    if h != [] {
      var before, op := h[..|h| - 1], h[|h| - 1];
      var s := Run(trust, before);
      assert Timely(before, op.now);
      TablesAgree(trust, before, op.now, k);
      hide Lookup, Filed, Authentic, Verdict, Recorded, RolledBackTables, Clears, Checked, RequestTables, KeyOf;
      match op {
        case Apply(cmd, _) =>
          if KeyOf(cmd).Some? {
            LookupFiled(s.tables, KeyOf(cmd).value, cmd.expiresAt, k);
          }
        case Rollback(target, action, _) => LookupCleared(s.tables, target, action, k);
        case Check(key, t) => LookupChecked(s.tables, key, t, k);
        case Ask(request, t) => RequestAgrees(s.tables, request, t, k, Standing(trust, before, k));
      }
    }
  }

  /** Guard refinement: a check answers yes exactly when the last accepted command or rollback that touched
      its key was a command whose expiry lies ahead. So lazy eviction cannot be observed. */
  lemma {:induction false} CheckAnswers(trust: Trust, h: seq<Op>, now: Time, k: Key)
    requires Timely(h, now)
    ensures Live(Run(trust, h).tables, k, now)
       <==> Standing(trust, h, k).Some? && now < Standing(trust, h, k).value
  {
    TablesAgree(trust, h, now, k);
  }

  /** All commands that were accepted have expired; what was rejected does not matter. */
  ghost predicate AllExpired(trust: Trust, h: seq<Op>, now: Time) {
    forall i :: 0 <= i < |h| && Enforced(trust, h[..i], h[i]) ==> h[i].cmd.expiresAt <= now
  }

  lemma {:induction false} StandingWasEnforced(trust: Trust, h: seq<Op>, k: Key) returns (i: nat)
    requires Standing(trust, h, k).Some?
    ensures i < |h| && Enforced(trust, h[..i], h[i]) && h[i].cmd.expiresAt == Standing(trust, h, k).value
    decreases |h|
  {
    var before, op := h[..|h| - 1], h[|h| - 1];
    if Enforced(trust, before, op) && KeyOf(op.cmd) == Some(k) {
      i := |h| - 1;
    } else {
      i := StandingWasEnforced(trust, before, k);
      assert before[..i] == h[..i];
    }
  }

  /** Once the expiry of every accepted command has passed, every request is allowed. */
  lemma {:induction false} ExpiryFreesRequests(trust: Trust, h: seq<Op>, now: Time, r: Request)
    requires Timely(h, now) && AllExpired(trust, h, now)
    ensures Allowed(Run(trust, h).tables, r, now)
  {
    hide Run, Timely, Live, Enforced;
    forall k ensures !Live(Run(trust, h).tables, k, now) {
      CheckAnswers(trust, h, now, k);
      if Standing(trust, h, k).Some? {
        var i := StandingWasEnforced(trust, h, k);
      }
    }
  }

  // ---------- Replays ----------

  /** What the tracker gets to see: the authentic commands that are presented, expired or not. */
  ghost function Showings(trust: Trust, h: seq<Op>): seq<Showing> {
    if h == [] then []
    else
      var last := h[|h| - 1];
      Showings(trust, h[..|h| - 1])
      + (if last.Apply? && Authentic(trust, last.cmd).None?
         then [Showing(last.cmd.nonce, last.cmd.issuedAt, last.now)] else [])
  }

  lemma StepTracks(trust: Trust, s: State, op: Op)
    ensures Step(trust, s, op).nonces
         == if op.Apply? && Authentic(trust, op.cmd).None?
            then Recorded(s.nonces, GUARD_LIMITS, Showing(op.cmd.nonce, op.cmd.issuedAt, op.now)) else s.nonces
  {
    hide Authentic, Verdict, Recorded, KeyOf, Filed, RolledBackTables, Checked, RequestTables;
  }

  lemma OneMoreShowing(shown: seq<Showing>, x: Showing)
    ensures Nonce.Run(GUARD_LIMITS, shown + [x]) == Recorded(Nonce.Run(GUARD_LIMITS, shown), GUARD_LIMITS, x)
  {
    hide Recorded;
    assert (shown + [x])[..|shown|] == shown;
  }

  /** In every run of the guard its tracker is that of the authentic commands. */
  lemma {:induction false} GuardTracks(trust: Trust, h: seq<Op>)
    ensures Run(trust, h).nonces == Nonce.Run(GUARD_LIMITS, Showings(trust, h))
  {
    hide Authentic, Recorded, Step, Nonce.Run;
    if h == [] {
      NothingShown();
    } else {
      var n := |h| - 1;
      var shown := Showings(trust, h[..n]);
      GuardTracks(trust, h[..n]);
      StepTracks(trust, Run(trust, h[..n]), h[n]);
      assert shown + [] == shown;
      if h[n].Apply? {
        OneMoreShowing(shown, Showing(h[n].cmd.nonce, h[n].cmd.issuedAt, h[n].now));
      }
    }
  }

  lemma NothingShown()
    ensures Nonce.Run(GUARD_LIMITS, []) == START.nonces
  {
  }

  /** The place of an authentic command among the showings. */
  lemma {:induction false} ShowingAt(trust: Trust, h: seq<Op>, i: nat)
    requires i < |h| && h[i].Apply? && Authentic(trust, h[i].cmd).None?
    ensures var shown, before := Showings(trust, h), Showings(trust, h[..i]);
            && |before| < |shown| && shown[..|before|] == before
            && shown[|before|] == Showing(h[i].cmd.nonce, h[i].cmd.issuedAt, h[i].now)
    decreases |h|
  {
    hide Authentic;
    if i < |h| - 1 {
      ShowingAt(trust, h[..|h| - 1], i);
      assert h[..|h| - 1][..i] == h[..i];
    }
  }

  /** The clock never falls by more than slack below an earlier reading. */
  ghost predicate FallsAtMost(h: seq<Op>, slack: Time) {
    forall i, j :: 0 <= i <= j < |h| ==> h[j].now >= h[i].now - slack
  }

  lemma {:induction false} ShownOnClock(trust: Trust, h: seq<Op>, k: nat) returns (i: nat)
    requires k < |Showings(trust, h)|
    ensures i < |h| && Showings(trust, h)[k].now == h[i].now
  {
    hide Authentic;
    if k < |Showings(trust, h[..|h| - 1])| {
      i := ShownOnClock(trust, h[..|h| - 1], k);
    } else {
      i := |h| - 1;
    }
  }

  lemma {:induction false} ClockOfShowings(trust: Trust, h: seq<Op>, slack: Time)
    requires FallsAtMost(h, slack) && slack >= 0
    ensures ClockWithin(Showings(trust, h), slack)
  {
    hide Authentic;
    if h != [] {
      var n := |h| - 1;
      ClockOfShowings(trust, h[..n], slack);
      var shown := Showings(trust, h);
      forall a, b | 0 <= a <= b < |shown| ensures shown[b].now >= shown[a].now - slack {
        if a < |Showings(trust, h[..n])| <= b {
          var i := ShownOnClock(trust, h[..n], a);
        }
      }
    }
  }

  /** The guard takes the command of step i. */
  ghost predicate Takes(trust: Trust, h: seq<Op>, i: nat)
    requires i < |h|
  {
    h[i].Apply? && ApplyOutcome(trust, Run(trust, h[..i]), h[i].cmd, h[i].now).Done?
  }

  lemma TakenIsAccepted(trust: Trust, h: seq<Op>, i: nat)
    requires i < |h| && Takes(trust, h, i)
    ensures Authentic(trust, h[i].cmd).None?
    ensures var shown, k := Showings(trust, h), |Showings(trust, h[..i])|;
            k < |shown| && Accepted(GUARD_LIMITS, shown, k)
  {
    hide Run, Verdict, Recorded, Showings;
    ShowingAt(trust, h, i);
    GuardTracks(trust, h[..i]);
  }

  /** A guard takes no command twice while the clock falls by at most 839 seconds, whatever rollbacks, checks, requests
      and other commands, rejected or not, come between. */
  lemma GuardTakesOnce(trust: Trust, h: seq<Op>, i: nat, j: nat)
    requires i < j < |h| && h[i].Apply? && h[j].Apply? && FallsAtMost(h, 839_000_000_000)
    requires h[i].cmd.nonce == h[j].cmd.nonce && h[i].cmd.issuedAt == h[j].cmd.issuedAt
    ensures !(Takes(trust, h, i) && Takes(trust, h, j))
  {
    hide Accepted, Takes, Showings, Authentic;
    if Takes(trust, h, i) && Takes(trust, h, j) {
      TakenIsAccepted(trust, h, i);
      TakenIsAccepted(trust, h, j);
      ShowingAt(trust, h, i);
      ShowingAt(trust, h, j);
      ShowingAt(trust, h[..j], i);
      assert h[..j][..i] == h[..i];
      ClockOfShowings(trust, h, 839_000_000_000);
      GuardSlackIsSharp();
      NoReplay(GUARD_LIMITS, Showings(trust, h), |Showings(trust, h[..i])|, |Showings(trust, h[..j])|);
    }
  }
}
