/** Controller and guard together. The network may lose, repeat and reorder commands, and anybody may present
    any command to the guard, with any text in its fields; only the controller can sign. */
module Protocol {
  import opened Basics
  import opened Commands
  import opened Nonce
  import Guard
  import Manager

  /** Both parties, and the (nonce, issue time) pairs the guard has accepted so far. */
  datatype System = System(ledger: Manager.Ledger, guard: Guard.State, taken: set<(string, Time)>)

  datatype Parties = Parties(signer: Manager.Signer, trust: Guard.Trust)

  /** A rollback on the controller is mirrored on the guard in the same step. */
  datatype Event = Dispatch(order: Order, id: Uuid, nonce: string)
                   | Rollback(id: Uuid)
                   | Sweep
                   | Deliver(cmd: Command)
                   | Check(key: Guard.Key)
                   | Ask(request: Guard.Request)

  datatype Move = Move(what: Event, now: Time)

  ghost function Step(p: Parties, s: System, e: Move): System {
    match e.what
    case Dispatch(o, id, nonce) => s.(ledger := Manager.Dispatched(s.ledger, p.signer, o, id, nonce, e.now))
    case Rollback(id) =>
      var answer := Manager.RollbackAnswer(s.ledger, id);
      if answer.Refused? then s
      else System(Manager.AfterRollback(s.ledger, id),
                  Guard.Step(p.trust, s.guard, Guard.Rollback(answer.cmd.target, answer.cmd.action, e.now)), s.taken)
    case Sweep => s.(ledger := Manager.Swept(s.ledger, e.now))
    case Deliver(c) =>
      System(s.ledger, Guard.Applied(p.trust, s.guard, c, e.now),
             if Guard.ApplyOutcome(p.trust, s.guard, c, e.now).Done? then s.taken + {(c.nonce, c.issuedAt)}
             else s.taken)
    case Check(k) => s.(guard := Guard.Step(p.trust, s.guard, Guard.Check(k, e.now)))
    case Ask(r) => s.(guard := Guard.Step(p.trust, s.guard, Guard.Ask(r, e.now)))
  }

  ghost function Run(p: Parties, h: seq<Move>): System {
    if h == [] then System(map[], Guard.START, {}) else Step(p, Run(p, h[..|h| - 1]), h[|h| - 1])
  }

  /** No signature verifies over a text that the controller has not signed. */
  ghost predicate Unforgeable(p: Parties, s: System, c: Command) {
    Guard.Authentic(p.trust, c) == None ==>
      exists id :: id in s.ledger && Text(s.ledger[id], p.trust.printer) == Text(c, p.trust.printer)
  }

  /** What the controller must see to when it dispatches: no line breaks, and a capability to revoke. */
  predicate Dispatchable(c: Command) {
    FieldsOnOneLine(c) && '\n' !in c.recipe && (c.action == RevokeCapability ==> c.capability.Some?)
  }

  /** A rolled-back command does not take effect on the guard for the first time: what the guard rejects, and what
      has expired, may name it at any time. */
  ghost predicate NotLate(p: Parties, s: System, c: Command, now: Time) {
    Guard.ApplyOutcome(p.trust, s.guard, c, now) == Guard.Done(true)
    && c.commandId in s.ledger && s.ledger[c.commandId].status == RolledBack
    ==> (c.nonce, c.issuedAt) in s.taken
  }

  ghost predicate Admissible(p: Parties, s: System, e: Move) {
    match e.what
    case Dispatch(o, id, nonce) => id !in s.ledger && Dispatchable(NewCommand(o, id, nonce, e.now))
    case Deliver(c) => Unforgeable(p, s, c) && NotLate(p, s, c, e.now)
    case _ => true
  }

  /** An admissible run on a clock that does not fall. */
  ghost predicate Fair(p: Parties, h: seq<Move>) {
    && Faithful(p.trust.printer)
    && (forall i, j :: 0 <= i <= j < |h| ==> h[i].now <= h[j].now)
    && (forall i :: 0 <= i < |h| ==> Admissible(p, Run(p, h[..i]), h[i]))
  }

  // ---------- The invariant ----------

  ghost predicate LedgerSound(m: Manager.Ledger, now: Time) {
    forall id :: id in m ==>
      m[id].commandId == id && Dispatchable(m[id]) && (m[id].status == Expired ==> m[id].expiresAt <= now)
  }

  /** An accepted pair is remembered, or too old to be accepted again. */
  ghost predicate Spent(nonces: Nonces, pair: (string, Time), now: Time) {
    (pair.0 in nonces && nonces[pair.0] == pair.1) || pair.1 + GUARD_LIMITS.retention <= now
  }

  /** A command of the ledger stands behind an entry of the guard: accepted, and not rolled back while it counts. */
  predicate Backs(c: Command, k: Guard.Key, expiry: Time, now: Time) {
    Guard.KeyOf(c) == Some(k) && c.expiresAt == expiry && (c.status == Active || expiry <= now)
  }

  ghost predicate Backed(m: Manager.Ledger, k: Guard.Key, expiry: Time, now: Time) {
    exists id :: id in m && Backs(m[id], k, expiry, now)
  }

  ghost predicate Sound(s: System, now: Time) {
    && LedgerSound(s.ledger, now)
    && (forall pair :: pair in s.taken ==> Spent(s.guard.nonces, pair, now))
    && forall k :: Guard.Lookup(s.guard.tables, k).Some? ==>
                     Backed(s.ledger, k, Guard.Lookup(s.guard.tables, k).value, now)
  }

  lemma BackedLater(m: Manager.Ledger, k: Guard.Key, expiry: Time, now: Time, later: Time)
    requires Backed(m, k, expiry, now) && now <= later
    ensures Backed(m, k, expiry, later)
  {
    var id :| id in m && Backs(m[id], k, expiry, now);
    assert Backs(m[id], k, expiry, later);
  }

  lemma SoundLater(s: System, now: Time, later: Time)
    requires Sound(s, now) && now <= later
    ensures Sound(s, later)
  {
    hide Guard.Lookup, Backed;
    forall k | Guard.Lookup(s.guard.tables, k).Some?
      ensures Backed(s.ledger, k, Guard.Lookup(s.guard.tables, k).value, later)
    {
      BackedLater(s.ledger, k, Guard.Lookup(s.guard.tables, k).value, now, later);
    }
  }

  lemma DispatchKeepsSound(p: Parties, s: System, o: Order, id: Uuid, nonce: string, now: Time)
    requires Sound(s, now) && id !in s.ledger && Dispatchable(NewCommand(o, id, nonce, now))
    ensures Sound(Step(p, s, Move(Dispatch(o, id, nonce), now)), now)
  {
    hide Guard.Lookup, Manager.Signed, Guard.KeyOf, Spent;
    var s' := Step(p, s, Move(Dispatch(o, id, nonce), now));
    SignedFields(p.signer, NewCommand(o, id, nonce, now));
    forall k | Guard.Lookup(s.guard.tables, k).Some?
      ensures Backed(s'.ledger, k, Guard.Lookup(s.guard.tables, k).value, now)
    {
      var e := Guard.Lookup(s.guard.tables, k).value;
      var i :| i in s.ledger && Backs(s.ledger[i], k, e, now);
      assert Backs(s'.ledger[i], k, e, now);
    }
  }

  lemma SignedFields(s: Manager.Signer, c: Command)
    ensures SameSigned(Manager.Signed(c, s), c) && Manager.Signed(c, s).status == c.status
    ensures Dispatchable(c) ==> Dispatchable(Manager.Signed(c, s))
  {
  }

  lemma SweepKeepsSound(p: Parties, s: System, now: Time)
    requires Sound(s, now)
    ensures Sound(Step(p, s, Move(Sweep, now)), now)
  {
    hide Guard.Lookup, Spent;
    var s' := Step(p, s, Move(Sweep, now));
    forall k | Guard.Lookup(s.guard.tables, k).Some?
      ensures Backed(s'.ledger, k, Guard.Lookup(s.guard.tables, k).value, now)
    {
      var e := Guard.Lookup(s.guard.tables, k).value;
      var i :| i in s.ledger && Backs(s.ledger[i], k, e, now);
      assert Backs(s'.ledger[i], k, e, now);
    }
  }

  lemma KeyIsCleared(c: Command, k: Guard.Key)
    requires Guard.KeyOf(c) == Some(k)
    ensures Guard.Clears(c.target, c.action, k)
  {
  }

  lemma RollbackKeepsSound(p: Parties, s: System, id: Uuid, now: Time)
    requires Sound(s, now)
    ensures Sound(Step(p, s, Move(Rollback(id), now)), now)
  {
    hide Guard.Lookup, Guard.Clears, Guard.KeyOf, Guard.RolledBackTables, Spent;
    var s' := Step(p, s, Move(Rollback(id), now));
    if Manager.RollbackAnswer(s.ledger, id).RolledBackTo? {
      var c := s.ledger[id];
      forall k | Guard.Lookup(s'.guard.tables, k).Some?
        ensures Backed(s'.ledger, k, Guard.Lookup(s'.guard.tables, k).value, now)
      {
        Guard.LookupCleared(s.guard.tables, c.target, c.action, k);
        var e := Guard.Lookup(s.guard.tables, k).value;
        var i :| i in s.ledger && Backs(s.ledger[i], k, e, now);
        if i == id {
          KeyIsCleared(c, k);
        }
        assert Backs(s'.ledger[i], k, e, now);
      }
    }
  }

  /** Tables that only lost entries are still backed. */
  lemma LosingKeepsSound(s: System, g: Guard.State, now: Time)
    requires Sound(s, now) && g.nonces == s.guard.nonces
    requires forall k :: Guard.Lookup(g.tables, k) in {Guard.Lookup(s.guard.tables, k), None}
    ensures Sound(s.(guard := g), now)
  {
    hide Guard.Lookup, Spent, Backed;
  }

  lemma MissedLoses(t: Guard.Tables, key: Option<Guard.Key>, now: Time, k: Guard.Key)
    ensures Guard.Lookup(Guard.Missed(t, key, now), k) in {Guard.Lookup(t, k), None}
  {
    if key.Some? {
      Guard.LookupChecked(t, key.value, now, k);
    }
  }

  lemma AskLoses(t: Guard.Tables, r: Guard.Request, now: Time, k: Guard.Key)
    ensures Guard.Lookup(Guard.RequestTables(t, r, now), k) in {Guard.Lookup(t, k), None}
  {
    hide Guard.Missed, Guard.Hit, Guard.Lookup;
    var t1 := Guard.Missed(t, r.IpKey(), now);
    MissedLoses(t, r.IpKey(), now, k);
    MissedLoses(t1, r.SessionKey(), now, k);
    MissedLoses(Guard.Missed(t1, r.SessionKey(), now), r.CapabilityKey(), now, k);
  }

  /** A spent pair is never accepted again. */
  lemma SpentIsRejected(p: Parties, s: System, c: Command, now: Time)
    requires Spent(s.guard.nonces, (c.nonce, c.issuedAt), now)
    ensures !Guard.ApplyOutcome(p.trust, s.guard, c, now).Done?
  {
    hide Guard.Authentic;
  }

  lemma SpentStays(nonces: Nonces, x: Showing, pair: (string, Time))
    requires Spent(nonces, pair, x.now)
    ensures Spent(Recorded(nonces, GUARD_LIMITS, x), pair, x.now)
  {
  }

  lemma AcceptedIsSpent(nonces: Nonces, x: Showing)
    requires Verdict(nonces, GUARD_LIMITS, x) == None
    ensures Spent(Recorded(nonces, GUARD_LIMITS, x), (x.nonce, x.issued), x.now)
  {
  }

  /** Every command the guard accepts agrees with a dispatched command in all that the signed text shows: id, action,
      target, capability, life time, nonce, incident, times and recipe. */
  lemma AcceptedIsPrinted(p: Parties, s: System, c: Command, now: Time) returns (id: Uuid)
    requires LedgerSound(s.ledger, now) && Faithful(p.trust.printer) && Unforgeable(p, s, c)
    requires Guard.ApplyOutcome(p.trust, s.guard, c, now).Done?
    ensures id in s.ledger && SamePrinted(s.ledger[id], c)
  {
    hide Faithful, FieldsOnOneLine, CanonicalText;
    id :| id in s.ledger && Text(s.ledger[id], p.trust.printer) == Text(c, p.trust.printer);
    TextFixesPrinted(s.ledger[id], SomeListing(s.ledger[id].params.Keys), c, SomeListing(c.params.Keys),
                     p.trust.printer);
  }

  /** And unless it has expired, the dispatched command is active. */
  lemma AcceptedWasDispatched(p: Parties, s: System, c: Command, now: Time) returns (id: Uuid)
    requires Sound(s, now) && Faithful(p.trust.printer) && Admissible(p, s, Move(Deliver(c), now))
    requires Guard.ApplyOutcome(p.trust, s.guard, c, now).Done?
    ensures id in s.ledger && SamePrinted(s.ledger[id], c)
    ensures !IsExpired(c, now) ==> s.ledger[id].status == Active
  {
    id := AcceptedIsPrinted(p, s, c, now);
    hide Spent, Backed, Faithful, FieldsOnOneLine, Unforgeable;
    if s.ledger[id].status == RolledBack && !IsExpired(c, now) {
      SpentIsRejected(p, s, c, now);
    }
  }

  /** However the text is read, the command is filed where the dispatched one is filed, or nowhere. */
  lemma ReadingKeepsKey(l: Command, c: Command)
    requires Dispatchable(l) && SamePrinted(l, c)
    ensures Guard.KeyOf(c) in {Guard.KeyOf(l), None}
  {
    hide FieldsOnOneLine;
  }

  lemma DeliverKeepsSound(p: Parties, s: System, c: Command, now: Time)
    requires Sound(s, now) && Faithful(p.trust.printer) && Admissible(p, s, Move(Deliver(c), now))
    ensures Sound(Step(p, s, Move(Deliver(c), now)), now)
  {
    var s' := Step(p, s, Move(Deliver(c), now));
    var x := Guard.ShowingOf(c, now);
    forall pair | pair in s'.taken ensures Spent(s'.guard.nonces, pair, now) {
      hide Guard.Filed, Guard.KeyOf, Recorded, Verdict, Spent, Backed, Guard.Lookup, Admissible, Faithful,
           Guard.Authentic;
      if pair in s.taken {
        SpentStays(s.guard.nonces, x, pair);
      } else {
        AcceptedIsSpent(s.guard.nonces, x);
      }
    }
    forall k | Guard.Lookup(s'.guard.tables, k).Some?
      ensures Backed(s'.ledger, k, Guard.Lookup(s'.guard.tables, k).value, now)
    {
      DeliverKeepsBacked(p, s, c, now, k);
    }
  }

  lemma DeliverKeepsBacked(p: Parties, s: System, c: Command, now: Time, k: Guard.Key)
    requires Sound(s, now) && Faithful(p.trust.printer) && Admissible(p, s, Move(Deliver(c), now))
    requires Guard.Lookup(Guard.Applied(p.trust, s.guard, c, now).tables, k).Some?
    ensures Backed(s.ledger, k, Guard.Lookup(Guard.Applied(p.trust, s.guard, c, now).tables, k).value, now)
  {
    hide Guard.Filed, Recorded, Verdict, Spent, Guard.Lookup, Admissible, Faithful, Guard.Authentic, Guard.CleanIp,
         Guard.CleanSession;
    if Guard.ApplyOutcome(p.trust, s.guard, c, now) == Guard.Done(true) && Guard.KeyOf(c).Some? {
      Guard.LookupFiled(s.guard.tables, Guard.KeyOf(c).value, c.expiresAt, k);
      var id := AcceptedWasDispatched(p, s, c, now);
      ReadingKeepsKey(s.ledger[id], c);
      if k == Guard.KeyOf(c).value {
        assert Backs(s.ledger[id], k, c.expiresAt, now);
      }
    }
  }

  lemma StepKeepsSound(p: Parties, s: System, e: Move)
    requires Sound(s, e.now) && Faithful(p.trust.printer) && Admissible(p, s, e)
    ensures Sound(Step(p, s, e), e.now)
  {
    hide Sound, Guard.Lookup, Guard.Checked, Guard.RequestTables;
    match e.what {
      case Dispatch(o, id, nonce) => DispatchKeepsSound(p, s, o, id, nonce, e.now);
      case Rollback(id) => RollbackKeepsSound(p, s, id, e.now);
      case Sweep => SweepKeepsSound(p, s, e.now);
      case Deliver(c) => DeliverKeepsSound(p, s, c, e.now);
      case Check(key) =>
        forall k { Guard.LookupChecked(s.guard.tables, key, e.now, k); }
        LosingKeepsSound(s, Step(p, s, e).guard, e.now);
      case Ask(r) =>
        forall k { AskLoses(s.guard.tables, r, e.now, k); }
        LosingKeepsSound(s, Step(p, s, e).guard, e.now);
    }
  }

  lemma {:induction false} RunIsSound(p: Parties, h: seq<Move>, now: Time)
    requires Fair(p, h) && (h != [] ==> h[|h| - 1].now <= now)
    ensures Sound(Run(p, h), now)
  {
    if h != [] {
      hide Sound, Step, Admissible, Faithful;
      var before, e := h[..|h| - 1], h[|h| - 1];
      forall i | 0 <= i < |before| ensures Admissible(p, Run(p, before[..i]), before[i]) {
        assert before[..i] == h[..i];
      }
      RunIsSound(p, before, e.now);
      assert h[..|before|] == before;
      assert Admissible(p, Run(p, before), e);
      StepKeepsSound(p, Run(p, before), e);
      SoundLater(Run(p, h), e.now, now);
    }
  }

  // ---------- Safety ----------

  /** Whatever the guard enforces, the controller has a command in force that asks for it. */
  lemma {:induction false} GuardNeverExceeds(p: Parties, h: seq<Move>, now: Time, k: Guard.Key) returns (id: Uuid)
    requires Fair(p, h) && (h != [] ==> h[|h| - 1].now <= now)
    requires Guard.Live(Run(p, h).guard.tables, k, now)
    ensures id in Run(p, h).ledger
    ensures Manager.InForce(Run(p, h).ledger[id], now) && Guard.KeyOf(Run(p, h).ledger[id]) == Some(k)
  {
    hide Run, Guard.KeyOf, Fair;
    RunIsSound(p, h, now);
    var s := Run(p, h);
    var expiry := Guard.Lookup(s.guard.tables, k).value;
    id :| id in s.ledger && Backs(s.ledger[id], k, expiry, now);
  }

  predicate OnePrefix(target: string, prefix: string) {
    prefix <= target ==> !(prefix <= target[|prefix|..])
  }

  /** Whenever the guard refuses a request, the controller has a command in force that restricts this request. */
  lemma {:induction false} RefusedIsCommanded(p: Parties, h: seq<Move>, now: Time, r: Guard.Request)
    returns (id: Uuid)
    requires Fair(p, h) && (h != [] ==> h[|h| - 1].now <= now) && !Guard.Allowed(Run(p, h).guard.tables, r, now)
    ensures id in Run(p, h).ledger && Manager.InForce(Run(p, h).ledger[id], now)
    ensures Guard.Restricts(Run(p, h).ledger[id], r)
  {
    hide Run, Fair, Guard.Live, Guard.KeyOf, Guard.Restricts;
    var t := Run(p, h).guard.tables;
    var k := if Guard.Hit(t, r.IpKey(), now) then r.IpKey()
             else if Guard.Hit(t, r.SessionKey(), now) then r.SessionKey()
             else r.CapabilityKey();
    assert Guard.Hit(t, k, now);
    id := GuardNeverExceeds(p, h, now, k.value);
    Guard.KeyRestricts(Run(p, h).ledger[id], r, k.value);
  }

  /** The controller recognises a revoked session by its cleaned name exactly when its target has at most one
      prefix. */
  lemma RevocationIsRecognisedIff(c: Command)
    requires c.action == RevokeSession
    ensures Manager.MatchesSession(c, Guard.CleanSession(c.target)) <==> OnePrefix(c.target, "session:")
  {
    PrefixCount(c.target, "session:");
  }

  /** The controller recognises a block by its cleaned address exactly when its target has at most one prefix. */
  lemma BlockIsRecognisedIff(c: Command)
    requires c.action == BlockNetwork
    ensures Manager.MatchesIp(c, Guard.CleanIp(c.target)) <==> OnePrefix(c.target, "ip:")
  {
    PrefixCount(c.target, "ip:");
  }

  lemma {:induction false} PrefixCount(target: string, prefix: string)
    requires prefix != ""
    ensures target in {TrimStart(target, prefix), prefix + TrimStart(target, prefix)} <==> OnePrefix(target, prefix)
    ensures |TrimStart(target, prefix)| <= |target|
    decreases |target|
  {
    if prefix <= target {
      var rest := target[|prefix|..];
      assert target == prefix + rest;
      PrefixCount(rest, prefix);
      if prefix <= rest {
        PrefixCount(rest[|prefix|..], prefix);
      }
    }
  }

  /** If the guard blocks an address, the controller says that the cleaned address is blocked, provided the
      targets of its network blocks carry at most one "ip:". */
  lemma {:induction false} BlockedIpAgrees(p: Parties, h: seq<Move>, now: Time, ip: string)
    requires Fair(p, h) && (h != [] ==> h[|h| - 1].now <= now)
    requires forall id :: id in Run(p, h).ledger && Run(p, h).ledger[id].action == BlockNetwork ==>
                            OnePrefix(Run(p, h).ledger[id].target, "ip:")
    requires Guard.Live(Run(p, h).guard.tables, Guard.Ip(Guard.CleanIp(ip)), now)
    ensures Manager.Answer(Run(p, h).ledger, Manager.AskIp(Guard.CleanIp(ip)), now)
  {
    hide Run, Fair, OnePrefix, Guard.CleanIp, Guard.Live;
    var id := GuardNeverExceeds(p, h, now, Guard.Ip(Guard.CleanIp(ip)));
    var c := Run(p, h).ledger[id];
    BlockIsRecognisedIff(c);
    assert Manager.Matches(c, Manager.AskIp(Guard.CleanIp(ip)));
  }

  /** If the guard revokes a capability of a target, so does the controller. */
  lemma {:induction false} RevokedCapabilityAgrees(p: Parties, h: seq<Move>, now: Time, target: string,
                                                   capability: string)
    requires Fair(p, h) && (h != [] ==> h[|h| - 1].now <= now)
    requires Guard.Live(Run(p, h).guard.tables, Guard.Capability(target, capability), now)
    ensures Manager.Answer(Run(p, h).ledger, Manager.AskCapability(target, capability), now)
  {
    hide Run, Fair, Guard.Live;
    var id := GuardNeverExceeds(p, h, now, Guard.Capability(target, capability));
    assert Manager.Matches(Run(p, h).ledger[id], Manager.AskCapability(target, capability));
  }

  /** If the guard revokes a session, the controller has a command in force that revokes the session, or one
      that throttles, restricts or isolates a target of the same name: these share the guard's table. */
  lemma {:induction false} RevokedSessionAgrees(p: Parties, h: seq<Move>, now: Time, session: string)
    requires Fair(p, h) && (h != [] ==> h[|h| - 1].now <= now)
    requires Guard.Live(Run(p, h).guard.tables, Guard.Session(Guard.CleanSession(session)), now)
    ensures exists id :: id in Run(p, h).ledger && Manager.InForce(Run(p, h).ledger[id], now)
                         && (var c := Run(p, h).ledger[id];
                             if c.action == RevokeSession then
                               Guard.CleanSession(c.target) == Guard.CleanSession(session)
                             else c.action in {ThrottleActor, RestrictScope, IsolateService}
                                  && c.target == Guard.CleanSession(session))
  {
    hide Run, Fair, Guard.Live, Guard.CleanSession;
    var id := GuardNeverExceeds(p, h, now, Guard.Session(Guard.CleanSession(session)));
  }

  /** If the guard revokes a session, so does the controller, provided its revocations carry at most one "session:"
      and nothing of that name is throttled, restricted or isolated. */
  lemma {:induction false} RevokedSessionAnswers(p: Parties, h: seq<Move>, now: Time, session: string)
    requires Fair(p, h) && (h != [] ==> h[|h| - 1].now <= now)
    requires forall id :: id in Run(p, h).ledger && Run(p, h).ledger[id].action == RevokeSession ==>
                            OnePrefix(Run(p, h).ledger[id].target, "session:")
    requires forall id :: id in Run(p, h).ledger && Run(p, h).ledger[id].target == Guard.CleanSession(session) ==>
                            Run(p, h).ledger[id].action !in {ThrottleActor, RestrictScope, IsolateService}
    requires Guard.Live(Run(p, h).guard.tables, Guard.Session(Guard.CleanSession(session)), now)
    ensures Manager.Answer(Run(p, h).ledger, Manager.AskSession(Guard.CleanSession(session)), now)
  {
    hide Run, Fair, OnePrefix, Guard.CleanSession, Guard.Live;
    var id := GuardNeverExceeds(p, h, now, Guard.Session(Guard.CleanSession(session)));
    var c := Run(p, h).ledger[id];
    if c.action == RevokeSession {
      RevocationIsRecognisedIff(c);
    }
    assert Manager.Matches(c, Manager.AskSession(Guard.CleanSession(session)));
  }

  /** Conversely, once a command in force has reached the guard in time, with a good signature and a new nonce, every
      request that it restricts is refused until the command expires. */
  lemma DeliveryEnforces(p: Parties, s: System, id: Uuid, now: Time, r: Guard.Request, later: Time)
    requires id in s.ledger && Manager.InForce(s.ledger[id], now)
    requires Guard.Authentic(p.trust, s.ledger[id]) == None && s.ledger[id].nonce !in s.guard.nonces
    requires Skew(now, s.ledger[id].issuedAt) <= GUARD_LIMITS.maxSkewSeconds
    requires Guard.Restricts(s.ledger[id], r) && later < s.ledger[id].expiresAt
    ensures var s' := Step(p, s, Move(Deliver(s.ledger[id]), now));
            !Guard.Allowed(s'.guard.tables, r, later)
  {
    hide Guard.Authentic, Guard.Restricts, Guard.Allowed;
    Guard.RestrictionLasts(p.trust, s.guard, s.ledger[id], now, r, later);
  }

  ghost predicate Commanded(m: Manager.Ledger, k: Guard.Key, now: Time) {
    exists id :: id in m && Manager.InForce(m[id], now) && Guard.KeyOf(m[id]) == Some(k)
  }

  /** The guard enforces what no command in force asks for. */
  ghost predicate Exceeds(s: System, now: Time) {
    exists k :: Guard.Live(s.guard.tables, k, now) && !Commanded(s.ledger, k, now)
  }

  lemma SoundNeverExceeds(s: System, now: Time)
    requires Sound(s, now)
    ensures !Exceeds(s, now)
  {
    hide Guard.Lookup, Guard.KeyOf, Spent;
    forall k | Guard.Live(s.guard.tables, k, now) ensures Commanded(s.ledger, k, now) {
      var id :| id in s.ledger && Backs(s.ledger[id], k, Guard.Lookup(s.guard.tables, k).value, now);
    }
  }

  /** Exactly when one delivery makes the guard exceed the controller: the guard accepts and files the command, and
      nothing in force asks for what it is filed under. */
  lemma DeliveryExceedsIff(p: Parties, s: System, c: Command, now: Time)
    requires Sound(s, now)
    ensures Exceeds(Step(p, s, Move(Deliver(c), now)), now)
       <==> && Guard.ApplyOutcome(p.trust, s.guard, c, now) == Guard.Done(true)
            && Guard.KeyOf(c).Some? && !Commanded(s.ledger, Guard.KeyOf(c).value, now)
  {
    SoundNeverExceeds(s, now);
    hide Sound, Guard.Authentic, Verdict, Recorded, Guard.Lookup, Guard.Filed, Guard.KeyOf, Commanded;
    var s' := Step(p, s, Move(Deliver(c), now));
    if Guard.ApplyOutcome(p.trust, s.guard, c, now) == Guard.Done(true) && Guard.KeyOf(c).Some? {
      var key := Guard.KeyOf(c).value;
      forall k ensures Guard.Lookup(s'.guard.tables, k)
                    == if k == key then Some(c.expiresAt) else Guard.Lookup(s.guard.tables, k)
      {
        Guard.LookupFiled(s.guard.tables, key, c.expiresAt, k);
      }
      assert Guard.Live(s'.guard.tables, key, now);
    } else {
      assert s'.guard.tables == s.guard.tables;
    }
  }

  /** After a fair run a delivery that exceeds is the delivery of a rolled-back command. */
  lemma {:induction false} OnlyLateDeliveryExceeds(p: Parties, h: seq<Move>, c: Command, now: Time) returns (id: Uuid)
    requires Fair(p, h) && (h != [] ==> h[|h| - 1].now <= now) && Unforgeable(p, Run(p, h), c)
    requires Exceeds(Step(p, Run(p, h), Move(Deliver(c), now)), now)
    ensures id in Run(p, h).ledger && SamePrinted(Run(p, h).ledger[id], c)
    ensures Run(p, h).ledger[id].status == RolledBack
  {
    hide Run, Guard.KeyOf, Spent, FieldsOnOneLine, Unforgeable;
    RunIsSound(p, h, now);
    var s := Run(p, h);
    DeliveryExceedsIff(p, s, c, now);
    id := AcceptedIsPrinted(p, s, c, now);
    ReadingKeepsKey(s.ledger[id], c);
    hide Step;
    assert !Manager.InForce(s.ledger[id], now);
  }

  /** What the guard makes of a signed command that it sees for the first time, in time. */
  lemma NewsIsEnforced(p: Parties, s: System, c: Command, now: Time, r: Guard.Request)
    requires Guard.Authentic(p.trust, c) == None && c.nonce !in s.guard.nonces && !IsExpired(c, now)
    requires Skew(now, c.issuedAt) <= GUARD_LIMITS.maxSkewSeconds && Guard.Restricts(c, r)
    ensures !Guard.Allowed(Step(p, s, Move(Deliver(c), now)).guard.tables, r, now)
    ensures Step(p, s, Move(Deliver(c), now)).ledger == s.ledger
  {
    hide Guard.Authentic, Guard.Restricts, Guard.Allowed;
    Guard.RestrictionLasts(p.trust, s.guard, c, now, r, now);
  }

  lemma DispatchedAlone(p: Parties, o: Order, id: Uuid, nonce: string, t: Time)
    ensures Run(p, [Move(Dispatch(o, id, nonce), t)])
         == System(map[id := Manager.Signed(NewCommand(o, id, nonce, t), p.signer)], Guard.START, {})
  {
    hide Manager.Signed;
    var h := [Move(Dispatch(o, id, nonce), t)];
    assert h[..0] == [];
    assert Run(p, []) == System(map[], Guard.START, {});
  }

  lemma RolledBackAlone(p: Parties, o: Order, id: Uuid, nonce: string, t: Time, t': Time)
    ensures var c := Manager.Signed(NewCommand(o, id, nonce, t), p.signer);
            Run(p, [Move(Dispatch(o, id, nonce), t), Move(Rollback(id), t')])
            == System(map[id := c.(status := RolledBack)], Guard.START, {})
  {
    var a, b := Move(Dispatch(o, id, nonce), t), Move(Rollback(id), t');
    DispatchedAlone(p, o, id, nonce, t);
    SignedFields(p.signer, NewCommand(o, id, nonce, t));
    hide Manager.Signed;
    assert [a, b][..1] == [a];
    assert Run(p, [a, b]) == Step(p, Run(p, [a]), b);
    var c := Manager.Signed(NewCommand(o, id, nonce, t), p.signer);
    StartHasNothing(c.target, c.action);
  }

  lemma StartHasNothing(target: string, action: Action)
    ensures Guard.RolledBackTables(Guard.START.tables, target, action) == Guard.START.tables
  {
  }

  /** The condition on late deliveries is needed: a run of dispatch, rollback and delivery after which the guard
      refuses every request that the command restricts, while the controller answers no to every query. */
  lemma LateDeliveryExceeds(p: Parties, o: Order, id: Uuid, nonce: string, t: Time, t': Time, now: Time,
                            r: Guard.Request, q: Manager.Query)
    requires var c := Manager.Signed(NewCommand(o, id, nonce, t), p.signer);
             Guard.Authentic(p.trust, c) == None && Guard.Restricts(c, r)
    requires t <= t' <= now < t + o.ttlSeconds * SECOND && Skew(now, t) <= GUARD_LIMITS.maxSkewSeconds
    ensures var c := Manager.Signed(NewCommand(o, id, nonce, t), p.signer);
            var s := Run(p, [Move(Dispatch(o, id, nonce), t), Move(Rollback(id), t'), Move(Deliver(c), now)]);
            !Guard.Allowed(s.guard.tables, r, now) && !Manager.Answer(s.ledger, q, now)
  {
    var c := Manager.Signed(NewCommand(o, id, nonce, t), p.signer);
    SignedFields(p.signer, NewCommand(o, id, nonce, t));
    SignedTimes(p.signer, NewCommand(o, id, nonce, t));
    hide Manager.Signed, Guard.Authentic, Guard.Restricts, Guard.Allowed, Step;
    var a, b, d := Move(Dispatch(o, id, nonce), t), Move(Rollback(id), t'), Move(Deliver(c), now);
    RolledBackAlone(p, o, id, nonce, t, t');
    assert [a, b, d][..2] == [a, b];
    assert Run(p, [a, b, d]) == Step(p, Run(p, [a, b]), d);
    hide Run;
    NewsIsEnforced(p, Run(p, [a, b]), c, now, r);
  }

  lemma SignedTimes(s: Manager.Signer, c: Command)
    ensures Manager.Signed(c, s).issuedAt == c.issuedAt && Manager.Signed(c, s).expiresAt == c.expiresAt
  {
  }

  /** The condition on capabilities is needed: a run of dispatch and delivery in which a capability command that
      names none is presented as one that names "none", and the guard revokes what the controller does not. */
  lemma NamelessCapabilityExceeds(p: Parties, o: Order, id: Uuid, nonce: string, t: Time, now: Time)
    requires o.action == RevokeCapability && o.capability == None
    requires Guard.Authentic(p.trust, Manager.Signed(NewCommand(o, id, nonce, t), p.signer)) == None
    requires t <= now < t + o.ttlSeconds * SECOND && Skew(now, t) <= GUARD_LIMITS.maxSkewSeconds
    ensures var twin := Manager.Signed(NewCommand(o, id, nonce, t), p.signer).(capability := Some("none"));
            var before := Run(p, [Move(Dispatch(o, id, nonce), t)]);
            var s := Run(p, [Move(Dispatch(o, id, nonce), t), Move(Deliver(twin), now)]);
            && Admissible(p, before, Move(Deliver(twin), now))
            && !Guard.Allowed(s.guard.tables, Guard.Request(None, Some(o.target), Some("none")), now)
            && !Manager.Answer(s.ledger, Manager.AskCapability(o.target, "none"), now)
  {
    var c := Manager.Signed(NewCommand(o, id, nonce, t), p.signer);
    var twin := c.(capability := Some("none"));
    SignedFields(p.signer, NewCommand(o, id, nonce, t));
    SignedTimes(p.signer, NewCommand(o, id, nonce, t));
    DispatchedAlone(p, o, id, nonce, t);
    assert Text(twin, p.trust.printer) == Text(c, p.trust.printer);
    assert Guard.Authentic(p.trust, twin) == None;
    hide Text, Manager.Signed, Guard.Authentic, Step;
    var a, d := Move(Dispatch(o, id, nonce), t), Move(Deliver(twin), now);
    assert [a, d][..1] == [a];
    assert Run(p, [a, d]) == Step(p, Run(p, [a]), d);
    hide Run;
    assert id in Run(p, [a]).ledger && Run(p, [a]).ledger[id] == c;
    NewsIsEnforced(p, Run(p, [a]), twin, now, Guard.Request(None, Some(o.target), Some("none")));
  }
}
