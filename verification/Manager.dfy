/** The controller's ledger of containment commands: dispatch, rollback, sweep and the three queries. */
module Manager {
  import opened Basics
  import opened Commands

  datatype ContainmentError = NotFound(id: Uuid) | AlreadyRolledBack(id: Uuid) | AlreadyExpired(id: Uuid)

  datatype RollbackResult = RolledBackTo(cmd: Command) | Refused(error: ContainmentError)

  /** The controller's key pair and its printing of ids and times. */
  datatype Signer = Signer(key: string, sign: string -> string, printer: Printer)

  type Ledger = map<Uuid, Command>

  /** The command as `sign` leaves it. */
  ghost function Signed(c: Command, s: Signer): Command {
    c.(signerKey := s.key, signature := s.sign(Text(c.(signerKey := s.key), s.printer)))
  }

  ghost function Dispatched(m: Ledger, s: Signer, o: Order, id: Uuid, nonce: string, now: Time): Ledger {
    m[id := Signed(NewCommand(o, id, nonce, now), s)]
  }

  function RollbackAnswer(m: Ledger, id: Uuid): RollbackResult {
    if id !in m then Refused(NotFound(id))
    else if m[id].status == RolledBack then Refused(AlreadyRolledBack(id))
    else if m[id].status == Expired then Refused(AlreadyExpired(id))
    else RolledBackTo(m[id].(status := RolledBack))
  }

  function AfterRollback(m: Ledger, id: Uuid): Ledger {
    if RollbackAnswer(m, id).RolledBackTo? then m[id := m[id].(status := RolledBack)] else m
  }

  predicate Lapsed(c: Command, now: Time) {
    c.status == Active && now >= c.expiresAt
  }

  function AfterSweep(c: Command, now: Time): Command {
    if Lapsed(c, now) then c.(status := Expired) else c
  }

  function Swept(m: Ledger, now: Time): Ledger {
    map id | id in m :: AfterSweep(m[id], now)
  }

  predicate InForce(c: Command, now: Time) {
    c.status == Active && now < c.expiresAt
  }

  predicate MatchesSession(c: Command, session: string) {
    c.action == RevokeSession && (c.target == session || c.target == "session:" + session)
  }

  predicate MatchesIp(c: Command, ip: string) {
    c.action == BlockNetwork && (c.target == ip || c.target == "ip:" + ip)
  }

  predicate MatchesCapability(c: Command, entity: string, capability: string) {
    c.action == RevokeCapability && (c.target == entity || Contains(entity, c.target))
    && c.capability == Some(capability)
  }

  datatype Query = AskSession(session: string) | AskIp(ip: string) | AskCapability(entity: string, capability: string)

  predicate Matches(c: Command, q: Query) {
    match q
    case AskSession(s) => MatchesSession(c, s)
    case AskIp(ip) => MatchesIp(c, ip)
    case AskCapability(e, cap) => MatchesCapability(c, e, cap)
  }

  /** Some command in force matches the query. */
  ghost predicate Answer(m: Ledger, q: Query, now: Time) {
    exists id :: id in m && InForce(m[id], now) && Matches(m[id], q)
  }

  /** The ids of the commands a listing shows, each once. */
  ghost function ShownIds(m: Ledger, activeOnly: bool, now: Time): (ids: set<Uuid>)
    ensures ids <= m.Keys
  {
    set id | id in m && (activeOnly ==> InForce(m[id], now))
  }

  ghost function Images(m: Ledger, ids: set<Uuid>): set<Command>
    requires ids <= m.Keys
  {
    set id | id in ids :: m[id]
  }

  ghost function Shown(m: Ledger, activeOnly: bool, now: Time): set<Command> {
    Images(m, ShownIds(m, activeOnly, now))
  }

  class ContainmentManager {
    const signer: Signer
    var commands: Ledger

    constructor (signer: Signer)
      ensures commands == map[] && this.signer == signer
    {
      this.signer := signer;
      commands := map[];
    }

    method Dispatch(o: Order, id: Uuid, nonce: string, now: Time) returns (cmd: Command)
      modifies this
      ensures cmd == Signed(NewCommand(o, id, nonce, now), signer)
      ensures commands == Dispatched(old(commands), signer, o, id, nonce, now)
    {
      cmd := NewCommand(o, id, nonce, now);
      cmd := cmd.(signerKey := signer.key);
      var text := CanonicalBytes(cmd, signer.printer);
      cmd := cmd.(signature := signer.sign(text));
      commands := commands[cmd.commandId := cmd];
    }

    method Rollback(id: Uuid) returns (result: RollbackResult)
      modifies this
      ensures result == RollbackAnswer(old(commands), id)
      ensures commands == AfterRollback(old(commands), id)
    {
      if id !in commands {
        return Refused(NotFound(id));
      }
      var cmd := commands[id];
      if cmd.status == RolledBack {
        return Refused(AlreadyRolledBack(id));
      }
      if cmd.status == Expired {
        return Refused(AlreadyExpired(id));
      }
      cmd := cmd.(status := RolledBack);
      commands := commands[id := cmd];
      return RolledBackTo(cmd);
    }

    method SweepExpired(now: Time) returns (expired: seq<Uuid>)
      modifies this
      ensures commands == Swept(old(commands), now)
      ensures forall id :: id in expired <==> id in old(commands) && Lapsed(old(commands)[id], now)
      ensures forall i, j :: 0 <= i < j < |expired| ==> expired[i] != expired[j]
    {
      expired := [];
      var todo := commands.Keys;
      while todo != {}
        invariant todo <= commands.Keys == old(commands).Keys
        invariant forall id :: id in todo ==> commands[id] == old(commands)[id]
        invariant forall id :: id in commands && id !in todo ==> commands[id] == AfterSweep(old(commands)[id], now)
        invariant forall id :: id in expired <==> id in old(commands) && id !in todo && Lapsed(old(commands)[id], now)
        invariant forall i, j :: 0 <= i < j < |expired| ==> expired[i] != expired[j]
        decreases todo
      {
        var id :| id in todo;
        if commands[id].status == Active && now >= commands[id].expiresAt {
          commands := commands[id := commands[id].(status := Expired)];
          expired := expired + [id];
        }
        todo := todo - {id};
      }
    }

    method IsRevokedOrBlocked(q: Query, now: Time) returns (yes: bool)
      ensures yes <==> Answer(commands, q, now)
    {
      var todo := commands.Keys;
      while todo != {}
        invariant todo <= commands.Keys
        invariant forall id :: id in commands && id !in todo ==>
                    !(InForce(commands[id], now) && Matches(commands[id], q))
        decreases todo
      {
        var id :| id in todo;
        if InForce(commands[id], now) && Matches(commands[id], q) {
          return true;
        }
        todo := todo - {id};
      }
      return false;
    }

    method GetCommands(activeOnly: bool, now: Time) returns (list: seq<Command>)
      ensures Elements(list) == Shown(commands, activeOnly, now)
      ensures |list| == |ShownIds(commands, activeOnly, now)|
    {
      hide InForce;
      list := [];
      var todo := commands.Keys;
      ghost var shown: set<Uuid> := {};
      assert Elements(list) == Images(commands, shown);
      ghost var ids := ShownIds(commands, activeOnly, now);
      assert forall id :: id in commands ==> (id in ids <==> !activeOnly || InForce(commands[id], now));
      hide Images, Elements, ShownIds;
      while todo != {}
        invariant todo <= commands.Keys && shown == ids - todo
        invariant Elements(list) == Images(commands, shown) && |list| == |shown|
        decreases todo
      {
        var id :| id in todo;
        todo := todo - {id};
        if !activeOnly || InForce(commands[id], now) {
          ImageGrows(commands, shown, id, list);
          list := list + [commands[id]];
          shown := shown + {id};
        }
      }
    }
  }

  lemma ImageGrows(m: Ledger, ids: set<Uuid>, id: Uuid, list: seq<Command>)
    requires ids <= m.Keys && id in m && Elements(list) == Images(m, ids)
    ensures Elements(list + [m[id]]) == Images(m, ids + {id})
  {
    assert Elements(list + [m[id]]) == Elements(list) + {m[id]};
    assert Images(m, ids + {id}) == Images(m, ids) + {m[id]} by {
      assert id in ids + {id};
    }
  }

  // ---------- What the ledger says ----------

  /** A dispatched command is what was asked for, active, and expires when its time to live has passed. */
  lemma DispatchedIs(m: Ledger, s: Signer, o: Order, id: Uuid, nonce: string, now: Time)
    ensures var m' := Dispatched(m, s, o, id, nonce, now);
            && m'.Keys == m.Keys + {id} && (forall x :: x in m && x != id ==> m'[x] == m[x])
            && var c := m'[id];
               && c.commandId == id && c.action == o.action && c.target == o.target && c.capability == o.capability
               && c.params == o.params && c.ttlSeconds == o.ttlSeconds && c.incident == o.incident
               && c.recipe == o.recipe && c.nonce == nonce && c.status == Active
               && c.issuedAt == now && c.expiresAt == now + o.ttlSeconds * 1_000_000_000
               && c.signerKey == s.key && c.signature == s.sign(Text(c, s.printer))
  {
    var c := Signed(NewCommand(o, id, nonce, now), s);
    SameText(c, NewCommand(o, id, nonce, now).(signerKey := s.key), s.printer);
    hide Text;
  }

  lemma SameText(c: Command, d: Command, p: Printer)
    requires SameSigned(c, d)
    ensures Text(c, p) == Text(d, p)
  {
  }

  /** Neither rolled back nor expired, and there is time left. */
  predicate Counts(c: Command, now: Time) {
    c.status !in {RolledBack, Expired} && c.expiresAt > now
  }

  /** A session counts as revoked exactly if a command that counts revokes it, by its name with or without prefix. */
  lemma SessionRevokedIff(m: Ledger, session: string, now: Time)
    ensures Answer(m, AskSession(session), now)
       <==> exists id :: id in m && Counts(m[id], now) && m[id].action == RevokeSession
                         && m[id].target in {session, "session:" + session}
  {
    if id :| id in m && InForce(m[id], now) && Matches(m[id], AskSession(session)) {
      assert Counts(m[id], now);
    }
    if id :| id in m && Counts(m[id], now) && m[id].action == RevokeSession
             && m[id].target in {session, "session:" + session} {
      assert InForce(m[id], now) && Matches(m[id], AskSession(session));
    }
  }

  /** The same for addresses. */
  lemma IpBlockedIff(m: Ledger, ip: string, now: Time)
    ensures Answer(m, AskIp(ip), now)
       <==> exists id :: id in m && Counts(m[id], now) && m[id].action == BlockNetwork
                         && m[id].target in {ip, "ip:" + ip}
  {
    if id :| id in m && InForce(m[id], now) && Matches(m[id], AskIp(ip)) {
      assert Counts(m[id], now);
    }
    if id :| id in m && Counts(m[id], now) && m[id].action == BlockNetwork && m[id].target in {ip, "ip:" + ip} {
      assert InForce(m[id], now) && Matches(m[id], AskIp(ip));
    }
  }

  /** A capability counts as revoked for an entity exactly if a command that counts revokes this capability for a target
      whose name occurs in that of the entity. */
  lemma CapabilityRevokedIff(m: Ledger, entity: string, capability: string, now: Time)
    ensures Answer(m, AskCapability(entity, capability), now)
       <==> exists id :: id in m && Counts(m[id], now) && m[id].action == RevokeCapability
                         && Occurs(m[id].target, entity) && m[id].capability == Some(capability)
  {
    if id :| id in m && InForce(m[id], now) && Matches(m[id], AskCapability(entity, capability)) {
      ContainsIff(entity, m[id].target);
      assert entity == "" + entity + "";
      assert Counts(m[id], now) && Occurs(m[id].target, entity);
    }
    if id :| id in m && Counts(m[id], now) && m[id].action == RevokeCapability
             && Occurs(m[id].target, entity) && m[id].capability == Some(capability) {
      ContainsIff(entity, m[id].target);
      assert InForce(m[id], now) && Matches(m[id], AskCapability(entity, capability));
    }
  }

  /** A listing of active commands shows exactly the commands that count. */
  lemma ShownIff(m: Ledger, now: Time, c: Command)
    ensures c in Shown(m, true, now) <==> exists id :: id in m && m[id] == c && Counts(c, now)
    ensures c in Shown(m, false, now) <==> exists id :: id in m && m[id] == c
  {
    forall id | id in m ensures InForce(m[id], now) <==> Counts(m[id], now) {
    }
  }

  /** A rollback succeeds exactly for a command that has neither been rolled back nor swept, and else says why; a sweep
      expires exactly the others whose time has passed; and neither changes anything but the status. */
  lemma StatusesAre(m: Ledger, id: Uuid, now: Time, x: Uuid)
    requires x in m
    ensures RollbackAnswer(m, id) == Refused(NotFound(id)) <==> id !in m
    ensures RollbackAnswer(m, id) == Refused(AlreadyRolledBack(id)) <==> id in m && m[id].status == RolledBack
    ensures RollbackAnswer(m, id) == Refused(AlreadyExpired(id)) <==> id in m && m[id].status == Expired
    ensures id in m && m[id].status !in {RolledBack, Expired} ==>
              RollbackAnswer(m, id) == RolledBackTo(m[id].(status := RolledBack))
    ensures x in AfterRollback(m, id)
         && AfterRollback(m, id)[x]
            == m[x].(status := if x == id && m[x].status !in {RolledBack, Expired} then RolledBack else m[x].status)
    ensures x in Swept(m, now)
         && Swept(m, now)[x]
            == m[x].(status := if m[x].status !in {RolledBack, Expired} && m[x].expiresAt <= now then Expired
                               else m[x].status)
  {
  }

  // ---------- Runs ----------

  datatype Op = Dispatch(order: Order, id: Uuid, nonce: string, now: Time)
              | Rollback(id: Uuid, now: Time)
              | Sweep(now: Time)

  ghost function Step(s: Signer, m: Ledger, op: Op): Ledger {
    match op
    case Dispatch(o, id, nonce, now) => Dispatched(m, s, o, id, nonce, now)
    case Rollback(id, _) => AfterRollback(m, id)
    case Sweep(now) => Swept(m, now)
  }

  ghost function Run(s: Signer, h: seq<Op>): Ledger {
    if h == [] then map[] else Step(s, Run(s, h[..|h| - 1]), h[|h| - 1])
  }

  ghost predicate Timely(h: seq<Op>, now: Time) {
    && (forall i, j :: 0 <= i <= j < |h| ==> h[i].now <= h[j].now)
    && (h != [] ==> h[|h| - 1].now <= now)
  }

  function WithoutSweeps(h: seq<Op>): seq<Op> {
    if h == [] then []
    else
      var before, op := h[..|h| - 1], h[|h| - 1];
      if op.Sweep? then WithoutSweeps(before) else WithoutSweeps(before) + [op]
  }

  /** Two commands that differ at most in their status, and there only once the expiry has passed. */
  ghost predicate SameForNow(c: Command, d: Command, now: Time) {
    c.(status := Active) == d.(status := Active) && (c.status == d.status || c.expiresAt <= now)
  }

  /** The same commands, with the same statuses except where the expiry has passed. */
  ghost predicate Alike(m: Ledger, n: Ledger, now: Time) {
    && m.Keys == n.Keys
    && forall id :: id in m ==> SameForNow(m[id], n[id], now)
  }

  lemma AlikeStep(s: Signer, m: Ledger, n: Ledger, op: Op, now: Time)
    requires Alike(m, n, op.now) && op.now <= now && !op.Sweep?
    ensures Alike(Step(s, m, op), Step(s, n, op), now)
  {
    hide Signed;
    forall id | id in Step(s, m, op) ensures SameForNow(Step(s, m, op)[id], Step(s, n, op)[id], now) {
      assert id in m ==> SameForNow(m[id], n[id], op.now);
    }
  }

  lemma AlikeSweep(m: Ledger, n: Ledger, at: Time, now: Time)
    requires Alike(m, n, at) && at <= now
    ensures Alike(Swept(m, at), n, now)
  {
    forall id | id in m ensures SameForNow(Swept(m, at)[id], n[id], now) {
      assert SameForNow(m[id], n[id], at);
    }
  }

  lemma {:induction false} SweepsLeaveAlike(s: Signer, h: seq<Op>, now: Time)
    requires Timely(h, now)
    ensures Alike(Run(s, h), Run(s, WithoutSweeps(h)), now)
  {
    if h != [] {
      var before, op := h[..|h| - 1], h[|h| - 1];
      assert Timely(before, op.now);
      SweepsLeaveAlike(s, before, op.now);
      var m, n := Run(s, before), Run(s, WithoutSweeps(before));
      hide Alike, Dispatched, AfterRollback, Swept;
      if op.Sweep? {
        AlikeSweep(m, n, op.now, now);
      } else {
        var rest := WithoutSweeps(before) + [op];
        assert rest[..|rest| - 1] == WithoutSweeps(before);
        AlikeStep(s, m, n, op, now);
      }
    }
  }

  lemma AlikeAnswers(m: Ledger, n: Ledger, q: Query, now: Time)
    requires Alike(m, n, now)
    ensures Answer(m, q, now) == Answer(n, q, now)
    ensures Shown(m, true, now) == Shown(n, true, now)
  {
    hide Matches;
    forall id | id in m && InForce(m[id], now) ensures n[id] == m[id] {
    }
    forall id | id in n && InForce(n[id], now) ensures n[id] == m[id] {
    }
  }

  /** Sweeping cannot be observed: two runs that differ only in their sweeps answer every query and list the
      same active commands. */
  lemma {:induction false} SweepIsUnobservable(s: Signer, h: seq<Op>, h': seq<Op>, q: Query, now: Time)
    requires Timely(h, now) && Timely(h', now) && WithoutSweeps(h) == WithoutSweeps(h')
    ensures Answer(Run(s, h), q, now) == Answer(Run(s, h'), q, now)
    ensures Shown(Run(s, h), true, now) == Shown(Run(s, h'), true, now)
  {
    SweepsLeaveAlike(s, h, now);
    SweepsLeaveAlike(s, h', now);
    AlikeAnswers(Run(s, h), Run(s, WithoutSweeps(h)), q, now);
    AlikeAnswers(Run(s, h'), Run(s, WithoutSweeps(h)), q, now);
  }

  /** Every dispatch takes an id that is not in the ledger. */
  ghost predicate FreshIds(s: Signer, h: seq<Op>) {
    forall i :: 0 <= i < |h| && h[i].Dispatch? ==> h[i].id !in Run(s, h[..i])
  }

  lemma TerminalStep(s: Signer, m: Ledger, op: Op, id: Uuid)
    requires id in m && m[id].status != Active && (op.Dispatch? ==> op.id !in m)
    ensures id in Step(s, m, op) && Step(s, m, op)[id] == m[id]
  {
    hide Signed;
  }

  /** Expired and rolled-back commands stay as they are. */
  lemma {:induction false} TerminalStays(s: Signer, h: seq<Op>, i: nat, id: Uuid)
    requires i <= |h| && FreshIds(s, h)
    requires id in Run(s, h[..i]) && Run(s, h[..i])[id].status != Active
    ensures id in Run(s, h) && Run(s, h)[id] == Run(s, h[..i])[id]
    decreases |h|
  {
    hide Step;
    if i < |h| {
      var before := h[..|h| - 1];
      assert h[..i] == before[..i];
      forall j | 0 <= j < |before| && before[j].Dispatch? ensures before[j].id !in Run(s, before[..j]) {
        assert before[..j] == h[..j];
      }
      TerminalStays(s, before, i, id);
      TerminalStep(s, Run(s, before), h[|h| - 1], id);
    } else {
      assert h[..i] == h;
    }
  }
}
