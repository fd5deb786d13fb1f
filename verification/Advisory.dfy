/** The gate between advisory recommendations and containment: a recommendation is enacted only with enough
    confidence and with the permission of the policy engine, and every outcome is kept in a history. */
module Advisory {
  import opened Basics
  import opened Commands
  import Manager
  import Policy

  datatype Recommendation = Recommendation(recommendationId: Uuid, incidentId: Uuid, target: string, appId: string,
                                           confidence: real, action: Action, capability: Option<string>,
                                           params: map<string, string>, suggestedTtlSeconds: nat)

  datatype Validation = Validation(recommendationId: Uuid, incidentId: Uuid, isAuthorized: bool,
                                   decision: Policy.Outcome, policyId: string, commandId: Option<Uuid>)

  /** The capability a recommendation is checked for, when it names none. */
  function ImpliedCapability(a: Action): string {
    match a
    case RevokeSession => "session.revoke"
    case ThrottleActor => "network.throttle"
    case BlockNetwork => "network.connect"
    case RevokeCapability => "capability.revoke"
    case RestrictScope => "scope.restrict"
    case IsolateService => "service.isolate"
  }

  function QueryFor(rec: Recommendation): Policy.Query {
    Policy.Query(rec.appId,
                 if rec.capability.Some? then rec.capability.value else ImpliedCapability(rec.action),
                 if "resource" in rec.params then rec.params["resource"] else rec.target)
  }

  function OrderFor(rec: Recommendation, recipe: string): Order {
    Order(rec.action, rec.target, rec.capability, rec.params,
          if rec.suggestedTtlSeconds > 0 then rec.suggestedTtlSeconds else 300, Some(rec.incidentId), recipe)
  }

  function Clamp(x: real): real {
    if x < 0.1 then 0.1 else if x > 1.0 then 1.0 else x
  }

  /** Confident enough, and permitted by policy. */
  ghost predicate Passes(rec: Recommendation, minimum: real, bundles: Policy.Bundles, order: seq<string>)
    requires Policy.Enumerates(order, bundles)
  {
    Policy.OrderHolds(order, bundles);
    rec.confidence >= minimum
    && Policy.Permitted(Policy.Applicable(order, bundles, rec.appId), QueryFor(rec))
  }

  /** The named policy is that of the confidence check, or the one that explains the policy engine's decision. */
  ghost predicate NamesPolicy(v: Validation, rec: Recommendation, minimum: real, bundles: Policy.Bundles,
                              order: seq<string>)
    requires Policy.Enumerates(order, bundles)
  {
    Policy.OrderHolds(order, bundles);
    if rec.confidence < minimum then v.policyId == "safety-confidence-gate"
    else exists d: Policy.Decision :: d.policyId == v.policyId && d.outcome == v.decision
                     && Policy.Explains(d, Policy.Applicable(order, bundles, rec.appId), QueryFor(rec))
  }

  /** What a recommendation needs permission for: the capability it names, or that of its action, on the resource
      among its parameters, or on its target. */
  predicate Concerns(q: Policy.Query, rec: Recommendation) {
    && q.appId == rec.appId
    && (rec.capability.Some? ==> q.capability == rec.capability.value)
    && (rec.capability.None? ==>
          (rec.action, q.capability) in {(RevokeSession, "session.revoke"), (ThrottleActor, "network.throttle"),
                                         (BlockNetwork, "network.connect"), (RevokeCapability, "capability.revoke"),
                                         (RestrictScope, "scope.restrict"), (IsolateService, "service.isolate")})
    && ("resource" in rec.params ==> q.resource == rec.params["resource"])
    && ("resource" !in rec.params ==> q.resource == rec.target)
  }

  lemma QueryConcerns(rec: Recommendation)
    ensures Concerns(QueryFor(rec), rec) && forall q :: Concerns(q, rec) ==> q == QueryFor(rec)
  {
  }

  /** A recommendation passes exactly when it is confident enough and policy permits what it concerns. */
  lemma PassesIff(rec: Recommendation, minimum: real, bundles: Policy.Bundles, order: seq<string>, q: Policy.Query)
    requires Policy.Enumerates(order, bundles) && Concerns(q, rec)
    ensures Passes(rec, minimum, bundles, order)
       <==> && rec.confidence >= minimum
            && !Policy.Forbidden(bundles, q)
            && (Policy.Conceded(bundles, q) || Policy.OpenByDefault(order, bundles, q))
  {
    hide Policy.Permitted, Policy.Applicable, Policy.Forbidden, Policy.Conceded, Policy.OpenByDefault;
    QueryConcerns(rec);
    Policy.PermittedIff(order, bundles, q);
  }

  /** The named policy is "safety-confidence-gate" for lack of confidence, or else that of a decision on what the
      recommendation concerns, with the outcome of the validation. */
  lemma NamedPolicyAccounts(v: Validation, rec: Recommendation, minimum: real, bundles: Policy.Bundles,
                            order: seq<string>, q: Policy.Query)
    requires Policy.Enumerates(order, bundles) && Concerns(q, rec)
    requires NamesPolicy(v, rec, minimum, bundles, order)
    ensures rec.confidence < minimum ==> v.policyId == "safety-confidence-gate"
    ensures rec.confidence >= minimum ==>
              exists r :: Policy.Accounts(Policy.Decision(v.decision, v.policyId, r), order, bundles, q)
  {
    hide Policy.Explains, Policy.Accounts, Policy.Applicable, Policy.Enumerates;
    QueryConcerns(rec);
    Policy.OrderHolds(order, bundles);
    if rec.confidence >= minimum {
      var d: Policy.Decision :| d.policyId == v.policyId && d.outcome == v.decision
          && Policy.Explains(d, Policy.Applicable(order, bundles, rec.appId), QueryFor(rec));
      Policy.DecisionAccounts(d, order, bundles, q);
      assert d == Policy.Decision(v.decision, v.policyId, d.matched);
    }
  }

  /** The command carries out the recommendation: its action on its target, with its capability and parameters, for the
      suggested time or five minutes, as evidence for its incident. */
  ghost predicate CarriesOut(c: Command, rec: Recommendation, id: Uuid, nonce: string, recipe: string, now: Time) {
    && c.commandId == id && c.action == rec.action && c.target == rec.target && c.capability == rec.capability
    && c.params == rec.params && c.incident == Some(rec.incidentId) && c.recipe == recipe && c.nonce == nonce
    && c.ttlSeconds == (if rec.suggestedTtlSeconds == 0 then 300 else rec.suggestedTtlSeconds)
    && c.issuedAt == now && c.expiresAt == now + c.ttlSeconds * 1_000_000_000
  }

  lemma OrderCarriesOut(rec: Recommendation, signer: Manager.Signer, id: Uuid, nonce: string, recipe: string, now: Time)
    ensures var c := Manager.Signed(NewCommand(OrderFor(rec, recipe), id, nonce, now), signer);
            CarriesOut(c, rec, id, nonce, recipe, now) && c.status == Active
  {
    hide Text;
  }

  class AdvisoryManager {
    const policyEngine: Policy.CapabilityPolicyEngine
    const containment: Manager.ContainmentManager
    const minimumConfidence: real
    var history: seq<(Recommendation, Validation)>

    constructor (policyEngine: Policy.CapabilityPolicyEngine, containment: Manager.ContainmentManager, minimum: real)
      ensures this.policyEngine == policyEngine && this.containment == containment
      ensures 0.1 <= minimumConfidence <= 1.0 && (0.1 <= minimum <= 1.0 ==> minimumConfidence == minimum)
      ensures (minimum < 0.1 ==> minimumConfidence == 0.1) && (minimum > 1.0 ==> minimumConfidence == 1.0)
      ensures history == []
    {
      this.policyEngine := policyEngine;
      this.containment := containment;
      minimumConfidence := Clamp(minimum);
      history := [];
    }

    /** The gate: `order` is the order in which the policy engine's hash map hands out its bundles. */
    method Validate(rec: Recommendation, order: seq<string>, freshId: Uuid, nonce: string, recipe: string, now: Time)
      returns (v: Validation)
      requires Policy.Enumerates(order, policyEngine.bundles)
      modifies containment
      ensures v.recommendationId == rec.recommendationId && v.incidentId == rec.incidentId
      ensures v.isAuthorized <==> Passes(rec, minimumConfidence, policyEngine.bundles, order)
      ensures v.decision == if v.isAuthorized then Policy.Allow else Policy.Deny
      ensures NamesPolicy(v, rec, minimumConfidence, policyEngine.bundles, order)
      ensures v.commandId == if v.isAuthorized then Some(freshId) else None
      ensures containment.commands ==
              if v.isAuthorized
              then Manager.Dispatched(old(containment.commands), containment.signer, OrderFor(rec, recipe), freshId,
                                      nonce, now)
              else old(containment.commands)
      ensures v.isAuthorized ==>
                && freshId in containment.commands && containment.commands[freshId].status == Active
                && CarriesOut(containment.commands[freshId], rec, freshId, nonce, recipe, now)
    {
      OrderCarriesOut(rec, containment.signer, freshId, nonce, recipe, now);
      if rec.confidence < minimumConfidence {
        return Validation(rec.recommendationId, rec.incidentId, false, Policy.Deny, "safety-confidence-gate", None);
      }
      var decision := policyEngine.Evaluate(QueryFor(rec), order);
      hide Policy.Explains, Policy.Applicable, Policy.Permitted, Manager.Signed, OrderFor, CarriesOut;
      if decision.outcome == Policy.Deny {
        return Validation(rec.recommendationId, rec.incidentId, false, Policy.Deny, decision.policyId, None);
      }
      var cmd := containment.Dispatch(OrderFor(rec, recipe), freshId, nonce, now);
      return Validation(rec.recommendationId, rec.incidentId, true, Policy.Allow, decision.policyId,
                        Some(cmd.commandId));
    }

    method ValidateAndEnact(rec: Recommendation, order: seq<string>, freshId: Uuid, nonce: string, recipe: string,
                            now: Time)
      returns (v: Validation)
      requires Policy.Enumerates(order, policyEngine.bundles)
      modifies this, containment
      ensures history == old(history) + [(rec, v)]
      ensures NamesPolicy(v, rec, minimumConfidence, policyEngine.bundles, order)
      ensures v.isAuthorized <==> Passes(rec, minimumConfidence, policyEngine.bundles, order)
      ensures v.commandId == if v.isAuthorized then Some(freshId) else None
      ensures containment.commands ==
              if v.isAuthorized
              then Manager.Dispatched(old(containment.commands), containment.signer, OrderFor(rec, recipe), freshId,
                                      nonce, now)
              else old(containment.commands)
      ensures v.isAuthorized ==>
                && freshId in containment.commands && containment.commands[freshId].status == Active
                && CarriesOut(containment.commands[freshId], rec, freshId, nonce, recipe, now)
    {
      v := Validate(rec, order, freshId, nonce, recipe, now);
      history := history + [(rec, v)];
    }
  }

  // ---------- Runs in which only the gate dispatches ----------

  datatype System = System(bundles: Policy.Bundles, ledger: Manager.Ledger, history: seq<(Recommendation, Validation)>)

  /** One call; operators may change policies, roll back and sweep at will. */
  datatype Op = Enact(rec: Recommendation, order: seq<string>, freshId: Uuid, nonce: string, recipe: string, now: Time)
              | SetPolicies(bundles: Policy.Bundles)
              | Rollback(id: Uuid)
              | Sweep(now: Time)

  /** The effect of `ValidateAndEnact`, with the validation it returns. */
  ghost predicate Enacts(s: System, s': System, op: Op, minimum: real, signer: Manager.Signer)
    requires op.Enact?
  {
    && Policy.Enumerates(op.order, s.bundles) && op.freshId !in s.ledger
    && s'.bundles == s.bundles && |s'.history| == |s.history| + 1 && s'.history[..|s.history|] == s.history
    && s'.history[|s.history|].0 == op.rec
    && var v := s'.history[|s.history|].1;
       && (v.isAuthorized <==> Passes(op.rec, minimum, s.bundles, op.order))
       && v.commandId == (if v.isAuthorized then Some(op.freshId) else None)
       && s'.ledger == if v.isAuthorized
                       then Manager.Dispatched(s.ledger, signer, OrderFor(op.rec, op.recipe), op.freshId, op.nonce,
                                               op.now)
                       else s.ledger
  }

  ghost predicate Next(s: System, s': System, op: Op, minimum: real, signer: Manager.Signer) {
    match op
    case Enact(_, _, _, _, _, _) => Enacts(s, s', op, minimum, signer)
    case SetPolicies(bundles) => s' == s.(bundles := bundles)
    case Rollback(id) => s' == s.(ledger := Manager.AfterRollback(s.ledger, id))
    case Sweep(now) => s' == s.(ledger := Manager.Swept(s.ledger, now))
  }

  ghost predicate IsRun(states: seq<System>, ops: seq<Op>, minimum: real, signer: Manager.Signer) {
    && |states| == |ops| + 1 && states[0].ledger == map[] && states[0].history == []
    && forall i :: 0 <= i < |ops| ==> Next(states[i], states[i + 1], ops[i], minimum, signer)
  }

  /** The command ids of authorised entries, in order. */
  function AuthorisedIds(history: seq<(Recommendation, Validation)>): seq<Uuid> {
    if history == [] then []
    else
      var v := history[|history| - 1].1;
      AuthorisedIds(history[..|history| - 1]) + (if v.isAuthorized && v.commandId.Some? then [v.commandId.value]
                                                 else [])
  }

  predicate Distinct(ids: seq<Uuid>) {
    forall i, j :: 0 <= i < j < |ids| ==> ids[i] != ids[j]
  }

  /** The ledger holds exactly the commands of authorised entries, and each entry has a command of its own. */
  ghost predicate Matched(s: System) {
    s.ledger.Keys == Elements(AuthorisedIds(s.history)) && Distinct(AuthorisedIds(s.history))
  }

  lemma EnactKeepsMatched(s: System, s': System, op: Op, minimum: real, signer: Manager.Signer)
    requires Matched(s) && op.Enact? && Enacts(s, s', op, minimum, signer)
    ensures Matched(s')
  {
    hide Passes, Manager.Signed, Policy.Enumerates;
    var ids, v := AuthorisedIds(s.history), s'.history[|s.history|].1;
    assert AuthorisedIds(s'.history) == if v.isAuthorized then ids + [op.freshId] else ids;
    hide AuthorisedIds;
    assert Elements(ids + [op.freshId]) == Elements(ids) + {op.freshId};
    assert forall i :: 0 <= i < |ids| ==> ids[i] in Elements(ids);
  }

  lemma StepKeepsMatched(s: System, s': System, op: Op, minimum: real, signer: Manager.Signer)
    requires Matched(s) && Next(s, s', op, minimum, signer)
    ensures Matched(s')
  {
    if op.Enact? {
      EnactKeepsMatched(s, s', op, minimum, signer);
    }
    hide AuthorisedIds, Distinct, Enacts;
  }

  lemma {:induction false} LedgerMatchesHistory(states: seq<System>, ops: seq<Op>, minimum: real,
                                                signer: Manager.Signer)
    requires IsRun(states, ops, minimum, signer)
    ensures Matched(states[|ops|])
    decreases |ops|
  {
    if ops != [] {
      hide Matched, Next;
      var n := |ops| - 1;
      LedgerMatchesHistory(states[..|ops|], ops[..n], minimum, signer);
      StepKeepsMatched(states[n], states[n + 1], ops[n], minimum, signer);
    }
  }

  /** The command is, but for its status, the one signed to carry out this recommendation, which passed the gate. */
  ghost predicate IssuedBy(c: Command, s: System, op: Op, minimum: real, signer: Manager.Signer) {
    && op.Enact? && Policy.Enumerates(op.order, s.bundles) && Passes(op.rec, minimum, s.bundles, op.order)
    && CarriesOut(c, op.rec, op.freshId, op.nonce, op.recipe, op.now)
    && c.signerKey == signer.key && c.signature == signer.sign(Text(c, signer.printer))
  }

  lemma StepIssues(s: System, s': System, op: Op, minimum: real, signer: Manager.Signer, id: Uuid)
    requires Next(s, s', op, minimum, signer) && id in s'.ledger
    ensures IssuedBy(s'.ledger[id], s, op, minimum, signer)
            || (id in s.ledger && s'.ledger[id].(status := Active) == s.ledger[id].(status := Active))
  {
    if op.Enact? {
      OrderCarriesOut(op.rec, signer, op.freshId, op.nonce, op.recipe, op.now);
      SignedOverText(NewCommand(OrderFor(op.rec, op.recipe), op.freshId, op.nonce, op.now), signer);
    }
    hide Passes, Policy.Enumerates, CarriesOut, Manager.Signed, Text;
  }

  lemma SignedOverText(c: Command, signer: Manager.Signer)
    ensures var d := Manager.Signed(c, signer);
            d.signerKey == signer.key && d.signature == signer.sign(Text(d, signer.printer))
  {
  }

  lemma StatusIsNotIssued(c: Command, d: Command, s: System, op: Op, minimum: real, signer: Manager.Signer)
    requires c.(status := Active) == d.(status := Active) && IssuedBy(c, s, op, minimum, signer)
    ensures IssuedBy(d, s, op, minimum, signer)
  {
    hide Passes, Policy.Enumerates;
    assert Text(c, signer.printer) == Text(d, signer.printer);
  }

  /** Every command in the ledger, with every field that is signed, goes back to a recommendation that passed the
      gate under the policies of that moment; rollback and sweep only change its status. */
  lemma {:induction false} CommandsPassedTheGate(states: seq<System>, ops: seq<Op>, minimum: real,
                                                 signer: Manager.Signer, id: Uuid)
    requires IsRun(states, ops, minimum, signer) && id in states[|ops|].ledger
    ensures exists i :: 0 <= i < |ops| && IssuedBy(states[|ops|].ledger[id], states[i], ops[i], minimum, signer)
    decreases |ops|
  {
    var n := |ops| - 1;
    assert n >= 0 && Next(states[n], states[n + 1], ops[n], minimum, signer);
    StepIssues(states[n], states[n + 1], ops[n], minimum, signer, id);
    hide Passes, Policy.Enumerates, Manager.Signed, Next, IssuedBy;
    if !IssuedBy(states[|ops|].ledger[id], states[n], ops[n], minimum, signer) {
      CommandsPassedTheGate(states[..|ops|], ops[..n], minimum, signer, id);
      var i :| 0 <= i < n && IssuedBy(states[n].ledger[id], states[..|ops|][i], ops[..n][i], minimum, signer);
      StatusIsNotIssued(states[n].ledger[id], states[|ops|].ledger[id], states[i], ops[i], minimum, signer);
      assert ops[..n][i] == ops[i] && states[..|ops|][i] == states[i];
    }
  }
}
