/** The policy engine: scoped allow and deny rules in bundles that a hash map holds in no particular order. */
module Policy {
  import opened Basics

  datatype Rule = Rule(capability: string, scope: string)

  /** `match_scope_pattern`. */
  predicate MatchScope(pattern: string, target: string) {
    if pattern == "*" || pattern == target then true
    else if EndsWith(pattern, "/**") then pattern[..|pattern| - 3] <= target
    else if EndsWith(pattern, "/*") && pattern[..|pattern| - 2] <= target then
      '/' !in TrimStart(target[|pattern| - 2..], "/")
    else if "*." <= pattern then EndsWith(target, pattern[1..])
    else false
  }

  predicate Matches(r: Rule, capability: string, resource: string) {
    (r.capability == "*" || r.capability == capability) && MatchScope(r.scope, resource)
  }

  datatype Bundle = Bundle(policyId: string, targetApp: string, allow: seq<Rule>, deny: seq<Rule>, defaultAllow: bool)

  predicate AppliesTo(b: Bundle, appId: string) {
    b.targetApp == "*" || b.targetApp == appId
  }

  datatype Outcome = Allow | Deny

  datatype Decision = Decision(outcome: Outcome, policyId: string, matched: Option<Rule>)

  type Bundles = map<string, Bundle>

  datatype Query = Query(appId: string, capability: string, resource: string)

  /** One order in which the hash map hands out its bundles. */
  ghost predicate Enumerates(order: seq<string>, bundles: Bundles) {
    Elements(order) == bundles.Keys && forall i, j :: 0 <= i < j < |order| ==> order[i] != order[j]
  }

  function Applicable(order: seq<string>, bundles: Bundles, appId: string): seq<Bundle>
    requires forall id :: id in order ==> id in bundles
  {
    if order == [] then []
    else
      var b := bundles[order[|order| - 1]];
      Applicable(order[..|order| - 1], bundles, appId) + (if AppliesTo(b, appId) then [b] else [])
  }

  predicate AnyMatches(rules: seq<Rule>, q: Query) {
    exists r :: r in rules && Matches(r, q.capability, q.resource)
  }

  predicate AnyDenies(bundles: seq<Bundle>, q: Query) {
    exists b :: b in bundles && AnyMatches(b.deny, q)
  }

  predicate AnyAllows(bundles: seq<Bundle>, q: Query) {
    exists b :: b in bundles && AnyMatches(b.allow, q)
  }

  /** The documented rule: deny beats allow, allow beats the default, and without bundles all is denied. */
  predicate Permitted(applicable: seq<Bundle>, q: Query) {
    applicable != [] && !AnyDenies(applicable, q) && (AnyAllows(applicable, q) || applicable[0].defaultAllow)
  }

  /** The first of the rules that matches. */
  ghost predicate FirstMatch(rules: seq<Rule>, q: Query, r: Rule) {
    exists k :: 0 <= k < |rules| && rules[k] == r && Matches(r, q.capability, q.resource)
                && forall j :: 0 <= j < k ==> !Matches(rules[j], q.capability, q.resource)
  }

  function RulesFor(b: Bundle, outcome: Outcome): seq<Rule> {
    if outcome == Deny then b.deny else b.allow
  }

  /** The named bundle and the matched rule account for the outcome: with a match, they are the first that match
      for it; without one, no rule matches at all and the bundle is the first, or none. */
  ghost predicate Explains(d: Decision, applicable: seq<Bundle>, q: Query) {
    match d.matched
    case Some(r) =>
      exists i :: 0 <= i < |applicable| && applicable[i].policyId == d.policyId
                  && FirstMatch(RulesFor(applicable[i], d.outcome), q, r)
                  && forall j :: 0 <= j < i ==> !AnyMatches(RulesFor(applicable[j], d.outcome), q)
    case None =>
      && !AnyDenies(applicable, q) && !AnyAllows(applicable, q)
      && d.policyId == if applicable == [] then "none" else applicable[0].policyId
  }

  class CapabilityPolicyEngine {
    var bundles: Bundles

    constructor ()
      ensures bundles == map[]
    {
      bundles := map[];
    }

    method AddBundle(b: Bundle)
      modifies this
      ensures bundles == old(bundles)[b.policyId := b]
    {
      bundles := bundles[b.policyId := b];
    }

    method RemoveBundle(policyId: string) returns (found: bool)
      modifies this
      ensures bundles == old(bundles) - {policyId}
      ensures found == (policyId in old(bundles))
    {
      found := policyId in bundles;
      bundles := bundles - {policyId};
    }

    method FindMatch(rules: seq<Rule>, q: Query) returns (r: Option<Rule>)
      ensures r.Some? <==> AnyMatches(rules, q)
      ensures r.Some? ==> FirstMatch(rules, q, r.value)
    {
      for i := 0 to |rules|
        invariant forall j :: 0 <= j < i ==> !Matches(rules[j], q.capability, q.resource)
      {
        if Matches(rules[i], q.capability, q.resource) {
          return Some(rules[i]);
        }
      }
      return None;
    }

    /** `evaluate`, for one order of the hash map. */
    method Evaluate(q: Query, order: seq<string>) returns (d: Decision)
      requires Enumerates(order, bundles)
      ensures d.outcome == Allow <==> Permitted(Applicable(order, bundles, q.appId), q)
      ensures Explains(d, Applicable(order, bundles, q.appId), q)
    {
      hide MatchScope;
      assert forall id :: id in order ==> id in Elements(order);
      var applicable := [];
      for i := 0 to |order|
        invariant applicable == Applicable(order[..i], bundles, q.appId)
      {
        assert order[..i + 1][..i] == order[..i];
        if AppliesTo(bundles[order[i]], q.appId) {
          applicable := applicable + [bundles[order[i]]];
        }
      }
      assert order[..|order|] == order;
      if applicable == [] {
        return Decision(Deny, "none", None);
      }
      for i := 0 to |applicable|
        invariant forall j :: 0 <= j < i ==> !AnyMatches(applicable[j].deny, q)
      {
        var r := FindMatch(applicable[i].deny, q);
        if r.Some? {
          return Decision(Deny, applicable[i].policyId, r);
        }
      }
      for i := 0 to |applicable|
        invariant forall j :: 0 <= j < i ==> !AnyMatches(applicable[j].allow, q)
      {
        var r := FindMatch(applicable[i].allow, q);
        if r.Some? {
          return Decision(Allow, applicable[i].policyId, r);
        }
      }
      return Decision(if applicable[0].defaultAllow then Allow else Deny, applicable[0].policyId, None);
    }
  }

  // ---------- Order of enumeration ----------

  /** Some bundle of the engine that applies to the query's application. */
  ghost predicate IsApplicable(bundles: Bundles, q: Query, id: string) {
    id in bundles && AppliesTo(bundles[id], q.appId)
  }

  ghost predicate Denied(bundles: Bundles, q: Query) {
    exists id :: IsApplicable(bundles, q, id) && AnyMatches(bundles[id].deny, q)
  }

  ghost predicate Granted(bundles: Bundles, q: Query) {
    exists id :: IsApplicable(bundles, q, id) && AnyMatches(bundles[id].allow, q)
  }

  ghost predicate DefaultsAgree(bundles: Bundles, q: Query) {
    forall id, id' :: IsApplicable(bundles, q, id) && IsApplicable(bundles, q, id') ==>
                        bundles[id].defaultAllow == bundles[id'].defaultAllow
  }

  lemma Disagreement(bundles: Bundles, q: Query) returns (id: string, id': string)
    requires !DefaultsAgree(bundles, q)
    ensures IsApplicable(bundles, q, id) && IsApplicable(bundles, q, id') && id in bundles && id' in bundles
    ensures bundles[id].defaultAllow && !bundles[id'].defaultAllow
  {
    var a, b :| IsApplicable(bundles, q, a) && IsApplicable(bundles, q, b)
        && bundles[a].defaultAllow != bundles[b].defaultAllow;
    if bundles[a].defaultAllow {
      id, id' := a, b;
    } else {
      id, id' := b, a;
    }
  }

  lemma OrderHolds(order: seq<string>, bundles: Bundles)
    requires Enumerates(order, bundles)
    ensures forall id :: id in order <==> id in bundles
  {
    assert forall id :: id in order <==> id in Elements(order);
  }

  lemma {:induction false} ApplicableHolds(order: seq<string>, bundles: Bundles, q: Query, b: Bundle)
    requires forall id :: id in order ==> id in bundles
    ensures b in Applicable(order, bundles, q.appId)
       <==> exists id :: id in order && IsApplicable(bundles, q, id) && bundles[id] == b
  {
    if order != [] {
      var init, last := order[..|order| - 1], order[|order| - 1];
      ApplicableHolds(init, bundles, q, b);
      assert forall id :: id in order <==> id in init || id == last;
    }
  }

  lemma ApplicableMatches(order: seq<string>, bundles: Bundles, q: Query)
    requires Enumerates(order, bundles)
    ensures (forall id :: id in order <==> id in bundles)
    ensures AnyDenies(Applicable(order, bundles, q.appId), q) <==> Denied(bundles, q)
    ensures AnyAllows(Applicable(order, bundles, q.appId), q) <==> Granted(bundles, q)
    ensures Applicable(order, bundles, q.appId) != [] <==> exists id :: IsApplicable(bundles, q, id)
  {
    OrderHolds(order, bundles);
    hide AnyMatches, Applicable, IsApplicable;
    var applicable := Applicable(order, bundles, q.appId);
    forall b ensures b in applicable <==> exists id :: id in order && IsApplicable(bundles, q, id) && bundles[id] == b {
      ApplicableHolds(order, bundles, q, b);
    }
    if id :| IsApplicable(bundles, q, id) {
      ApplicableIsLive(bundles, q, id);
      assert bundles[id] in applicable;
    }
    if applicable != [] {
      assert applicable[0] in applicable;
    }
    forall id | IsApplicable(bundles, q, id) ensures id in bundles && bundles[id] in applicable {
      ApplicableIsLive(bundles, q, id);
    }
  }

  lemma ApplicableIsLive(bundles: Bundles, q: Query, id: string)
    requires IsApplicable(bundles, q, id)
    ensures id in bundles
  {
  }

  /** An order that starts with a given bundle. */
  lemma FirstInOrder(bundles: Bundles, id: string, order: seq<string>) returns (order': seq<string>)
    requires id in bundles && Enumerates(order, bundles)
    ensures Enumerates(order', bundles) && order' != [] && order'[0] == id
  {
    OrderHolds(order, bundles);
    var k :| 0 <= k < |order| && order[k] == id;
    order' := [id] + order[..k] + order[k + 1..];
    forall x ensures x in Elements(order') <==> x in bundles.Keys {
      if x in order {
        var j :| 0 <= j < |order| && order[j] == x;
        assert x in order' by {
          assert order'[if j < k then j + 1 else if j > k then j else 0] == x;
        }
      }
    }
  }

  lemma {:induction false} FirstApplicable(order: seq<string>, bundles: Bundles, q: Query)
    requires order != [] && (forall id :: id in order ==> id in bundles) && AppliesTo(bundles[order[0]], q.appId)
    ensures Applicable(order, bundles, q.appId) != [] && Applicable(order, bundles, q.appId)[0] == bundles[order[0]]
  {
    if |order| > 1 {
      FirstApplicable(order[..|order| - 1], bundles, q);
    } else {
      assert order[..0] == [];
    }
  }

  ghost predicate OrderFree(bundles: Bundles, q: Query) {
    forall o, o' :: Enumerates(o, bundles) && Enumerates(o', bundles) ==>
      ((forall id :: id in o ==> id in bundles) && (forall id :: id in o' ==> id in bundles)
       && Permitted(Applicable(o, bundles, q.appId), q) == Permitted(Applicable(o', bundles, q.appId), q))
  }

  /** The outcome does not depend on the order of the hash map exactly when some applicable rule matches, or all
      applicable bundles have the same default. */
  lemma OutcomeIsOrderFreeIff(bundles: Bundles, q: Query, order: seq<string>)
    requires Enumerates(order, bundles)
    ensures OrderFree(bundles, q) <==> Denied(bundles, q) || Granted(bundles, q) || DefaultsAgree(bundles, q)
  {
    hide AnyMatches, Applicable, Enumerates, Elements, IsApplicable;
    if Denied(bundles, q) || Granted(bundles, q) || DefaultsAgree(bundles, q) {
      forall o, o' | Enumerates(o, bundles) && Enumerates(o', bundles)
        ensures (forall id :: id in o ==> id in bundles) && (forall id :: id in o' ==> id in bundles)
        ensures Permitted(Applicable(o, bundles, q.appId), q) == Permitted(Applicable(o', bundles, q.appId), q)
      {
        SameOutcome(bundles, q, o, o');
      }
    } else {
      var id, id' := Disagreement(bundles, q);
      var o := FirstInOrder(bundles, id, order);
      var o' := FirstInOrder(bundles, id', order);
      DefaultDecides(bundles, q, o);
      DefaultDecides(bundles, q, o');
    }
  }

  lemma DefaultDecides(bundles: Bundles, q: Query, o: seq<string>)
    requires Enumerates(o, bundles) && o != [] && IsApplicable(bundles, q, o[0])
    requires !Denied(bundles, q) && !Granted(bundles, q)
    ensures (forall id :: id in o ==> id in bundles)
    ensures Permitted(Applicable(o, bundles, q.appId), q) == bundles[o[0]].defaultAllow
  {
    ApplicableMatches(o, bundles, q);
    FirstApplicable(o, bundles, q);
  }

  lemma SameOutcome(bundles: Bundles, q: Query, o: seq<string>, o': seq<string>)
    requires Enumerates(o, bundles) && Enumerates(o', bundles)
    requires Denied(bundles, q) || Granted(bundles, q) || DefaultsAgree(bundles, q)
    ensures (forall id :: id in o ==> id in bundles) && (forall id :: id in o' ==> id in bundles)
    ensures Permitted(Applicable(o, bundles, q.appId), q) == Permitted(Applicable(o', bundles, q.appId), q)
  {
    hide AnyMatches, Applicable;
    ApplicableMatches(o, bundles, q);
    ApplicableMatches(o', bundles, q);
    var a, a' := Applicable(o, bundles, q.appId), Applicable(o', bundles, q.appId);
    if a != [] {
      ApplicableHolds(o, bundles, q, a[0]);
      ApplicableHolds(o', bundles, q, a'[0]);
    }
  }

  // ---------- Stricter rules ----------

  /** Adding a deny rule takes away exactly the permissions that the rule matches. */
  lemma DenyRuleOnlyDenies(bundles: Bundles, q: Query, order: seq<string>, id: string, r: Rule)
    requires Enumerates(order, bundles) && id in bundles
    ensures var bundles' := bundles[id := bundles[id].(deny := bundles[id].deny + [r])];
            && (forall x :: x in order ==> x in bundles && x in bundles')
            && (Permitted(Applicable(order, bundles', q.appId), q)
                <==> Permitted(Applicable(order, bundles, q.appId), q)
                     && !(Covers(bundles[id], q) && Names(r, q) && MatchScope(r.scope, q.resource)))
  {
    hide MatchScope, Applicable;
    var bundles' := bundles[id := bundles[id].(deny := bundles[id].deny + [r])];
    assert bundles'.Keys == bundles.Keys;
    OrderHolds(order, bundles);
    ApplicableMatches(order, bundles, q);
    ApplicableMatches(order, bundles', q);
    SameDefault(order, bundles, bundles', q);
    DeniedMore(bundles, q, id, r);
    GrantedSame(bundles, q, id, bundles[id].deny + [r]);
  }

  lemma DeniedMore(bundles: Bundles, q: Query, id: string, r: Rule)
    requires id in bundles
    ensures Denied(bundles[id := bundles[id].(deny := bundles[id].deny + [r])], q)
       <==> Denied(bundles, q) || (AppliesTo(bundles[id], q.appId) && Matches(r, q.capability, q.resource))
  {
    hide Matches;
    var bundles' := bundles[id := bundles[id].(deny := bundles[id].deny + [r])];
    assert AnyMatches(bundles[id].deny + [r], q)
      <==> AnyMatches(bundles[id].deny, q) || Matches(r, q.capability, q.resource) by {
      assert forall x :: x in bundles[id].deny + [r] <==> x in bundles[id].deny || x == r;
    }
    hide AnyMatches;
    if k :| IsApplicable(bundles, q, k) && AnyMatches(bundles[k].deny, q) {
      assert IsApplicable(bundles', q, k) && AnyMatches(bundles'[k].deny, q);
    }
    if k :| IsApplicable(bundles', q, k) && AnyMatches(bundles'[k].deny, q) {
      assert k != id ==> IsApplicable(bundles, q, k) && AnyMatches(bundles[k].deny, q);
      assert k == id && AnyMatches(bundles[id].deny, q) ==> IsApplicable(bundles, q, k);
    }
    if AppliesTo(bundles[id], q.appId) && Matches(r, q.capability, q.resource) {
      assert IsApplicable(bundles', q, id) && AnyMatches(bundles'[id].deny, q);
    }
  }

  lemma GrantedSame(bundles: Bundles, q: Query, id: string, deny: seq<Rule>)
    requires id in bundles
    ensures Granted(bundles[id := bundles[id].(deny := deny)], q) <==> Granted(bundles, q)
  {
    hide AnyMatches;
    var bundles' := bundles[id := bundles[id].(deny := deny)];
    if k :| IsApplicable(bundles, q, k) && AnyMatches(bundles[k].allow, q) {
      assert IsApplicable(bundles', q, k) && AnyMatches(bundles'[k].allow, q);
    }
    if k :| IsApplicable(bundles', q, k) && AnyMatches(bundles'[k].allow, q) {
      assert IsApplicable(bundles, q, k) && AnyMatches(bundles[k].allow, q);
    }
  }

  lemma {:induction false} SameDefault(order: seq<string>, bundles: Bundles, bundles': Bundles, q: Query)
    requires forall x :: x in order ==> x in bundles && x in bundles'
    requires forall x :: x in bundles && x in bundles' ==>
               bundles[x].targetApp == bundles'[x].targetApp && bundles[x].defaultAllow == bundles'[x].defaultAllow
    ensures var a, a' := Applicable(order, bundles, q.appId), Applicable(order, bundles', q.appId);
            |a| == |a'| && forall i :: 0 <= i < |a| ==> a[i].defaultAllow == a'[i].defaultAllow
  {
    if order != [] {
      SameDefault(order[..|order| - 1], bundles, bundles', q);
    }
  }

  lemma EndsAt(s: string, suffix: string, i: nat)
    requires i < |suffix|
    ensures EndsWith(s, suffix) ==> s[|s| - |suffix| + i] == suffix[i]
  {
    if EndsWith(s, suffix) {
      assert s[|s| - |suffix|..][i] == suffix[i];
    }
  }

  function Slashes(n: nat): string {
    if n == 0 then "" else "/" + Slashes(n - 1)
  }

  ghost predicate SegmentAfter(x: string, n: nat, segment: string) {
    x == Slashes(n) + segment && '/' !in segment
  }

  /** One path segment, after any number of slashes. */
  ghost predicate IsSegment(x: string) {
    exists n: nat, segment: string :: SegmentAfter(x, n, segment)
  }

  lemma StartsWithSlash(s: string)
    ensures "/" <= s ==> '/' in s
  {
    if "/" <= s {
      assert s[0] == "/"[0];
    }
  }

  lemma {:induction false} TrimmedSegment(n: nat, segment: string)
    requires '/' !in segment
    ensures TrimStart(Slashes(n) + segment, "/") == segment
  {
    if n == 0 {
      assert Slashes(0) + segment == segment;
      StartsWithSlash(segment);
    } else {
      assert (Slashes(n) + segment)[1..] == Slashes(n - 1) + segment;
      TrimmedSegment(n - 1, segment);
    }
  }

  lemma {:induction false} TrimIsSegment(x: string)
    ensures '/' !in TrimStart(x, "/") <==> IsSegment(x)
  {
    if '/' !in TrimStart(x, "/") {
      TrimmedIsSegment(x);
    }
    if n: nat, segment: string :| SegmentAfter(x, n, segment) {
      TrimmedSegment(n, segment);
    }
  }

  lemma {:induction false} TrimmedIsSegment(x: string)
    requires '/' !in TrimStart(x, "/")
    ensures IsSegment(x)
    decreases |x|
  {
    if "/" <= x {
      TrimmedIsSegment(x[1..]);
      var n: nat, segment: string :| SegmentAfter(x[1..], n, segment);
      assert x == "/" + x[1..];
      assert SegmentAfter(x, n + 1, segment);
    } else {
      assert SegmentAfter(x, 0, x);
    }
  }

  // What "P/**" matches: anything that starts with P.
  lemma DeepGlobMeaning(p: string, target: string)
    ensures MatchScope(p + "/**", target) <==> p <= target
  {
    hide TrimStart;
    var two := p + "/**";
    assert two[..|two| - 3] == p && EndsWith(two, "/**");
  }

  // What "P/*" matches: P followed by one path segment, with any number of slashes before it, even none. A P that
  // begins with "*." also matches by its end, but only what does not start with P.
  lemma GlobMeaning(p: string, target: string)
    ensures MatchScope(p + "/*", target)
       <==> if p <= target then IsSegment(target[|p|..]) else "*." <= p && EndsWith(target, p[1..] + "/*")
  {
    hide TrimStart;
    var one := p + "/*";
    assert one[|one| - 1] == '*' && one[|one| - 2] == '/' && one[..|one| - 2] == p;
    assert EndsWith(one, "/*");
    EndsAt(one, "/**", 1);
    StarDot(p);
    if p <= target {
      TrimIsSegment(target[|p|..]);
      assert target == one ==> SegmentAfter(target[|p|..], 1, "*");
    } else {
      assert "*." <= p ==> one[1..] == p[1..] + "/*";
    }
  }

  lemma StarDot(p: string)
    ensures "*." <= p + "/*" <==> "*." <= p
  {
    var one := p + "/*";
    assert |p| >= 2 ==> one[0] == p[0] && one[1] == p[1];
    assert |p| == 1 ==> one[1] == '/';
    assert |p| == 0 ==> one[0] == '/';
  }

  /** What the remaining patterns match: "*" everything, "*.S" what ends in ".S", all others only themselves. */
  lemma PlainMeaning(pattern: string, target: string)
    requires !EndsWith(pattern, "/*") && !EndsWith(pattern, "/**")
    ensures MatchScope(pattern, target)
       <==> pattern == "*" || (if "*." <= pattern then EndsWith(target, pattern[1..]) else target == pattern)
  {
    hide TrimStart;
  }

  lemma EndsWithTail(a: string, b: string)
    ensures EndsWith(a + b, b)
  {
    assert (a + b)[|a|..] == b;
  }

  // Widening a scope from "P/*" to "P/**" keeps all it matched exactly when P does not begin with "*.".
  lemma WideningIsMonotoneIff(p: string)
    ensures (forall target :: MatchScope(p + "/*", target) ==> MatchScope(p + "/**", target)) <==> !("*." <= p)
  {
    if "*." <= p {
      var target := "a" + p[1..] + "/*";
      assert target[0] == 'a' && p[0] == '*';
      GlobMeaning(p, target);
      DeepGlobMeaning(p, target);
      EndsWithTail("a", p[1..] + "/*");
      assert target == "a" + (p[1..] + "/*");
    }
    hide MatchScope;
    forall target | MatchScope(p + "/*", target) && !("*." <= p) ensures MatchScope(p + "/**", target) {
      GlobMeaning(p, target);
      DeepGlobMeaning(p, target);
    }
  }

  lemma WideningMatches(p: string, capability: string, q: Query)
    requires !("*." <= p) && Matches(Rule(capability, p + "/*"), q.capability, q.resource)
    ensures Matches(Rule(capability, p + "/**"), q.capability, q.resource)
  {
    WideningIsMonotoneIff(p);
    hide MatchScope;
  }

  /** The bundles after the scope of one deny rule has been changed. */
  function Rescoped(bundles: Bundles, id: string, k: nat, scope: string): Bundles
    requires id in bundles && k < |bundles[id].deny|
  {
    bundles[id := bundles[id].(deny := bundles[id].deny[k := bundles[id].deny[k].(scope := scope)])]
  }

  lemma WideningDenies(bundles: Bundles, q: Query, id: string, k: nat, p: string)
    requires id in bundles && k < |bundles[id].deny| && bundles[id].deny[k].scope == p + "/*" && !("*." <= p)
    requires Denied(bundles, q)
    ensures Denied(Rescoped(bundles, id, k, p + "/**"), q)
  {
    var deny := bundles[id].deny;
    var deny' := deny[k := deny[k].(scope := p + "/**")];
    var bundles' := bundles[id := bundles[id].(deny := deny')];
    var x :| IsApplicable(bundles, q, x) && AnyMatches(bundles[x].deny, q);
    if x == id {
      var r :| r in deny && Matches(r, q.capability, q.resource);
      if r == deny[k] {
        WideningMatches(p, r.capability, q);
        assert deny'[k] in deny';
      } else {
        var i :| 0 <= i < |deny| && deny[i] == r;
        assert deny'[i] == r;
      }
    }
    assert IsApplicable(bundles', q, x) && AnyMatches(bundles'[x].deny, q);
  }

  /** So widening the scope of a deny rule never lets anything through that was denied before. */
  lemma WideningNeverPermits(bundles: Bundles, q: Query, order: seq<string>, id: string, k: nat, p: string)
    requires Enumerates(order, bundles) && id in bundles
    requires k < |bundles[id].deny| && bundles[id].deny[k].scope == p + "/*" && !("*." <= p)
    ensures var bundles' := Rescoped(bundles, id, k, p + "/**");
            && (forall x :: x in order ==> x in bundles && x in bundles')
            && (Permitted(Applicable(order, bundles', q.appId), q)
                ==> Permitted(Applicable(order, bundles, q.appId), q))
  {
    hide Matches, Applicable;
    var deny' := bundles[id].deny[k := bundles[id].deny[k].(scope := p + "/**")];
    var bundles' := bundles[id := bundles[id].(deny := deny')];
    assert bundles'.Keys == bundles.Keys;
    OrderHolds(order, bundles);
    ApplicableMatches(order, bundles, q);
    ApplicableMatches(order, bundles', q);
    SameDefault(order, bundles, bundles', q);
    GrantedSame(bundles, q, id, deny');
    if Denied(bundles, q) {
      WideningDenies(bundles, q, id, k, p);
    }
  }

  // ---------- What rules and bundles say ----------

  /** The rule speaks about the capability asked for, by its name or for all. */
  predicate Names(r: Rule, q: Query) {
    r.capability == q.capability || r.capability == "*"
  }

  /** The bundle is for the application asked about, or for all. */
  predicate Covers(b: Bundle, q: Query) {
    b.targetApp == q.appId || b.targetApp == "*"
  }

  /** Some bundle for the application forbids the capability on the resource. */
  ghost predicate Forbidden(bundles: Bundles, q: Query) {
    exists id, r :: && id in bundles && Covers(bundles[id], q) && r in bundles[id].deny
                    && Names(r, q) && MatchScope(r.scope, q.resource)
  }

  /** Some bundle for the application grants the capability on the resource. */
  ghost predicate Conceded(bundles: Bundles, q: Query) {
    exists id, r :: && id in bundles && Covers(bundles[id], q) && r in bundles[id].allow
                    && Names(r, q) && MatchScope(r.scope, q.resource)
  }

  /** The bundle in place k of the order is the first for the application. */
  ghost predicate FirstFor(order: seq<string>, bundles: Bundles, q: Query, k: nat) {
    && k < |order| && order[k] in bundles && Covers(bundles[order[k]], q)
    && forall j :: 0 <= j < k && order[j] in bundles ==> !Covers(bundles[order[j]], q)
  }

  /** The first bundle for the application permits by default. */
  ghost predicate OpenByDefault(order: seq<string>, bundles: Bundles, q: Query) {
    exists k: nat :: FirstFor(order, bundles, q, k) && bundles[order[k]].defaultAllow
  }

  lemma DeniedIsForbidden(bundles: Bundles, q: Query)
    ensures Denied(bundles, q) <==> Forbidden(bundles, q)
    ensures Granted(bundles, q) <==> Conceded(bundles, q)
  {
    hide MatchScope;
    if id :| IsApplicable(bundles, q, id) && AnyMatches(bundles[id].deny, q) {
      var r :| r in bundles[id].deny && Matches(r, q.capability, q.resource);
      assert Covers(bundles[id], q) && Names(r, q);
    }
    if id, r :| && id in bundles && Covers(bundles[id], q) && r in bundles[id].deny
                && Names(r, q) && MatchScope(r.scope, q.resource) {
      assert IsApplicable(bundles, q, id) && Matches(r, q.capability, q.resource);
    }
    if id :| IsApplicable(bundles, q, id) && AnyMatches(bundles[id].allow, q) {
      var r :| r in bundles[id].allow && Matches(r, q.capability, q.resource);
      assert Covers(bundles[id], q) && Names(r, q);
    }
    if id, r :| && id in bundles && Covers(bundles[id], q) && r in bundles[id].allow
                && Names(r, q) && MatchScope(r.scope, q.resource) {
      assert IsApplicable(bundles, q, id) && Matches(r, q.capability, q.resource);
    }
  }

  /** The first of the applicable bundles is the first in the order that is for the application. */
  lemma {:induction false} FirstCovers(order: seq<string>, bundles: Bundles, q: Query) returns (k: nat)
    requires (forall id :: id in order ==> id in bundles) && Applicable(order, bundles, q.appId) != []
    ensures k < |order| && Covers(bundles[order[k]], q)
    ensures Applicable(order, bundles, q.appId)[0] == bundles[order[k]]
    ensures forall j :: 0 <= j < k ==> !Covers(bundles[order[j]], q)
  {
    var init, last := order[..|order| - 1], order[|order| - 1];
    if Applicable(init, bundles, q.appId) == [] {
      k := |init|;
      NoneCovers(init, bundles, q);
    } else {
      k := FirstCovers(init, bundles, q);
      assert order[k] == init[k];
    }
  }

  lemma {:induction false} NoneCovers(order: seq<string>, bundles: Bundles, q: Query)
    requires (forall id :: id in order ==> id in bundles) && Applicable(order, bundles, q.appId) == []
    ensures forall j :: 0 <= j < |order| ==> order[j] in bundles && !Covers(bundles[order[j]], q)
  {
    if order != [] {
      NoneCovers(order[..|order| - 1], bundles, q);
      assert forall j :: 0 <= j < |order| - 1 ==> order[j] == order[..|order| - 1][j];
    }
  }

  /** The documented rule, on bundles and rules: a query is permitted exactly when nothing forbids it and something
      concedes it or, failing that, the first bundle for the application permits by default. */
  lemma PermittedIff(order: seq<string>, bundles: Bundles, q: Query)
    requires Enumerates(order, bundles)
    ensures (forall id :: id in order ==> id in bundles)
    ensures Permitted(Applicable(order, bundles, q.appId), q)
       <==> !Forbidden(bundles, q) && (Conceded(bundles, q) || OpenByDefault(order, bundles, q))
  {
    ApplicableMatches(order, bundles, q);
    DeniedIsForbidden(bundles, q);
    hide AnyDenies, AnyAllows, Denied, Granted, Applicable, MatchScope, Enumerates;
    var applicable := Applicable(order, bundles, q.appId);
    if applicable == [] {
      NoneCovers(order, bundles, q);
    } else {
      var k := FirstCovers(order, bundles, q);
      assert order[k] in order;
    }
  }

  /** The same bundles, but for rules about other capabilities. */
  ghost predicate AgreeOn(bundles: Bundles, bundles': Bundles, q: Query) {
    && bundles.Keys == bundles'.Keys
    && forall id :: id in bundles ==>
         && bundles[id].targetApp == bundles'[id].targetApp && bundles[id].defaultAllow == bundles'[id].defaultAllow
         && forall r :: Names(r, q) ==>
              && (r in bundles[id].allow <==> r in bundles'[id].allow)
              && (r in bundles[id].deny <==> r in bundles'[id].deny)
  }

  /** Rules about other capabilities, added or removed anywhere and in any number, change no outcome. */
  lemma OtherCapabilitiesDoNotMatter(order: seq<string>, bundles: Bundles, bundles': Bundles, q: Query)
    requires Enumerates(order, bundles) && AgreeOn(bundles, bundles', q)
    ensures (forall id :: id in order ==> id in bundles && id in bundles')
    ensures Permitted(Applicable(order, bundles, q.appId), q) == Permitted(Applicable(order, bundles', q.appId), q)
  {
    PermittedIff(order, bundles, q);
    PermittedIff(order, bundles', q);
    AgreeingForbid(bundles, bundles', q);
    AgreeingForbid(bundles', bundles, q);
    hide Permitted, Applicable, MatchScope, Names, Forbidden, Conceded;
    assert OpenByDefault(order, bundles, q) <==> OpenByDefault(order, bundles', q);
  }

  lemma AgreeingForbid(bundles: Bundles, bundles': Bundles, q: Query)
    requires AgreeOn(bundles, bundles', q)
    ensures Forbidden(bundles, q) ==> Forbidden(bundles', q)
    ensures Conceded(bundles, q) ==> Conceded(bundles', q)
  {
    hide MatchScope, Names;
    if id, r :| && id in bundles && Covers(bundles[id], q) && r in bundles[id].deny
                && Names(r, q) && MatchScope(r.scope, q.resource) {
      assert Covers(bundles'[id], q) && r in bundles'[id].deny;
    }
    if id, r :| && id in bundles && Covers(bundles[id], q) && r in bundles[id].allow
                && Names(r, q) && MatchScope(r.scope, q.resource) {
      assert Covers(bundles'[id], q) && r in bundles'[id].allow;
    }
  }

  /** Without a rule that grants the capability, and without a bundle that permits by default, all is denied. */
  lemma UnnamedIsDenied(order: seq<string>, bundles: Bundles, q: Query)
    requires Enumerates(order, bundles)
    requires forall id, r :: id in bundles && Covers(bundles[id], q) && r in bundles[id].allow ==> !Names(r, q)
    requires forall id :: id in bundles && Covers(bundles[id], q) ==> !bundles[id].defaultAllow
    ensures (forall id :: id in order ==> id in bundles)
    ensures !Permitted(Applicable(order, bundles, q.appId), q)
  {
    PermittedIff(order, bundles, q);
    hide Permitted, Applicable, MatchScope, Names, Covers;
  }

  // ---------- Which policy and rule a decision names ----------

  /** The rule speaks about the capability and its scope takes in the resource. */
  predicate Hits(r: Rule, q: Query) {
    Names(r, q) && MatchScope(r.scope, q.resource)
  }

  /** Rule i of these hits the query, and none before it does. */
  predicate FirstHit(rules: seq<Rule>, q: Query, i: nat) {
    i < |rules| && Hits(rules[i], q) && forall j :: 0 <= j < i ==> !Hits(rules[j], q)
  }

  /** The bundle in place k of the order is for the application, and rule i of these lists is the first that hits: no
      bundle before it that is for the application has any. */
  ghost predicate Cited(order: seq<string>, bundles: Bundles, q: Query, outcome: Outcome, k: nat, i: nat) {
    && k < |order| && order[k] in bundles && Covers(bundles[order[k]], q)
    && (outcome == Deny ==> FirstHit(bundles[order[k]].deny, q, i))
    && (outcome == Allow ==> FirstHit(bundles[order[k]].allow, q, i))
    && forall j :: 0 <= j < k && order[j] in bundles && Covers(bundles[order[j]], q) ==>
         && (outcome == Deny ==> forall r :: r in bundles[order[j]].deny ==> !Hits(r, q))
         && (outcome == Allow ==> forall r :: r in bundles[order[j]].allow ==> !Hits(r, q))
  }

  /** The applicable bundles are those in the order that are for the application, in that order. */
  lemma {:induction false} ApplicableAt(order: seq<string>, bundles: Bundles, q: Query, i: nat) returns (k: nat)
    requires (forall id :: id in order ==> id in bundles) && i < |Applicable(order, bundles, q.appId)|
    ensures k < |order| && Covers(bundles[order[k]], q) && bundles[order[k]] == Applicable(order, bundles, q.appId)[i]
    ensures forall j :: 0 <= j < k && Covers(bundles[order[j]], q) ==>
              exists l :: 0 <= l < i && Applicable(order, bundles, q.appId)[l] == bundles[order[j]]
  {
    var n := |order| - 1;
    var init := order[..n];
    var before := Applicable(init, bundles, q.appId);
    if i < |before| {
      k := ApplicableAt(init, bundles, q, i);
      assert forall j :: 0 <= j < n ==> order[j] == init[j];
      assert forall l :: 0 <= l < i ==> Applicable(order, bundles, q.appId)[l] == before[l];
    } else {
      k := n;
      forall j | 0 <= j < k && Covers(bundles[order[j]], q)
        ensures exists l :: 0 <= l < i && Applicable(order, bundles, q.appId)[l] == bundles[order[j]]
      {
        ApplicableHolds(init, bundles, q, bundles[order[j]]);
        assert init[j] in init && IsApplicable(bundles, q, init[j]);
        var l :| 0 <= l < |before| && before[l] == bundles[order[j]];
        assert Applicable(order, bundles, q.appId)[l] == before[l];
      }
    }
  }

  lemma FirstMatchHits(rules: seq<Rule>, q: Query, r: Rule) returns (i: nat)
    requires FirstMatch(rules, q, r)
    ensures FirstHit(rules, q, i) && rules[i] == r
  {
    hide MatchScope;
    i :| 0 <= i < |rules| && rules[i] == r && Matches(r, q.capability, q.resource)
      && forall j :: 0 <= j < i ==> !Matches(rules[j], q.capability, q.resource);
  }

  lemma NoMatchNoHit(rules: seq<Rule>, q: Query)
    requires !AnyMatches(rules, q)
    ensures forall r :: r in rules ==> !Hits(r, q)
  {
    hide MatchScope;
    forall r | r in rules ensures !Hits(r, q) {
      assert !Matches(r, q.capability, q.resource);
    }
  }

  lemma MatchIsCited(order: seq<string>, bundles: Bundles, q: Query, outcome: Outcome, a: nat, r: Rule)
    returns (k: nat, i: nat)
    requires forall id :: id in order ==> id in bundles
    requires var applicable := Applicable(order, bundles, q.appId);
             && a < |applicable| && FirstMatch(RulesFor(applicable[a], outcome), q, r)
             && forall j :: 0 <= j < a ==> !AnyMatches(RulesFor(applicable[j], outcome), q)
    ensures Cited(order, bundles, q, outcome, k, i) && bundles[order[k]] == Applicable(order, bundles, q.appId)[a]
    ensures r == if outcome == Deny then bundles[order[k]].deny[i] else bundles[order[k]].allow[i]
  {
    hide Hits, Applicable, FirstMatch, AnyMatches, Covers;
    var applicable := Applicable(order, bundles, q.appId);
    k := ApplicableAt(order, bundles, q, a);
    i := FirstMatchHits(RulesFor(applicable[a], outcome), q, r);
    forall j | 0 <= j < k && Covers(bundles[order[j]], q)
      ensures forall x :: x in RulesFor(bundles[order[j]], outcome) ==> !Hits(x, q)
    {
      var l :| 0 <= l < a && applicable[l] == bundles[order[j]];
      NoMatchNoHit(RulesFor(applicable[l], outcome), q);
    }
  }

  /** A decision that names a rule names the first that hits, in the first bundle for the application with one, and that
      bundle's policy. One without a rule is made where no rule hits, under the policy of the first bundle for the
      application; or under "none", if there is no bundle for it. */
  ghost predicate Accounts(d: Decision, order: seq<string>, bundles: Bundles, q: Query) {
    match d.matched
    case Some(r) =>
      exists k: nat, i: nat :: Cited(order, bundles, q, d.outcome, k, i) && bundles[order[k]].policyId == d.policyId
                     && r == if d.outcome == Deny then bundles[order[k]].deny[i] else bundles[order[k]].allow[i]
    case None =>
      && !Forbidden(bundles, q) && !Conceded(bundles, q)
      && ((exists k: nat :: FirstFor(order, bundles, q, k) && bundles[order[k]].policyId == d.policyId)
          || (d.policyId == "none" && forall id :: id in bundles ==> !Covers(bundles[id], q)))
  }

  lemma DecisionAccounts(d: Decision, order: seq<string>, bundles: Bundles, q: Query)
    requires Enumerates(order, bundles) && (forall id :: id in order ==> id in bundles)
    requires Explains(d, Applicable(order, bundles, q.appId), q)
    ensures Accounts(d, order, bundles, q)
  {
    hide MatchScope, Applicable, Cited, FirstMatch, AnyMatches, AnyDenies, AnyAllows, Forbidden, Conceded, Covers;
    hide Enumerates;
    var applicable := Applicable(order, bundles, q.appId);
    match d.matched {
      case Some(r) =>
        var a: nat :| a < |applicable| && applicable[a].policyId == d.policyId
                      && FirstMatch(RulesFor(applicable[a], d.outcome), q, r)
                      && forall j :: 0 <= j < a ==> !AnyMatches(RulesFor(applicable[j], d.outcome), q);
        var k, i := MatchIsCited(order, bundles, q, d.outcome, a, r);
      case None =>
        ApplicableMatches(order, bundles, q);
        DeniedIsForbidden(bundles, q);
        if applicable == [] {
          NoneCovers(order, bundles, q);
          OrderHolds(order, bundles);
        } else {
          var k := FirstCovers(order, bundles, q);
          assert FirstFor(order, bundles, q, k);
        }
    }
  }
}
