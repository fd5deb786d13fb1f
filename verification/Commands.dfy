/** Signed containment commands and the text over which they are signed. */
module Commands {
  import opened Basics
  import opened StringOrder

  type Uuid = nat

  datatype Action = RevokeSession | ThrottleActor | BlockNetwork | RevokeCapability | RestrictScope | IsolateService

  function ActionName(a: Action): string {
    match a
    case RevokeSession => "REVOKE_SESSION"
    case ThrottleActor => "THROTTLE_ACTOR"
    case BlockNetwork => "BLOCK_NETWORK"
    case RevokeCapability => "REVOKE_CAPABILITY"
    case RestrictScope => "RESTRICT_SCOPE"
    case IsolateService => "ISOLATE_SERVICE"
  }

  datatype Status = Active | Expired | RolledBack

  datatype Command = Command(commandId: Uuid, action: Action, target: string, capability: Option<string>,
                             params: map<string, string>, ttlSeconds: nat, nonce: string,
                             incident: Option<Uuid>, issuedAt: Time, expiresAt: Time,
                             signerKey: string, signature: string, status: Status, recipe: string)

  /** What a caller asks to be contained. */
  datatype Order = Order(action: Action, target: string, capability: Option<string>, params: map<string, string>,
                         ttlSeconds: nat, incident: Option<Uuid>, recipe: string)

  /** A new unsigned command; its id and its nonce are fresh values. */
  function NewCommand(o: Order, id: Uuid, nonce: string, now: Time): Command {
    Command(id, o.action, o.target, o.capability, o.params, o.ttlSeconds, nonce, o.incident,
            now, now + o.ttlSeconds * SECOND, "", "", Active, o.recipe)
  }

  predicate IsExpired(c: Command, now: Time) {
    now >= c.expiresAt
  }

  /** How ids and instants are printed. */
  datatype Printer = Printer(uuid: Uuid -> string, stamp: Time -> string)

  /** Printed ids and instants are unambiguous, fit on a line, and an id is never the word "none". */
  ghost predicate Faithful(p: Printer) {
    && (forall x, y :: p.uuid(x) == p.uuid(y) ==> x == y)
    && (forall x, y :: p.stamp(x) == p.stamp(y) ==> x == y)
    && (forall x :: '\n' !in p.uuid(x) && p.uuid(x) != "none")
    && (forall x :: '\n' !in p.stamp(x))
  }

  function Decimal(n: nat): string {
    if n < 10 then [(n + '0' as int) as char]
    else Decimal(n / 10) + [(n % 10 + '0' as int) as char]
  }

  function CapabilityText(c: Option<string>): string {
    if c.Some? then c.value else "none"
  }

  function IncidentText(i: Option<Uuid>, p: Printer): string {
    if i.Some? then p.uuid(i.value) else "none"
  }

  /** The parameters as "key=value", in the order of the keys given, with ";" between them. */
  function JoinParams(keys: seq<string>, m: map<string, string>): string
    requires forall k :: k in keys ==> k in m
  {
    if keys == [] then ""
    else
      var pair := keys[0] + "=" + m[keys[0]];
      if |keys| == 1 then pair else pair + ";" + JoinParams(keys[1..], m)
  }

  /** A hash map may list its keys in any order. */
  ghost predicate Lists(order: seq<string>, keys: set<string>) {
    Elements(order) == keys
  }

  function ParamsText(m: map<string, string>, order: seq<string>): string
    requires Lists(order, m.Keys)
  {
    SortDedupIsSorted(order);
    assert forall k :: k in SortDedup(order) ==> k in Elements(SortDedup(order));
    JoinParams(SortDedup(order), m)
  }

  function Lines(lines: seq<string>, last: string): string {
    if lines == [] then last else lines[0] + "\n" + Lines(lines[1..], last)
  }

  /** The lines of the canonical text that precede the recipe. */
  function SignedLines(c: Command, p: Printer, order: seq<string>): seq<string>
    requires Lists(order, c.params.Keys)
  {
    ["CMD_ID:" + p.uuid(c.commandId), "ACTION:" + ActionName(c.action), "TARGET:" + c.target,
     "CAP:" + CapabilityText(c.capability), "PARAMS:" + ParamsText(c.params, order),
     "TTL:" + Decimal(c.ttlSeconds), "NONCE:" + c.nonce, "INCIDENT:" + IncidentText(c.incident, p),
     "ISSUED:" + p.stamp(c.issuedAt), "EXPIRES:" + p.stamp(c.expiresAt)]
  }

  /** `canonical_bytes`, for one order in which the parameter map is iterated. */
  function CanonicalText(c: Command, p: Printer, order: seq<string>): string
    requires Lists(order, c.params.Keys)
  {
    Lines(SignedLines(c, p, order), "RECIPE:" + c.recipe)
  }

  /** The canonical text does not depend on the order in which the parameter map is iterated. */
  lemma CanonicalTextIsDeterministic(c: Command, p: Printer, order: seq<string>, order': seq<string>)
    requires Lists(order, c.params.Keys) && Lists(order', c.params.Keys)
    ensures CanonicalText(c, p, order) == CanonicalText(c, p, order')
  {
    SortDedupIsSorted(order);
    SortDedupIsSorted(order');
    AscendingIsUnique(SortDedup(order), SortDedup(order'));
  }

  ghost function SomeListing(keys: set<string>): (order: seq<string>)
    ensures Lists(order, keys)
  {
    if keys == {} then []
    else
      var k :| k in keys;
      assert Elements([k] + SomeListing(keys - {k})) == {k} + Elements(SomeListing(keys - {k}));
      [k] + SomeListing(keys - {k})
  }

  /** The canonical text of a command. */
  ghost function Text(c: Command, p: Printer): string {
    CanonicalText(c, p, SomeListing(c.params.Keys))
  }

  /** Whatever order the hash map iterates in, the text comes out the same. */
  method CanonicalBytes(c: Command, p: Printer) returns (text: string)
    ensures text == Text(c, p)
  {
    var order, todo := [], c.params.Keys;
    while todo != {}
      invariant todo <= c.params.Keys && Elements(order) == c.params.Keys - todo
      decreases todo
    {
      var k :| k in todo;
      assert Elements(order + [k]) == Elements(order) + {k};
      order, todo := order + [k], todo - {k};
    }
    text := CanonicalText(c, p, order);
    CanonicalTextIsDeterministic(c, p, order, SomeListing(c.params.Keys));
  }

  // ---------- The text, letter by letter ----------

  /** The parts one after the other, with a separator between them. */
  function Separated(parts: seq<string>, separator: string): string {
    if parts == [] then ""
    else if |parts| == 1 then parts[0]
    else Separated(parts[..|parts| - 1], separator) + separator + parts[|parts| - 1]
  }

  lemma {:induction false} SeparatedFront(parts: seq<string>, separator: string)
    requires |parts| > 1
    ensures Separated(parts, separator) == parts[0] + separator + Separated(parts[1..], separator)
  {
    var init, last := parts[..|parts| - 1], parts[|parts| - 1];
    if |parts| == 2 {
      assert Separated(parts[1..], separator) == parts[1] && Separated(init, separator) == parts[0];
    } else {
      SeparatedFront(init, separator);
      assert init[1..] == parts[1..][..|parts| - 2];
      assert Separated(parts[1..], separator) == Separated(init[1..], separator) + separator + last;
    }
  }

  function Pairs(keys: seq<string>, m: map<string, string>): seq<string>
    requires forall k :: k in keys ==> k in m
  {
    seq(|keys|, i requires 0 <= i < |keys| => keys[i] + "=" + m[keys[i]])
  }

  lemma {:induction false} JoinParamsAreSeparated(keys: seq<string>, m: map<string, string>)
    requires forall k :: k in keys ==> k in m
    ensures JoinParams(keys, m) == Separated(Pairs(keys, m), ";")
  {
    if |keys| > 1 {
      JoinParamsAreSeparated(keys[1..], m);
      assert Pairs(keys, m)[1..] == Pairs(keys[1..], m);
      SeparatedFront(Pairs(keys, m), ";");
    }
  }

  lemma {:induction false} LinesAreSeparated(lines: seq<string>, last: string)
    ensures Lines(lines, last) == Separated(lines + [last], "\n")
  {
    if lines != [] {
      LinesAreSeparated(lines[1..], last);
      assert (lines + [last])[1..] == lines[1..] + [last];
      SeparatedFront(lines + [last], "\n");
    } else {
      assert [] + [last] == [last];
    }
  }

  function DigitsValue(s: string): int {
    if s == "" then 0 else 10 * DigitsValue(s[..|s| - 1]) + (s[|s| - 1] as int - '0' as int)
  }

  /** A number is printed in decimal digits, without leading zeros. */
  lemma {:induction false} DecimalReads(n: nat)
    ensures DigitsValue(Decimal(n)) == n
    ensures Decimal(n) != "" && (n > 0 ==> Decimal(n)[0] != '0') && (n == 0 ==> Decimal(n) == "0")
    ensures forall i :: 0 <= i < |Decimal(n)| ==> '0' <= Decimal(n)[i] <= '9'
  {
    if n >= 10 {
      DecimalReads(n / 10);
      var s := Decimal(n);
      assert s[..|s| - 1] == Decimal(n / 10);
    } else {
      assert Decimal(n)[..0] == "";
    }
  }

  /** The word for an action. */
  predicate Word(a: Action, word: string) {
    (a, word) in {(RevokeSession, "REVOKE_SESSION"), (ThrottleActor, "THROTTLE_ACTOR"), (BlockNetwork, "BLOCK_NETWORK"),
                  (RevokeCapability, "REVOKE_CAPABILITY"), (RestrictScope, "RESTRICT_SCOPE"),
                  (IsolateService, "ISOLATE_SERVICE")}
  }

  /** The lines of the canonical text: parameters as pairs in ascending order of their keys, "none" for what is
      missing. */
  function TextLines(c: Command, p: Printer, keys: seq<string>, word: string): seq<string>
    requires forall k :: k in keys ==> k in c.params
  {
    ["CMD_ID:" + p.uuid(c.commandId), "ACTION:" + word, "TARGET:" + c.target,
     "CAP:" + (if c.capability == None then "none" else c.capability.value),
     "PARAMS:" + Separated(Pairs(keys, c.params), ";"), "TTL:" + Decimal(c.ttlSeconds), "NONCE:" + c.nonce,
     "INCIDENT:" + (if c.incident == None then "none" else p.uuid(c.incident.value)),
     "ISSUED:" + p.stamp(c.issuedAt), "EXPIRES:" + p.stamp(c.expiresAt), "RECIPE:" + c.recipe]
  }

  lemma SortedKeysAre(m: map<string, string>, order: seq<string>, keys: seq<string>)
    requires Lists(order, m.Keys) && Ascending(keys) && Elements(keys) == m.Keys
    ensures (forall k :: k in keys ==> k in m) && ParamsText(m, order) == Separated(Pairs(keys, m), ";")
  {
    SortDedupIsSorted(order);
    AscendingIsUnique(SortDedup(order), keys);
    assert forall k :: k in keys ==> k in Elements(keys);
    JoinParamsAreSeparated(keys, m);
  }

  /** The canonical text consists of these lines. */
  lemma TextReads(c: Command, p: Printer, keys: seq<string>, word: string)
    requires Ascending(keys) && Elements(keys) == c.params.Keys && Word(c.action, word)
    ensures (forall k :: k in keys ==> k in c.params)
    ensures Text(c, p) == Separated(TextLines(c, p, keys, word), "\n")
  {
    var order := SomeListing(c.params.Keys);
    assert ActionName(c.action) == word;
    hide Separated, Pairs, JoinParams, ParamsText, SomeListing, Decimal, ActionName;
    SortedKeysAre(c.params, order, keys);
    assert SignedLines(c, p, order) + ["RECIPE:" + c.recipe] == TextLines(c, p, keys, word);
    LinesAreSeparated(SignedLines(c, p, order), "RECIPE:" + c.recipe);
  }

  // ---------- Injectivity ----------

  predicate SameSigned(c: Command, d: Command) {
    && c.commandId == d.commandId && c.action == d.action && c.target == d.target
    && c.capability == d.capability && c.params == d.params && c.ttlSeconds == d.ttlSeconds
    && c.nonce == d.nonce && c.incident == d.incident && c.issuedAt == d.issuedAt
    && c.expiresAt == d.expiresAt && c.recipe == d.recipe
  }

  /** Free text before the recipe stays on its line. */
  predicate FieldsOnOneLine(c: Command) {
    && '\n' !in c.target && '\n' !in c.nonce
    && (c.capability.Some? ==> '\n' !in c.capability.value)
    && forall k :: k in c.params ==> '\n' !in k && '\n' !in c.params[k]
  }

  /** Besides, keys contain no "=" or ";", values no ";". */
  predicate Delimited(c: Command) {
    FieldsOnOneLine(c) && forall k :: k in c.params ==> '=' !in k && ';' !in k && ';' !in c.params[k]
  }

  predicate Unambiguous(c: Command) {
    Delimited(c) && c.capability != Some("none")
  }

  lemma {:induction false} LinesInjective(a: seq<string>, x: string, b: seq<string>, y: string)
    requires |a| == |b| && (forall s :: s in a ==> '\n' !in s) && (forall s :: s in b ==> '\n' !in s)
    requires Lines(a, x) == Lines(b, y)
    ensures a == b && x == y
  {
    if a != [] {
      CutUnique(a[0], Lines(a[1..], x), b[0], Lines(b[1..], y), '\n');
      LinesInjective(a[1..], x, b[1..], y);
      assert a == [a[0]] + a[1..] && b == [b[0]] + b[1..];
    }
  }

  lemma {:induction false} DecimalInjective(m: nat, n: nat)
    requires Decimal(m) == Decimal(n)
    ensures m == n
  {
    var a, b := Decimal(m), Decimal(n);
    assert a[|a| - 1] == b[|b| - 1];
    DecimalLength(m);
    DecimalLength(n);
    if m >= 10 {
      assert a[..|a| - 1] == Decimal(m / 10) && b[..|b| - 1] == Decimal(n / 10);
      DecimalInjective(m / 10, n / 10);
    }
  }

  lemma DecimalLength(n: nat)
    ensures |Decimal(n)| >= 1
    ensures n < 10 <==> |Decimal(n)| == 1
  {
    assert n >= 10 ==> Decimal(n / 10) != [];
  }

  lemma {:induction false} DecimalIsOneLine(n: nat)
    ensures '\n' !in Decimal(n)
  {
    if n >= 10 {
      DecimalIsOneLine(n / 10);
    }
  }

  ghost predicate CleanParams(keys: seq<string>, m: map<string, string>) {
    forall k :: k in keys ==> k in m && '=' !in k && ';' !in k && ';' !in m[k]
  }

  /** The same for a part that ends at a separator or at the end of the text. */
  lemma CutUniqueOrEnd(a: string, x: string, b: string, y: string, sep: char)
    requires sep !in a && sep !in b
    requires (x == "" || x[0] == sep) && (y == "" || y[0] == sep)
    requires a + x == b + y
    ensures a == b && x == y
  {
    var s := a + x;
    assert forall k :: 0 <= k < |a| ==> s[k] == a[k];
    assert forall k :: 0 <= k < |b| ==> s[k] == b[k];
    assert |a| < |s| ==> s[|a|] == x[0];
    assert |b| < |s| ==> s[|b|] == y[0];
    assert a == s[..|a|] && b == s[..|b|] && x == s[|a|..] && y == s[|b|..];
  }

  function FirstPair(keys: seq<string>, m: map<string, string>): string
    requires keys != [] && keys[0] in m
  {
    keys[0] + "=" + m[keys[0]]
  }

  function LaterPairs(keys: seq<string>, m: map<string, string>): string
    requires keys != [] && forall k :: k in keys ==> k in m
  {
    if |keys| == 1 then "" else ";" + JoinParams(keys[1..], m)
  }

  lemma JoinParamsSplit(keys: seq<string>, m: map<string, string>)
    requires keys != [] && forall k :: k in keys ==> k in m
    ensures JoinParams(keys, m) == FirstPair(keys, m) + LaterPairs(keys, m) != ""
  {
    var pair := FirstPair(keys, m);
    assert pair != "";
    if |keys| > 1 {
      var rest := JoinParams(keys[1..], m);
      assert JoinParams(keys, m) == pair + ";" + rest;
      hide JoinParams;
      Associate(pair, ";", rest);
    }
  }

  lemma FirstPairAgrees(a: seq<string>, m: map<string, string>, b: seq<string>, n: map<string, string>)
    requires a != [] && b != [] && CleanParams(a, m) && CleanParams(b, n)
    requires FirstPair(a, m) + LaterPairs(a, m) == FirstPair(b, n) + LaterPairs(b, n)
    ensures a[0] == b[0] && m[a[0]] == n[b[0]] && LaterPairs(a, m) == LaterPairs(b, n)
  {
    hide JoinParams;
    CutUniqueOrEnd(FirstPair(a, m), LaterPairs(a, m), FirstPair(b, n), LaterPairs(b, n), ';');
    CutUnique(a[0], m[a[0]], b[0], n[b[0]], '=');
  }

  lemma {:induction false} JoinParamsInjective(a: seq<string>, m: map<string, string>,
                                               b: seq<string>, n: map<string, string>)
    requires CleanParams(a, m) && CleanParams(b, n)
    requires JoinParams(a, m) == JoinParams(b, n)
    ensures a == b && forall k :: k in a ==> m[k] == n[k]
  {
    if a != [] {
      JoinParamsSplit(a, m);
    }
    if b != [] {
      JoinParamsSplit(b, n);
    }
    assert JoinParams([], m) == "" && JoinParams([], n) == "";
    hide JoinParams, FirstPair;
    assert a == [] <==> b == [];
    if a != [] {
      FirstPairAgrees(a, m, b, n);
      if |a| > 1 && |b| > 1 {
        Untag(";", JoinParams(a[1..], m), JoinParams(b[1..], n));
        JoinParamsInjective(a[1..], m, b[1..], n);
      }
      assert a == [a[0]] + a[1..] && b == [b[0]] + b[1..];
    }
  }

  lemma {:induction false} JoinParamsIsOneLine(keys: seq<string>, m: map<string, string>)
    requires forall k :: k in keys ==> k in m && '\n' !in k && '\n' !in m[k]
    ensures '\n' !in JoinParams(keys, m)
  {
    if |keys| > 1 {
      JoinParamsIsOneLine(keys[1..], m);
    }
  }

  lemma ParamsTextFacts(m: map<string, string>, order: seq<string>)
    requires Lists(order, m.Keys)
    ensures Elements(SortDedup(order)) == m.Keys
    ensures forall k :: k in SortDedup(order) <==> k in m
  {
    SortDedupIsSorted(order);
    assert forall k :: k in SortDedup(order) <==> k in Elements(SortDedup(order));
  }

  lemma ParamsTextInjective(m: map<string, string>, o: seq<string>, n: map<string, string>, o': seq<string>)
    requires Lists(o, m.Keys) && Lists(o', n.Keys)
    requires forall k :: k in m ==> '=' !in k && ';' !in k && ';' !in m[k]
    requires forall k :: k in n ==> '=' !in k && ';' !in k && ';' !in n[k]
    requires ParamsText(m, o) == ParamsText(n, o')
    ensures m == n
  {
    ParamsTextFacts(m, o);
    ParamsTextFacts(n, o');
    JoinParamsInjective(SortDedup(o), m, SortDedup(o'), n);
  }

  lemma TaggedIsOneLine(tag: string, a: string)
    requires '\n' !in tag && '\n' !in a
    ensures '\n' !in tag + a
  {
  }

  lemma SignedLinesAreLines(c: Command, p: Printer, order: seq<string>)
    requires Faithful(p) && FieldsOnOneLine(c) && Lists(order, c.params.Keys)
    ensures forall s :: s in SignedLines(c, p, order) ==> '\n' !in s
  {
    DecimalIsOneLine(c.ttlSeconds);
    ParamsTextFacts(c.params, order);
    JoinParamsIsOneLine(SortDedup(order), c.params);
    ActionNameIsOneLine(c.action);
    hide Decimal, JoinParams, SortDedup, ActionName;
    TaggedIsOneLine("CMD_ID:", p.uuid(c.commandId));
    TaggedIsOneLine("ACTION:", ActionName(c.action));
    TaggedIsOneLine("TARGET:", c.target);
    TaggedIsOneLine("CAP:", CapabilityText(c.capability));
    TaggedIsOneLine("PARAMS:", ParamsText(c.params, order));
    TaggedIsOneLine("TTL:", Decimal(c.ttlSeconds));
    TaggedIsOneLine("NONCE:", c.nonce);
    TaggedIsOneLine("INCIDENT:", IncidentText(c.incident, p));
    TaggedIsOneLine("ISSUED:", p.stamp(c.issuedAt));
    TaggedIsOneLine("EXPIRES:", p.stamp(c.expiresAt));
  }

  lemma ActionNameIsOneLine(a: Action)
    ensures '\n' !in ActionName(a)
  {
  }

  lemma Untag(tag: string, a: string, b: string)
    requires tag + a == tag + b
    ensures a == b
  {
    assert a == (tag + a)[|tag|..] && b == (tag + b)[|tag|..];
  }

  /** All that the canonical text shows agrees, but for the parameters; a missing capability is shown as "none". */
  predicate SamePrinted(c: Command, d: Command) {
    && c.commandId == d.commandId && c.action == d.action && c.target == d.target
    && CapabilityText(c.capability) == CapabilityText(d.capability) && c.ttlSeconds == d.ttlSeconds
    && c.nonce == d.nonce && c.incident == d.incident && c.issuedAt == d.issuedAt
    && c.expiresAt == d.expiresAt && c.recipe == d.recipe
  }

  lemma SignedLinesShow(c: Command, o: seq<string>, d: Command, o': seq<string>, p: Printer)
    requires Faithful(p) && Lists(o, c.params.Keys) && Lists(o', d.params.Keys)
    requires SignedLines(c, p, o) == SignedLines(d, p, o') && c.recipe == d.recipe
    ensures SamePrinted(c, d) && ParamsText(c.params, o) == ParamsText(d.params, o')
  {
    hide Decimal, ParamsText, ActionName;
    var s, t := SignedLines(c, p, o), SignedLines(d, p, o');
    assert forall i :: 0 <= i < 10 ==> s[i] == t[i];
    Untag("CMD_ID:", p.uuid(c.commandId), p.uuid(d.commandId));
    Untag("ACTION:", ActionName(c.action), ActionName(d.action));
    Untag("TARGET:", c.target, d.target);
    Untag("CAP:", CapabilityText(c.capability), CapabilityText(d.capability));
    Untag("PARAMS:", ParamsText(c.params, o), ParamsText(d.params, o'));
    Untag("TTL:", Decimal(c.ttlSeconds), Decimal(d.ttlSeconds));
    Untag("NONCE:", c.nonce, d.nonce);
    Untag("INCIDENT:", IncidentText(c.incident, p), IncidentText(d.incident, p));
    Untag("ISSUED:", p.stamp(c.issuedAt), p.stamp(d.issuedAt));
    Untag("EXPIRES:", p.stamp(c.expiresAt), p.stamp(d.expiresAt));
    DecimalInjective(c.ttlSeconds, d.ttlSeconds);
    ActionNameInjective(c.action, d.action);
  }

  lemma ActionNameInjective(a: Action, b: Action)
    requires ActionName(a) == ActionName(b)
    ensures a == b
  {
    assert ActionName(a)[..3] == ActionName(b)[..3];
    assert ActionName(a)[7] == ActionName(b)[7];
    assert |ActionName(a)| == |ActionName(b)|;
  }

  /** Delimited commands have one canonical text exactly when they agree in all signed fields, a missing
      capability counting as the capability "none". */
  lemma CanonicalTextDetermines(c: Command, o: seq<string>, d: Command, o': seq<string>, p: Printer)
    requires Faithful(p) && Delimited(c) && Delimited(d)
    requires Lists(o, c.params.Keys) && Lists(o', d.params.Keys)
    ensures CanonicalText(c, p, o) == CanonicalText(d, p, o')
       <==> && SameSigned(c.(capability := None), d.(capability := None))
            && CapabilityText(c.capability) == CapabilityText(d.capability)
  {
    if CanonicalText(c, p, o) == CanonicalText(d, p, o') {
      SignedLinesAreLines(c, p, o);
      SignedLinesAreLines(d, p, o');
      LinesInjective(SignedLines(c, p, o), "RECIPE:" + c.recipe, SignedLines(d, p, o'), "RECIPE:" + d.recipe);
      Untag("RECIPE:", c.recipe, d.recipe);
      SignedLinesShow(c, o, d, o', p);
      ParamsTextInjective(c.params, o, d.params, o');
    }
    if SameSigned(c.(capability := None), d.(capability := None)) {
      CanonicalTextIsDeterministic(c, p, o, o');
    }
  }

  /** So among unambiguous commands the canonical text is injective on the signed fields. */
  lemma CanonicalTextInjective(c: Command, o: seq<string>, d: Command, o': seq<string>, p: Printer)
    requires Faithful(p) && Unambiguous(c) && Unambiguous(d)
    requires Lists(o, c.params.Keys) && Lists(o', d.params.Keys)
    requires CanonicalText(c, p, o) == CanonicalText(d, p, o')
    ensures SameSigned(c, d)
  {
    CanonicalTextDetermines(c, o, d, o', p);
  }

  /** No other delimited command has the text of this one. */
  ghost predicate IsIdentified(c: Command, o: seq<string>, p: Printer)
    requires Lists(o, c.params.Keys)
  {
    forall d, o' :: Delimited(d) && Lists(o', d.params.Keys) && CanonicalText(d, p, o') == CanonicalText(c, p, o) ==>
                      SameSigned(c, d)
  }

  /** A delimited command is the only delimited command with its text exactly when it names a capability other
      than "none". */
  lemma TextIdentifiesIff(c: Command, o: seq<string>, p: Printer)
    requires Faithful(p) && Delimited(c) && Lists(o, c.params.Keys)
    ensures IsIdentified(c, o, p) <==> c.capability.Some? && c.capability != Some("none")
  {
    forall d, o' | Delimited(d) && Lists(o', d.params.Keys) && CanonicalText(d, p, o') == CanonicalText(c, p, o)
      ensures CapabilityText(c.capability) == CapabilityText(d.capability)
      ensures SameSigned(c.(capability := None), d.(capability := None))
    {
      CanonicalTextDetermines(c, o, d, o', p);
    }
    var twin := c.(capability := if c.capability.None? then Some("none") else None);
    if CapabilityText(c.capability) == "none" {
      CanonicalTextDetermines(c, o, twin, o, p);
      assert Delimited(twin) && !SameSigned(c, twin);
    }
  }

  // ---------- Against any reading ----------

  function Occurrences(s: string, c: char): nat {
    if s == "" then 0 else Occurrences(s[1..], c) + (if s[0] == c then 1 else 0)
  }

  lemma {:induction false} OccurrencesConcat(a: string, b: string, c: char)
    ensures Occurrences(a + b, c) == Occurrences(a, c) + Occurrences(b, c)
  {
    if a == "" {
      assert a + b == b;
    } else {
      assert (a + b)[1..] == a[1..] + b;
      OccurrencesConcat(a[1..], b, c);
    }
  }

  lemma {:induction false} NoOccurrence(s: string, c: char)
    ensures Occurrences(s, c) == 0 <==> c !in s
  {
    if s != "" {
      NoOccurrence(s[1..], c);
      assert s == [s[0]] + s[1..];
    }
  }

  /** A text of n + 1 lines has n line breaks exactly when none of the lines contains one. */
  lemma {:induction false} LineBreaksOfLines(lines: seq<string>, last: string)
    ensures Occurrences(Lines(lines, last), '\n') >= |lines|
    ensures Occurrences(Lines(lines, last), '\n') == |lines|
       <==> (forall s :: s in lines ==> '\n' !in s) && '\n' !in last
  {
    NoOccurrence(last, '\n');
    if lines != [] {
      var rest := Lines(lines[1..], last);
      LineBreaksOfLines(lines[1..], last);
      NoOccurrence(lines[0], '\n');
      OccurrencesConcat(lines[0] + "\n", rest, '\n');
      OccurrencesConcat(lines[0], "\n", '\n');
      assert Occurrences("\n", '\n') == 1;
      assert lines == [lines[0]] + lines[1..];
    }
  }

  /** Whatever command is presented under the text of a command without line breaks, it agrees in all that the text
      shows. */
  lemma TextFixesPrinted(c: Command, o: seq<string>, d: Command, o': seq<string>, p: Printer)
    requires Faithful(p) && FieldsOnOneLine(c) && '\n' !in c.recipe
    requires Lists(o, c.params.Keys) && Lists(o', d.params.Keys)
    requires CanonicalText(c, p, o) == CanonicalText(d, p, o')
    ensures SamePrinted(c, d) && ParamsText(c.params, o) == ParamsText(d.params, o')
  {
    SignedLinesAreLines(c, p, o);
    hide SignedLines, Lines, Occurrences, FieldsOnOneLine, ParamsText;
    assert |SignedLines(c, p, o)| == |SignedLines(d, p, o')| == 10 by {
      TenLines(c, p, o);
      TenLines(d, p, o');
    }
    assert '\n' !in "RECIPE:" + c.recipe;
    LineBreaksOfLines(SignedLines(c, p, o), "RECIPE:" + c.recipe);
    LineBreaksOfLines(SignedLines(d, p, o'), "RECIPE:" + d.recipe);
    LinesInjective(SignedLines(c, p, o), "RECIPE:" + c.recipe, SignedLines(d, p, o'), "RECIPE:" + d.recipe);
    Untag("RECIPE:", c.recipe, d.recipe);
    SignedLinesShow(c, o, d, o', p);
  }

  // ---------- When a command is unmistakable ----------

  /** No other command at all has the text of this one. */
  ghost predicate IsUnmistakable(c: Command, o: seq<string>, p: Printer)
    requires Lists(o, c.params.Keys)
  {
    forall d: Command, o' ::
      Lists(o', d.params.Keys) && CanonicalText(d, p, o') == CanonicalText(c, p, o) ==> SameSigned(c, d)
  }

  /** The parameter text has an equals sign for each parameter, and more if keys or values have some. */
  lemma {:induction false} ParamsHaveEquals(keys: seq<string>, m: map<string, string>)
    requires forall k :: k in keys ==> k in m
    ensures Occurrences(JoinParams(keys, m), '=') >= |keys|
    ensures |keys| == 1 ==> JoinParams(keys, m) == keys[0] + "=" + m[keys[0]]
  {
    if keys != [] {
      var pair := keys[0] + "=" + m[keys[0]];
      OccurrencesConcat(keys[0] + "=", m[keys[0]], '=');
      OccurrencesConcat(keys[0], "=", '=');
      assert Occurrences("=", '=') == 1;
      if |keys| > 1 {
        ParamsHaveEquals(keys[1..], m);
        OccurrencesConcat(pair + ";", JoinParams(keys[1..], m), '=');
        OccurrencesConcat(pair, ";", '=');
      }
    }
  }

  /** Where the parameter text has at most one equals sign, only one map has it. */
  lemma FewEqualsAreUnique(m: map<string, string>, o: seq<string>, n: map<string, string>, o': seq<string>)
    requires Lists(o, m.Keys) && Lists(o', n.Keys) && ParamsText(m, o) == ParamsText(n, o')
    requires Occurrences(ParamsText(m, o), '=') <= 1
    ensures m == n
  {
    ParamsTextFacts(m, o);
    ParamsTextFacts(n, o');
    var a, b := SortDedup(o), SortDedup(o');
    ParamsHaveEquals(a, m);
    ParamsHaveEquals(b, n);
    hide SortDedup, Occurrences;
    assert Occurrences("", '=') == 0 by {
      NoOccurrence("", '=');
    }
    assert JoinParams([], m) == "" && JoinParams([], n) == "";
    if |a| == 1 && |b| == 1 {
      OneEqualsCuts(a[0], m[a[0]], b[0], n[b[0]]);
    }
    assert m.Keys == n.Keys;
  }

  lemma OneEqualsCuts(a: string, x: string, b: string, y: string)
    requires a + "=" + x == b + "=" + y && Occurrences(a + "=" + x, '=') <= 1
    ensures a == b && x == y
  {
    OneEqualsLeaves(a, x);
    OneEqualsLeaves(b, y);
    CutUnique(a, x, b, y, '=');
  }

  lemma OneEqualsLeaves(a: string, x: string)
    ensures Occurrences(a + "=" + x, '=') == Occurrences(a, '=') + 1 + Occurrences(x, '=')
    ensures Occurrences(a + "=" + x, '=') <= 1 ==> '=' !in a && '=' !in x
  {
    OccurrencesConcat(a + "=", x, '=');
    OccurrencesConcat(a, "=", '=');
    assert Occurrences("=", '=') == 1;
    NoOccurrence(a, '=');
    NoOccurrence(x, '=');
  }

  lemma {:induction false} FirstEquals(s: string) returns (a: string, x: string)
    requires Occurrences(s, '=') > 0
    ensures s == a + "=" + x && Occurrences(x, '=') == Occurrences(s, '=') - 1
  {
    if s[0] == '=' {
      a, x := "", s[1..];
    } else {
      a, x := FirstEquals(s[1..]);
      a := [s[0]] + a;
    }
  }

  /** Where it has more, another map has the same text. */
  lemma ManyEqualsAreShared(m: map<string, string>, o: seq<string>) returns (n: map<string, string>, o': seq<string>)
    requires Lists(o, m.Keys) && Occurrences(ParamsText(m, o), '=') >= 2
    ensures Lists(o', n.Keys) && ParamsText(n, o') == ParamsText(m, o) && n != m
  {
    var text := ParamsText(m, o);
    hide ParamsText;
    var a, x := FirstEquals(text);
    var b, y := FirstEquals(x);
    var c := a + "=" + b;
    assert text == c + "=" + y;
    SingleParam(a, x);
    SingleParam(c, y);
    assert |c| > |a|;
    assert a in map[a := x] && a !in map[c := y];
    if m == map[a := x] {
      n, o' := map[c := y], [c];
    } else {
      n, o' := map[a := x], [a];
    }
  }

  lemma SingleParam(k: string, v: string)
    ensures Lists([k], map[k := v].Keys) && ParamsText(map[k := v], [k]) == k + "=" + v
  {
    assert SortDedup([k]) == [k];
  }

  lemma SameLinesSameText(c: Command, o: seq<string>, d: Command, o': seq<string>, p: Printer)
    requires Lists(o, c.params.Keys) && Lists(o', d.params.Keys)
    requires SamePrinted(c, d) && ParamsText(c.params, o) == ParamsText(d.params, o')
    ensures CanonicalText(c, p, o) == CanonicalText(d, p, o')
  {
    hide ParamsText, Decimal, ActionName;
  }

  /** The exact condition, against every other command with any text in its fields: a command without line breaks is
      unmistakable exactly when it names a capability other than "none" and its parameters have at most one equals
      sign between them. */
  lemma UnmistakableIff(c: Command, o: seq<string>, p: Printer)
    requires Faithful(p) && FieldsOnOneLine(c) && '\n' !in c.recipe && Lists(o, c.params.Keys)
    ensures IsUnmistakable(c, o, p)
       <==> && c.capability.Some? && c.capability != Some("none")
            && Occurrences(ParamsText(c.params, o), '=') <= 1
  {
    hide ParamsText, CanonicalText, Occurrences, FieldsOnOneLine, Faithful;
    if CapabilityText(c.capability) == "none" {
      var twin := c.(capability := if c.capability.None? then Some("none") else None);
      SameLinesSameText(twin, o, c, o, p);
      assert !SameSigned(c, twin);
    } else if Occurrences(ParamsText(c.params, o), '=') >= 2 {
      var n, o' := ManyEqualsAreShared(c.params, o);
      SameLinesSameText(c.(params := n), o', c, o, p);
      assert !SameSigned(c, c.(params := n));
    } else {
      forall d: Command, o' | Lists(o', d.params.Keys) && CanonicalText(d, p, o') == CanonicalText(c, p, o)
        ensures SameSigned(c, d)
      {
        TextFixesPrinted(c, o, d, o', p);
        FewEqualsAreUnique(c.params, o, d.params, o');
      }
    }
  }

  lemma TenLines(c: Command, p: Printer, o: seq<string>)
    requires Lists(o, c.params.Keys)
    ensures |SignedLines(c, p, o)| == 10
  {
  }

  lemma {:induction false} LinesExtend(lines: seq<string>, last: string, tail: string)
    ensures Lines(lines, last + tail) == Lines(lines, last) + tail
  {
    if lines != [] {
      LinesExtend(lines[1..], last, tail);
    }
  }

  /** The condition on the recipe is needed: with a line break in it, the recipe can hold a second ending of the
      text, and the first ending can be read as part of the target. */
  lemma BrokenRecipeIsAmbiguous(c: Command, o: seq<string>, p: Printer, x: string, y: string)
    requires Lists(o, c.params.Keys)
    ensures var rest := SignedLines(c, p, o)[3..];
            var broken := c.(recipe := x + ("\n" + Lines(rest, "RECIPE:" + y)));
            var other := c.(target := c.target + ("\n" + Lines(rest, "RECIPE:" + x)), recipe := y);
            CanonicalText(broken, p, o) == CanonicalText(other, p, o) && broken.target != other.target
  {
    var s := SignedLines(c, p, o);
    var other := c.(target := c.target + ("\n" + Lines(s[3..], "RECIPE:" + x)), recipe := y);
    RetargetedLines(c, other, p, o, "\n" + Lines(s[3..], "RECIPE:" + x));
    RecipeIsNotInLines(c, p, o, x + ("\n" + Lines(s[3..], "RECIPE:" + y)));
    hide SignedLines, Lines;
    LinesReread(s, SignedLines(other, p, o), "RECIPE:" + x, "RECIPE:" + y);
    Associate("RECIPE:", x, "\n" + Lines(s[3..], "RECIPE:" + y));
  }

  lemma RecipeIsNotInLines(c: Command, p: Printer, o: seq<string>, recipe: string)
    requires Lists(o, c.params.Keys)
    ensures SignedLines(c.(recipe := recipe), p, o) == SignedLines(c, p, o)
  {
  }

  lemma Associate(a: string, b: string, c: string)
    ensures a + (b + c) == a + b + c
  {
  }

  lemma RetargetedLines(c: Command, d: Command, p: Printer, o: seq<string>, more: string)
    requires Lists(o, c.params.Keys) && d == c.(target := c.target + more, recipe := d.recipe)
    ensures |SignedLines(c, p, o)| == |SignedLines(d, p, o)| == 10
    ensures SignedLines(d, p, o) == SignedLines(c, p, o)[2 := SignedLines(c, p, o)[2] + more]
  {
    hide Decimal, ParamsText, ActionName;
    assert "TARGET:" + (c.target + more) == "TARGET:" + c.target + more;
  }

  lemma Regroup(pre: string, c: string, nl: string, f: string, g: string)
    ensures pre + c + nl + (f + (nl + g)) == pre + (c + (nl + f)) + nl + g
  {
  }

  lemma LinesReread(s: seq<string>, t: seq<string>, first: string, second: string)
    requires |s| >= 3 && t == s[2 := s[2] + ("\n" + Lines(s[3..], first))]
    ensures Lines(s, first + ("\n" + Lines(s[3..], second))) == Lines(t, second)
  {
    assert t[3..] == s[3..];
    var f, g := Lines(s[3..], first), Lines(s[3..], second);
    LinesOpenThree(s, first + ("\n" + g));
    LinesOpenThree(t, second);
    LinesExtend(s[3..], first, "\n" + g);
    hide Lines;
    Regroup(s[0] + "\n" + s[1] + "\n", s[2], "\n", f, g);
  }

  lemma LinesOpenThree(s: seq<string>, last: string)
    requires |s| >= 3
    ensures Lines(s, last) == s[0] + "\n" + s[1] + "\n" + s[2] + "\n" + Lines(s[3..], last)
  {
    assert s[1..][1..] == s[2..] && s[2..][1..] == s[3..];
    assert Lines(s[2..], last) == s[2] + "\n" + Lines(s[3..], last);
    assert Lines(s[1..], last) == s[1] + "\n" + Lines(s[2..], last);
  }

  /** Without the conditions the text is ambiguous: the capability "none" reads like no capability, a line break
      moves text from one field to the next, and a ";" in a value reads like a further parameter. */
  lemma CanonicalTextCollisions(c: Command, p: Printer)
    ensures CanonicalText(c.(params := map[], capability := None), p, [])
         == CanonicalText(c.(params := map[], capability := Some("none")), p, [])
    ensures CanonicalText(c.(params := map[], target := "a\nCAP:b", capability := Some("c")), p, [])
         == CanonicalText(c.(params := map[], target := "a", capability := Some("b\nCAP:c")), p, [])
    ensures CanonicalText(c.(params := map["a" := "b;c=d"]), p, ["a"])
         == CanonicalText(c.(params := map["a" := "b", "c" := "d"]), p, ["a", "c"])
  {
    var x, y := c.(params := map[], target := "a\nCAP:b", capability := Some("c")),
      c.(params := map[], target := "a", capability := Some("b\nCAP:c"));
    var s, t := SignedLines(x, p, []), SignedLines(y, p, []);
    LinesShift(s, t, "RECIPE:" + c.recipe);
    ParamsCollide();
  }

  /** Moving a line break from the end of the third line to the fourth does not show. */
  lemma LinesShift(s: seq<string>, t: seq<string>, last: string)
    requires |s| >= 4 && |t| >= 4 && s[..2] == t[..2] && s[4..] == t[4..]
    requires s[2] + "\n" + s[3] == t[2] + "\n" + t[3]
    ensures Lines(s, last) == Lines(t, last)
  {
    LinesOpen(s, last);
    LinesOpen(t, last);
    assert s[0] == s[..2][0] == t[0] && s[1] == s[..2][1] == t[1];
  }

  lemma LinesOpen(s: seq<string>, last: string)
    requires |s| >= 4
    ensures Lines(s, last) == s[0] + "\n" + s[1] + "\n" + (s[2] + "\n" + s[3]) + "\n" + Lines(s[4..], last)
  {
    assert s[1..][1..] == s[2..] && s[2..][1..] == s[3..] && s[3..][1..] == s[4..];
    assert Lines(s[3..], last) == s[3] + "\n" + Lines(s[4..], last);
    assert Lines(s[2..], last) == s[2] + "\n" + Lines(s[3..], last);
    assert Lines(s[1..], last) == s[1] + "\n" + Lines(s[2..], last);
  }

  lemma ParamsCollide()
    ensures ParamsText(map["a" := "b;c=d"], ["a"]) == ParamsText(map["a" := "b", "c" := "d"], ["a", "c"])
  {
    assert SortDedup(["a"]) == ["a"];
    assert SortDedup(["a", "c"]) == ["a", "c"];
  }
}
