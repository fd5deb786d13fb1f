/** Edge ids are glued together from source, relation and target. When do they tell edges apart? */
module EdgeIds {
  import opened Basics
  import opened Capabilities
  import opened Graph

  function Marker(r: Relation): string {
    "-" + Name(r) + "-"
  }

  /** What the ids of a relation's targets begin with. */
  function TargetPrefix(r: Relation): string {
    match r
    case AuthenticatesOn => "app:"
    case Accesses => "app:"
    case Probed => "endpoint:"
    case Calls => "endpoint:"
    case Exposes => "endpoint:"
    case Targets => "resource:"
    case Exercises => "capability:"
    case OriginatesFrom => "host:"
  }

  /** The edges that events record: a call names an application and an endpoint, an application exposes its own
      endpoints, and only known capabilities are exercised. */
  predicate CanRecord(s: string, r: Relation, t: string) {
    && TargetPrefix(r) <= t
    && (r == Calls || r == Probed ==> ':' in t[|"endpoint:"|..])
    && (r == Exposes ==> "app:" <= s && "endpoint:" + s[|"app:"|..] + ":" <= t)
    && (r == Exercises ==> exists c :: t == "capability:" + CapabilityName(c))
  }

  /** At i the name of an entity continues like an edge of the part before i. */
  predicate MarkAt(s: string, i: nat, q: Relation)
    requires i <= |s|
  {
    q != Exercises && q != Exposes && Marker(q) + TargetPrefix(q) <= s[i..]
  }

  predicate PlainEntity(s: string) {
    forall i, q :: 0 <= i <= |s| ==> !MarkAt(s, i, q)
  }

  /** What the ids of the edges from an application to its endpoints begin with. */
  function Exposure(y: string): string {
    "app:" + y + "-EXPOSES-endpoint:" + y + ":"
  }

  /** The edges of the application do not continue those of one with a shorter name. */
  predicate PlainApp(y: string) {
    forall i :: 0 <= i < |y| ==> !(Exposure(y[..i]) <= Exposure(y))
  }

  /** Applications expose; all other edges start at an entity, whose name does not look like an application. */
  predicate Usual(s: string, r: Relation) {
    "app:" <= s <==> r == Exposes
  }

  predicate Plain(s: string, r: Relation)
    requires Usual(s, r)
  {
    if r == Exposes then PlainApp(s[|"app:"|..]) else PlainEntity(s)
  }

  predicate Undashed(s: string) {
    forall i :: 0 <= i < |s| ==> s[i] != '-'
  }

  predicate Upper(c: char) {
    'A' <= c <= 'Z'
  }

  lemma Shapes(r: Relation)
    ensures |Name(r)| >= 5 && Upper(Name(r)[0]) && Undashed(Name(r))
    ensures |TargetPrefix(r)| >= 4 && !Upper(TargetPrefix(r)[0]) && Undashed(TargetPrefix(r))
  {
  }

  lemma NameInjective(r: Relation, r': Relation)
    requires Name(r) == Name(r')
    ensures r == r'
  {
    assert |Name(r)| == |Name(r')|;
    assert Name(r)[0] == Name(r')[0] && Name(r)[1] == Name(r')[1];
  }

  lemma CapabilityIsUndashed(c: Capability)
    ensures Undashed("capability:" + CapabilityName(c))
  {
    assert Undashed("capability:") && Undashed(CapabilityName(c));
  }

  /** Where two ids agree, the marker of the shorter source does not run across the end of the longer one. */
  lemma NoMarkerAcross(s: string, name: string, t: string, a: string, inner: string, u: string, prefix: string)
    requires Undashed(name) && Undashed(inner) && Undashed(prefix) && prefix <= u
    requires name != "" && prefix != "" && Upper(name[0]) && !Upper(prefix[0])
    requires s + "-" + name + "-" + t == a + "-" + inner + "-" + u && |a| < |s|
    ensures ("-" + inner + "-") + prefix <= s[|a|..] && a == s[..|a|]
  {
    var text, mark, m := s + "-" + name + "-" + t, ("-" + inner + "-") + prefix, |inner| + 2;
    assert forall j :: |a| <= j < |a| + |mark| ==> text[j] == mark[j - |a|];
    assert text[|s|] == '-' && text[|s| + 1] == name[0];
    assert mark[m] == prefix[0];
    assert forall j :: 0 < j < |mark| && j != m - 1 ==> mark[j] != '-';
    assert forall j :: 0 <= j < |s| ==> text[j] == s[j];
    assert forall j :: 0 <= j < |a| ==> text[j] == a[j];
    assert |s| >= |a| + |mark|;
    assert s[|a|..][..|mark|] == mark;
  }

  lemma MarkerIsInside(s: string, r: Relation, t: string, a: string, q: Relation, u: string)
    requires TargetPrefix(q) <= u && EdgeId(s, r, t) == EdgeId(a, q, u) && |a| < |s|
    ensures Marker(q) + TargetPrefix(q) <= s[|a|..] && a == s[..|a|]
  {
    hide Name, TargetPrefix;
    Shapes(r);
    Shapes(q);
    NoMarkerAcross(s, Name(r), t, a, Name(q), u, TargetPrefix(q));
  }

  lemma TargetHasDash(s: string, r: Relation, t: string, a: string, q: Relation, u: string)
    requires EdgeId(s, r, t) == EdgeId(a, q, u) && |a| + |Marker(q)| <= |s|
    ensures !Undashed(u)
  {
    hide Name;
    var text, k := EdgeId(s, r, t), |s| - |a| - |Marker(q)|;
    assert text[|s|] == '-';
    assert text == a + "-" + Name(q) + "-" + u;
    assert text[|s|] == u[k];
  }

  /** An edge that shares its id with an edge of a shorter source has the mark of that edge in its source. */
  lemma ShorterSourceMarks(s: string, r: Relation, t: string, a: string, q: Relation, u: string)
    requires |a| < |s| && CanRecord(a, q, u) && q != Exposes && EdgeId(s, r, t) == EdgeId(a, q, u)
    ensures MarkAt(s, |a|, q)
  {
    hide Name, TargetPrefix, EdgeId, CapabilityName;
    MarkerIsInside(s, r, t, a, q, u);
    TargetHasDash(s, r, t, a, q, u);
    hide Undashed;
    if c :| u == "capability:" + CapabilityName(c) {
      CapabilityIsUndashed(c);
    }
  }

  /** Of the sources of two edges with one id, either both look like applications or none does. */
  lemma AlikeSources(s: string, r: Relation, t: string, a: string, q: Relation, u: string)
    requires |a| < |s| && TargetPrefix(q) <= u && EdgeId(s, r, t) == EdgeId(a, q, u)
    ensures "app:" <= s <==> "app:" <= a
    ensures a == s[..|a|]
  {
    MarkerIsInside(s, r, t, a, q, u);
    hide Name, TargetPrefix, EdgeId;
    assert s[|a|] == (Marker(q) + TargetPrefix(q))[0] == '-';
    assert "app:" <= s ==> |s| >= 4 && s[0] == 'a' && s[1] == 'p' && s[2] == 'p' && s[3] == ':';
  }

  lemma ExposureIsId(y: string, path: string)
    ensures var t := "endpoint:" + y + ":" + path;
            CanRecord("app:" + y, Exposes, t) && EdgeId("app:" + y, Exposes, t) == Exposure(y) + path
  {
    assert ("app:" + y)[4..] == y;
  }

  lemma ExposureId(y: string, t: string)
    requires CanRecord("app:" + y, Exposes, t)
    ensures Exposure(y) <= EdgeId("app:" + y, Exposes, t)
  {
    assert ("app:" + y)[4..] == y;
    var n := |"endpoint:" + y + ":"|;
    assert t == "endpoint:" + y + ":" + t[n..];
    hide *;
    ExposureIsId(y, t[n..]);
  }

  lemma ShorterApp(y: string, t: string, z: string, u: string)
    requires |z| < |y| && CanRecord("app:" + y, Exposes, t) && CanRecord("app:" + z, Exposes, u)
    requires EdgeId("app:" + y, Exposes, t) == EdgeId("app:" + z, Exposes, u)
    ensures z == y[..|z|] && Exposure(z) <= Exposure(y)
  {
    ExposureId(y, t);
    ExposureId(z, u);
    AlikeSources("app:" + y, Exposes, t, "app:" + z, Exposes, u);
    hide CanRecord, EdgeId;
    assert ("app:" + y)[..|"app:" + z|] == "app:" + y[..|z|];
    assert z == ("app:" + z)[4..] == y[..|z|];
  }

  /** An edge that shares its id with one of a shorter source has an odd source. */
  lemma ShorterSourceIsOdd(s: string, r: Relation, t: string, a: string, q: Relation, u: string)
    requires Usual(s, r) && Usual(a, q) && |a| < |s|
    requires CanRecord(s, r, t) && CanRecord(a, q, u) && EdgeId(s, r, t) == EdgeId(a, q, u)
    ensures !Plain(s, r)
  {
    AlikeSources(s, r, t, a, q, u);
    hide CanRecord, EdgeId, MarkAt, Exposure;
    if r == Exposes {
      var y, z := s[4..], a[4..];
      assert s == "app:" + y && a == "app:" + z;
      ShorterApp(y, t, z, u);
      assert Exposure(y[..|z|]) <= Exposure(y);
    } else {
      ShorterSourceMarks(s, r, t, a, q, u);
    }
  }

  lemma NoShorterSource(s: string, r: Relation, t: string, a: string, q: Relation, u: string)
    requires Usual(s, r) && Plain(s, r) && Usual(a, q)
    requires CanRecord(s, r, t) && CanRecord(a, q, u) && EdgeId(s, r, t) == EdgeId(a, q, u)
    ensures |a| >= |s|
  {
    hide *;
    if |a| < |s| {
      ShorterSourceIsOdd(s, r, t, a, q, u);
    }
  }

  /** Edge ids tell apart all edges that events record between plain sources and anything. */
  lemma EdgeIdInjective(s: string, r: Relation, t: string, s': string, r': Relation, t': string)
    requires Usual(s, r) && Plain(s, r) && Usual(s', r') && Plain(s', r') && CanRecord(s, r, t) && CanRecord(s', r', t')
    requires EdgeId(s, r, t) == EdgeId(s', r', t')
    ensures s == s' && r == r' && t == t'
  {
    hide *;
    NoShorterSource(s, r, t, s', r', t');
    NoShorterSource(s', r', t', s, r, t);
    SameLengthSameEdge(s, r, t, s', r', t');
  }

  lemma SameLengthSameEdge(s: string, r: Relation, t: string, s': string, r': Relation, t': string)
    requires |s| == |s'| && EdgeId(s, r, t) == EdgeId(s', r', t')
    ensures s == s' && r == r' && t == t'
  {
    Shapes(r);
    Shapes(r');
    hide Name;
    var text := EdgeId(s, r, t);
    assert s == text[..|s|] && s' == text[..|s|];
    assert Name(r) + "-" + t == text[|s| + 1..];
    assert Name(r') + "-" + t' == text[|s| + 1..];
    CutUnique(Name(r), t, Name(r'), t', '-');
    NameInjective(r, r');
  }

  /** Some edge of the source, for this relation, shares its id with an edge of a shorter source. */
  ghost predicate SharesId(s: string, r: Relation) {
    exists t, a, q, u :: Shares(s, r, t, a, q, u)
  }

  predicate Shares(s: string, r: Relation, t: string, a: string, q: Relation, u: string) {
    && |a| < |s| && Usual(a, q) && CanRecord(s, r, t) && CanRecord(a, q, u) && EdgeId(s, r, t) == EdgeId(a, q, u)
  }

  function SomeTarget(r: Relation): string {
    if r == Exercises then "capability:" + CapabilityName(DatabaseRead) else TargetPrefix(r) + ":"
  }

  lemma SomeTargetIsRecorded(s: string, r: Relation)
    requires r != Exposes
    ensures CanRecord(s, r, SomeTarget(r)) && ':' in SomeTarget(r)
  {
    assert SomeTarget(r)[|TargetPrefix(r)| - 1] == ':';
    if r == Calls || r == Probed {
      assert SomeTarget(r)[9..] == ":";
    }
  }

  /** What follows the marker moves from the source to the target. */
  lemma MarkerMoves(a: string, q: Relation, b: string, r: Relation, t: string)
    ensures EdgeId(a + Marker(q) + b, r, t) == EdgeId(a, q, b + Marker(r) + t)
  {
    hide Name;
  }

  lemma MarkSplits(s: string, i: nat, q: Relation)
    requires i <= |s| && Marker(q) + TargetPrefix(q) <= s[i..]
    ensures i + |Marker(q)| <= |s| && s == s[..i] + Marker(q) + s[i + |Marker(q)|..]
    ensures TargetPrefix(q) <= s[i + |Marker(q)|..]
  {
    hide Name, TargetPrefix;
    var m, p := Marker(q), TargetPrefix(q);
    assert s[i..][..|m + p|] == m + p;
    assert s[i..i + |m|] == m;
    assert s[i + |m|..][..|p|] == p;
  }

  lemma MarkShares(s: string, i: nat, q: Relation, r: Relation, t: string)
    requires i <= |s| && MarkAt(s, i, q) && ':' in t
    ensures i + |Marker(q)| <= |s|
    ensures var a, u := s[..i], s[i + |Marker(q)|..] + Marker(r) + t;
            |a| < |s| && CanRecord(a, q, u) && ':' in u[|TargetPrefix(q)|..] && EdgeId(s, r, t) == EdgeId(a, q, u)
  {
    hide Name, TargetPrefix;
    MarkSplits(s, i, q);
    MarkerMoves(s[..i], q, s[i + |Marker(q)|..], r, t);
    hide EdgeId;
    var b, p := s[i + |Marker(q)|..], TargetPrefix(q);
    var u := b + Marker(r) + t;
    ColonStays(b[|p|..] + Marker(r), t);
    assert u[|p|..] == b[|p|..] + Marker(r) + t;
    Shapes(q);
    if q == Calls || q == Probed {
      assert p == "endpoint:" by {
        EndpointPrefix(q);
      }
    }
  }

  lemma EndpointPrefix(q: Relation)
    requires q == Calls || q == Probed
    ensures TargetPrefix(q) == "endpoint:"
  {
  }

  lemma ColonStays(b: string, t: string)
    requires ':' in t
    ensures ':' in b + t
  {
    var k :| 0 <= k < |t| && t[k] == ':';
    assert (b + t)[|b| + k] == ':';
  }

  /** Two applications of which the edges of one continue those of the other share ids. */
  lemma ExposureShares(y: string, z: string)
    requires |z| < |y| && Exposure(z) <= Exposure(y)
    ensures var t, u := "endpoint:" + y + ":", "endpoint:" + z + ":" + Exposure(y)[|Exposure(z)|..];
            Shares("app:" + y, Exposes, t, "app:" + z, Exposes, u)
  {
    hide CanRecord, EdgeId, Exposure;
    ExposureIsId(y, "");
    ExposureIsId(z, Exposure(y)[|Exposure(z)|..]);
    assert "endpoint:" + y + ":" + "" == "endpoint:" + y + ":";
    assert Exposure(y) + "" == Exposure(z) + Exposure(y)[|Exposure(z)|..];
  }

  lemma OddAppShares(y: string)
    requires !PlainApp(y)
    ensures SharesId("app:" + y, Exposes)
  {
    hide Exposure, Shares;
    var i :| 0 <= i < |y| && Exposure(y[..i]) <= Exposure(y);
    ExposureShares(y, y[..i]);
  }

  lemma OddEntityShares(s: string, r: Relation)
    requires !PlainEntity(s) && Usual(s, r) && r != Exposes
    ensures SharesId(s, r)
  {
    hide MarkAt, CanRecord, EdgeId, SomeTarget;
    var i, q :| 0 <= i <= |s| && MarkAt(s, i, q);
    SomeTargetIsRecorded(s, r);
    MarkShares(s, i, q, r, SomeTarget(r));
    MarkIsNoExposure(s, i, q);
    assert Shares(s, r, SomeTarget(r), s[..i], q, s[i + |Marker(q)|..] + Marker(r) + SomeTarget(r));
  }

  /** The exact condition: the edges of a source have ids of their own exactly when the source is plain. */
  lemma PlainIff(s: string, r: Relation)
    requires Usual(s, r)
    ensures Plain(s, r) <==> !SharesId(s, r)
  {
    if Plain(s, r) && SharesId(s, r) {
      hide CanRecord, EdgeId, Plain;
      var t, a, q, u :| Shares(s, r, t, a, q, u);
      NoShorterSource(s, r, t, a, q, u);
    }
    if !Plain(s, r) {
      hide SharesId, PlainEntity, PlainApp;
      if r == Exposes {
        OddAppShares(s[4..]);
        assert s == "app:" + s[4..];
      } else {
        OddEntityShares(s, r);
      }
    }
  }

  lemma MarkIsNoExposure(s: string, i: nat, q: Relation)
    requires i <= |s| && MarkAt(s, i, q)
    ensures q != Exposes && ("app:" <= s[..i] ==> "app:" <= s)
  {
    hide Name, TargetPrefix;
  }

  /** An entity that is not plain has a first mark, before which it is plain. */
  lemma {:induction false} FirstMark(s: string) returns (i: nat, q: Relation)
    requires !PlainEntity(s)
    ensures i <= |s| && MarkAt(s, i, q) && PlainEntity(s[..i])
    decreases |s|
  {
    i, q :| 0 <= i <= |s| && MarkAt(s, i, q);
    MarkIsInside(s, i, q);
    hide MarkAt;
    if !PlainEntity(s[..i]) {
      var j, p := FirstMark(s[..i]);
      MarkInPrefix(s, i, j, p);
      i, q := j, p;
    }
  }

  lemma MarkIsInside(s: string, i: nat, q: Relation)
    requires i <= |s| && MarkAt(s, i, q)
    ensures i < |s|
  {
  }

  lemma MarkInPrefix(s: string, i: nat, j: nat, q: Relation)
    requires j <= i <= |s| && MarkAt(s[..i], j, q)
    ensures MarkAt(s, j, q) && s[..i][..j] == s[..j]
  {
    hide Name, TargetPrefix;
    var mark := Marker(q) + TargetPrefix(q);
    assert s[..i][j..][..|mark|] == s[j..][..|mark|];
    assert s[..i][..j] == s[..j];
  }

  /** An application that is not plain continues the edges of a plain one. */
  lemma {:induction false} FirstExposure(y: string) returns (i: nat)
    requires !PlainApp(y)
    ensures i < |y| && Exposure(y[..i]) <= Exposure(y) && PlainApp(y[..i])
    decreases |y|
  {
    hide Exposure;
    i :| 0 <= i < |y| && Exposure(y[..i]) <= Exposure(y);
    if !PlainApp(y[..i]) {
      var j := FirstExposure(y[..i]);
      assert y[..i][..j] == y[..j];
      i := j;
    }
  }

  const EXPOSES := "-EXPOSES-endpoint:"

  /** The mark of the application whose edges a name continues. */
  lemma ExposedMark(y: string, i: nat)
    requires i < |y| && Exposure(y[..i]) <= Exposure(y)
    ensures i + 18 <= |y| && y[i..i + 18] == EXPOSES
  {
    ExposureShares(y, y[..i]);
    var s, a := "app:" + y, "app:" + y[..i];
    hide Exposure, CanRecord;
    MarkerIsInside(s, Exposes, "endpoint:" + y + ":", a, Exposes,
                   "endpoint:" + y[..i] + ":" + Exposure(y)[|Exposure(y[..i])|..]);
    assert Marker(Exposes) + TargetPrefix(Exposes) == EXPOSES;
    assert s[|a|..] == y[i..];
    assert y[i..][..18] == EXPOSES;
  }

  lemma ExposedColon(y: string, i: nat)
    requires i < |y| && Exposure(y[..i]) <= Exposure(y)
    ensures ':' in y
  {
    hide Exposure;
    ExposedMark(y, i);
    assert y[i..i + 18][17] == EXPOSES[17] == ':';
    assert y[i + 17] == ':';
  }

  /** An application without a colon in its name is plain. */
  lemma ColonFreeIsPlain(y: string)
    requires ':' !in y
    ensures PlainApp(y)
  {
    hide Exposure;
    forall i | 0 <= i < |y| ensures !(Exposure(y[..i]) <= Exposure(y)) {
      if Exposure(y[..i]) <= Exposure(y) {
        ExposedColon(y, i);
      }
    }
  }
}
