/** An entity whose name looks like an application is never safe: its edges continue those of some application, or those
    of some application continue its edges. */
module Lookalikes {
  import opened Basics
  import opened Collisions
  import opened EdgeIds
  import opened Graph
  import opened GraphTheorems

  const TARGETS := "-TARGETS-resource:"
  const ORIGINATES := "-ORIGINATES_FROM-host:"

  // ---------- Applications that continue the edges of an entity ----------

  predicate IsBait(m: string) {
    && |m| > 1 && m[0] == '-' && m[1] != 'e'
    && (forall k :: 0 <= k < |m| ==> (m[k] == ':' <==> k == |m| - 1))
    && (forall k :: 0 <= k < |m| - 1 && m[k] == '-' ==> m[k + 1] != 'E')
  }

  /** The name of an application that continues the edges of the entity "app:" + b. */
  function Baited(b: string, m: string): string {
    b + m + seq(|b| + 1, _ => 'x')
  }

  lemma BaitTail(b: string, m: string)
    requires IsBait(m)
    ensures var y := Baited(b, m);
            && y[..|b|] == b && y[|b|..|b| + |m|] == m && y[|b|] == '-' && y[|b| + 1] != 'e'
            && (forall k :: |b| <= k < |y| ==> (y[k] == ':' <==> k == |b| + |m| - 1))
            && (forall k :: |b| <= k < |y| - 1 && y[k] == '-' ==> y[k + 1] != 'E')
  {
    var y := Baited(b, m);
    assert forall k :: 0 <= k < |m| ==> y[|b| + k] == m[k];
    assert forall k :: |b| + |m| <= k < |y| ==> y[k] == 'x';
    forall k | |b| <= k < |y| - 1 && y[k] == '-' ensures y[k + 1] != 'E' {
      assert m[k - |b|] == '-';
    }
  }

  lemma MarkText(y: string, i: nat)
    requires i + 18 <= |y| && y[i..i + 18] == EXPOSES
    ensures y[i] == '-' && y[i + 1] == 'E' && y[i + 9] == 'e'
    ensures forall j :: i < j < i + 18 && y[j] == '-' ==> j == i + 8
  {
    var mark := EXPOSES;
    assert forall k :: 0 < k < 18 && mark[k] == '-' ==> k == 8;
    assert forall k :: 0 <= k < 18 ==> mark[k] == y[i..i + 18][k];
    forall j | i < j < i + 18 && y[j] == '-' ensures j == i + 8 {
      assert mark[j - i] == '-';
    }
  }

  /** The mark of a shorter application lies inside the entity's part of the name. */
  lemma MarkInBait(b: string, m: string, i: nat)
    requires IsBait(m) && i < |Baited(b, m)|
    requires var y := Baited(b, m); Exposure(y[..i]) <= Exposure(y)
    ensures i + 18 <= |b| && b[i..i + 18] == EXPOSES
  {
    hide Exposure, IsBait;
    var y := Baited(b, m);
    ExposedMark(y, i);
    MarkText(y, i);
    BaitTail(b, m);
    hide Baited;
    assert i + 18 <= |b|;
    assert b[i..i + 18] == y[i..i + 18];
  }

  /** The entity "app:" + b continues the edges of some application. */
  ghost predicate ContinuesApp(b: string) {
    exists i :: 0 <= i < |b| && Exposure(b[..i]) <= "app:" + b
  }

  /** Past its mark a name that continues another one repeats its own beginning, up to a colon. */
  lemma NameRepeats(y: string, i: nat)
    requires i < |y| && Exposure(y[..i]) <= Exposure(y) && 18 + 2 * i < |y|
    ensures y[18 + i..18 + 2 * i] == y[..i] && y[18 + 2 * i] == ':'
  {
    var w := y[..i];
    var front := "app:" + w + EXPOSES;
    assert Exposure(w) == front + w + ":";
    assert Exposure(y) == "app:" + y + (EXPOSES + y + ":");
    hide Exposure;
    var long := Exposure(y);
    assert |front| == 22 + i;
    assert long[..|front| + i + 1] == front + w + ":";
    assert long[|front|..|front| + i] == w;
    assert long[|front| + i] == ':';
    assert long[4..4 + |y|] == y;
    assert long[4..4 + |y|][18 + i..18 + 2 * i] == long[|front|..|front| + i];
  }

  lemma ContinuesInside(b: string, i: nat)
    requires 18 + 2 * i < |b| && b[i..i + 18] == EXPOSES && b[18 + i..18 + 2 * i] == b[..i] && b[18 + 2 * i] == ':'
    ensures Exposure(b[..i]) <= "app:" + b
  {
    assert b == b[..i] + b[i..i + 18] + b[18 + i..18 + 2 * i] + ":" + b[18 + 2 * i + 1..];
    assert "app:" + b == Exposure(b[..i]) + b[18 + 2 * i + 1..];
  }

  /** A bait fails only if the name repeats its own beginning in one particular place. */
  lemma BaitFails(b: string, m: string, i: nat)
    requires IsBait(m) && !ContinuesApp(b) && i < |Baited(b, m)|
    requires var y := Baited(b, m); Exposure(y[..i]) <= Exposure(y)
    ensures var d := |b| - i - 18;
            d >= 0 && i == d + |m| - 1 && b[d..i] == m[..|m| - 1]
  {
    MarkInBait(b, m, i);
    var y, d := Baited(b, m), |b| - i - 18;
    NameRepeats(y, i);
    hide Exposure;
    BaitTail(b, m);
    if 18 + 2 * i < |b| {
      assert b[18 + i..18 + 2 * i] == y[18 + i..18 + 2 * i];
      ContinuesInside(b, i);
    }
    hide Baited, IsBait;
    assert 18 + 2 * i == |b| + |m| - 1;
    assert y[..i] == b[..i];
    assert b[..i][d..i] == y[18 + i..18 + 2 * i][d..i] == y[|b|..|b| + |m| - 1];
    assert y[|b|..|b| + |m| - 1] == y[|b|..|b| + |m|][..|m| - 1];
  }

  lemma Baits()
    ensures IsBait(TARGETS) && IsBait(ORIGINATES)
  {
  }

  lemma TargetsFails(b: string) returns (d: nat)
    requires !ContinuesApp(b) && !PlainApp(Baited(b, TARGETS))
    ensures 2 * d + 35 == |b| && b[d] == '-'
  {
    hide Exposure, Baited, IsBait;
    var y := Baited(b, TARGETS);
    var i :| 0 <= i < |y| && Exposure(y[..i]) <= Exposure(y);
    Baits();
    BaitFails(b, TARGETS, i);
    d := |b| - i - 18;
    assert b[d..i][0] == TARGETS[..17][0] == '-';
  }

  lemma OriginatesFails(b: string) returns (d: nat)
    requires !ContinuesApp(b) && !PlainApp(Baited(b, ORIGINATES))
    ensures 2 * d + 39 == |b| && b[d + 2] == 'R'
  {
    hide Exposure, Baited, IsBait;
    var y := Baited(b, ORIGINATES);
    var i :| 0 <= i < |y| && Exposure(y[..i]) <= Exposure(y);
    Baits();
    BaitFails(b, ORIGINATES, i);
    d := |b| - i - 18;
    assert b[d..i][2] == ORIGINATES[..21][2] == 'R';
  }

  /** One of two baits does not fail. */
  lemma SomeBaitWorks(b: string)
    requires !ContinuesApp(b)
    ensures PlainApp(Baited(b, TARGETS)) || PlainApp(Baited(b, ORIGINATES))
  {
    hide *;
    if !PlainApp(Baited(b, TARGETS)) && !PlainApp(Baited(b, ORIGINATES)) {
      var c := TargetsFails(b);
      var d := OriginatesFails(b);
    }
  }

  // ---------- Collisions ----------

  /** Everything but the entity s is plain. */
  ghost predicate PlainBut(e: Event, entity: string, s: string) {
    (entity == s || PlainName(entity)) && (HasEndpoint(e) ==> PlainApp(e.appId))
  }

  /** All edges of an event without an endpoint start at its entity. */
  lemma OneSourceIsApart(e: Event, a: string)
    requires !HasEndpoint(e)
    ensures Apart(EdgesOf(Touches(e, a, [])))
  {
    EventIsRecordable(e, a, []);
    hide Touches, CanRecord, HasEndpoint, EdgeId;
    var edges := EdgesOf(Touches(e, a, []));
    forall t, t' | t in edges && t' in edges && SameId(t, t') ensures t == t' {
      SameLengthSameEdge(t.source, t.relation, t.target, t'.source, t'.relation, t'.target);
    }
  }

  lemma BaitId(b: string, q: Relation, m: string, rest: string)
    requires m == Marker(q) + TargetPrefix(q)
    ensures EdgeId("app:" + b, q, TargetPrefix(q) + rest) == "app:" + b + m + rest
  {
    hide TargetPrefix;
    assert EdgeId("app:" + b, q, TargetPrefix(q) + rest) == "app:" + b + Marker(q) + (TargetPrefix(q) + rest);
  }

  function BaitRest(b: string, m: string): string {
    seq(|b| + 1, _ => 'x') + (EXPOSES + Baited(b, m) + ":")
  }

  lemma BaitExposure(b: string, m: string)
    ensures Exposure(Baited(b, m)) == "app:" + b + m + BaitRest(b, m)
  {
    var y, tail, exposes := Baited(b, m), seq(|b| + 1, _ => 'x'), EXPOSES;
    assert y == b + m + tail;
    hide Baited;
    assert Exposure(y) == "app:" + y + (exposes + y + ":");
    hide Exposure;
    assert "app:" + b + m + (tail + (exposes + y + ":")) == "app:" + (b + m + tail) + (exposes + y + ":");
  }

  /** The entity's edges are continued by those of an application whose name is a working bait. */
  lemma BaitCollides(b: string, q: Relation, m: string) returns (x: Event, k: Touch, n: Touch)
    requires q in {Targets, OriginatesFrom} && m == Marker(q) + TargetPrefix(q)
    ensures !HasEndpoint(x) && Collide(x, "app:" + b, k, Finding(100, Baited(b, m), ""), "e", n)
  {
    var y, s := Baited(b, m), "app:" + b;
    assert |s| < |"app:" + y| && "app:" <= s;
    var u := TargetPrefix(q) + BaitRest(b, m);
    assert TargetPrefix(q) <= u;
    k, n := OnEdge(s, q, u), OnEdge("app:" + y, Exposes, "endpoint:" + y + ":" + "");
    hide *;
    BaitId(b, q, m, BaitRest(b, m));
    BaitExposure(b, m);
    ExposureIsId(y, "");
    assert Exposure(y) + "" == Exposure(y);
    x := BaitEvents(s, q, u, y);
  }

  lemma BaitEvents(s: string, q: Relation, u: string, y: string) returns (x: Event)
    requires "app:" <= s && q in {Targets, OriginatesFrom} && TargetPrefix(q) <= u && |s| < |"app:" + y|
    requires EdgeId(s, q, u) == EdgeId("app:" + y, Exposes, "endpoint:" + y + ":" + "")
    ensures !HasEndpoint(x)
    ensures Collide(x, s, OnEdge(s, q, u), Finding(100, y, ""), "e",
                    OnEdge("app:" + y, Exposes, "endpoint:" + y + ":" + ""))
  {
    hide EdgeId, TargetPrefix, Touches, Apart, EdgesOf;
    x := SimpleProbe(s, q, u);
    OneSourceIsApart(x, s);
    TouchesOfFinding(100, y, "", "e");
    assert Touches(Finding(100, y, ""), "e", [])[5] == OnEdge("app:" + y, Exposes, "endpoint:" + y + ":" + "");
    assert s[0] == 'a' && |s| > 1;
  }

  /** An entity that continues the edges of a plain application collides with it. */
  lemma ContainedCollides(b: string) returns (x: Event, k: Touch, n: Touch)
    requires ContinuesApp(b)
    ensures HasEndpoint(x) ==> PlainApp(x.appId)
    ensures Collide(x, "e", k, Visit(b), "app:" + b, n)
  {
    var i :| 0 <= i < |b| && Exposure(b[..i]) <= "app:" + b;
    hide Exposure;
    if !PlainApp(b[..i]) {
      var j := FirstExposure(b[..i]);
      assert b[..i][..j] == b[..j];
      i := j;
    }
    x, k, n := PlainContained(b, b[..i]);
  }

  lemma PlainContained(b: string, w: string) returns (x: Event, k: Touch, n: Touch)
    requires |w| < |b| && PlainApp(w) && Exposure(w) <= "app:" + b
    ensures x.appId == w && Collide(x, "e", k, Visit(b), "app:" + b, n)
  {
    var s := "app:" + b;
    var id := EdgeId(s, Accesses, s);
    assert s <= id;
    var path := id[|Exposure(w)|..];
    assert id == Exposure(w) + path;
    ExposureIsId(w, path);
    hide PlainEntity, PlainApp, EdgeId, Exposure, Touches, Apart, EdgesOf;
    x := Finding(0, w, path);
    k, n := OnEdge("app:" + w, Exposes, "endpoint:" + w + ":" + path), OnEdge(s, Accesses, s);
    TouchesOfFinding(0, w, path, "e");
    TouchesOfVisit(b, s);
    EasyEntity();
    PlainEventIsApart(x, "e");
    assert Touches(x, "e", [])[5] == k && Touches(Visit(b), s, [])[2] == n;
    assert |k.source| < |s|;
  }

  /** Whatever follows "app:", there are two events with the entity, and otherwise plain names, that collide. */
  lemma LookalikeCollides(s: string) returns (x: Event, a: string, k: Touch, y: Event, b: string, n: Touch)
    requires "app:" <= s
    ensures PlainBut(x, a, s) && PlainBut(y, b, s) && Collide(x, a, k, y, b, n)
  {
    var rest := s[4..];
    assert s == "app:" + rest;
    EasyEntity();
    hide Collide, PlainEntity, PlainApp, ContinuesApp, Baited;
    if ContinuesApp(rest) {
      x, k, n := ContainedCollides(rest);
      a, y, b := "e", Visit(rest), s;
    } else {
      SomeBaitWorks(rest);
      a, b := s, "e";
      if PlainApp(Baited(rest, TARGETS)) {
        assert Marker(Targets) + TargetPrefix(Targets) == TARGETS;
        x, k, n := BaitCollides(rest, Targets, TARGETS);
        y := Finding(100, Baited(rest, TARGETS), "");
      } else {
        assert Marker(OriginatesFrom) + TargetPrefix(OriginatesFrom) == ORIGINATES;
        x, k, n := BaitCollides(rest, OriginatesFrom, ORIGINATES);
        y := Finding(100, Baited(rest, ORIGINATES), "");
      }
    }
  }
}
