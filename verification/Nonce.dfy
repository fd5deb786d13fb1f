/** Errors of command verification, and the tracker that rejects replayed nonces. */
module Nonce {
  import opened Basics

  datatype CryptoError = InvalidPublicKey | InvalidSignature | VerificationFailed
                       | NonceReplayed(nonce: string) | ClockSkew(seconds: nat)

  /** Whole seconds between two instants, without sign: the fraction is cut off. */
  function Skew(a: Time, b: Time): nat {
    (if a >= b then a - b else b - a) / SECOND
  }

  type Nonces = map<string, Time>

  /** The nonces that survive an eviction: those issued after the cutoff. */
  function Retained(seen: Nonces, cutoff: Time): Nonces {
    map n | n in seen && seen[n] > cutoff :: seen[n]
  }

  /** One presentation of a nonce: the nonce, the time the command was issued, and the clock. */
  datatype Showing = Showing(nonce: string, issued: Time, now: Time)

  /** The two settings of a tracker. */
  datatype Limits = Limits(maxSkewSeconds: int, retention: Time)

  /** What a showing is answered. */
  function Verdict(seen: Nonces, l: Limits, s: Showing): Option<CryptoError> {
    if Skew(s.now, s.issued) > l.maxSkewSeconds then Some(ClockSkew(Skew(s.now, s.issued)))
    else if s.nonce in Retained(seen, s.now - l.retention) then Some(NonceReplayed(s.nonce))
    else None
  }

  /** What a showing leaves behind. */
  function Recorded(seen: Nonces, l: Limits, s: Showing): Nonces {
    if Skew(s.now, s.issued) > l.maxSkewSeconds then seen
    else
      var kept := Retained(seen, s.now - l.retention);
      if s.nonce in kept then kept else kept[s.nonce := s.issued]
  }

  class NonceTracker {
    var seenNonces: Nonces
    const limits: Limits

    constructor (maxSkewSeconds: int)
      ensures seenNonces == map[] && limits == Limits(maxSkewSeconds, 900 * SECOND)
    {
      seenNonces := map[];
      limits := Limits(maxSkewSeconds, 900 * SECOND);
    }

    /** None when the nonce is accepted, else the error. */
    method CheckAndRecord(nonce: string, issued: Time, now: Time) returns (error: Option<CryptoError>)
      modifies this
      ensures error == Verdict(old(seenNonces), limits, Showing(nonce, issued, now))
      ensures seenNonces == Recorded(old(seenNonces), limits, Showing(nonce, issued, now))
    {
      var diff := Skew(now, issued);
      if diff > limits.maxSkewSeconds {
        return Some(ClockSkew(diff));
      }
      seenNonces := Retained(seenNonces, now - limits.retention);
      if nonce in seenNonces {
        return Some(NonceReplayed(nonce));
      }
      seenNonces := seenNonces[nonce := issued];
      return None;
    }
  }

  // ---------- Runs ----------

  function Run(l: Limits, h: seq<Showing>): Nonces {
    if h == [] then map[] else Recorded(Run(l, h[..|h| - 1]), l, h[|h| - 1])
  }

  /** Showing i of the run is accepted. */
  predicate Accepted(l: Limits, h: seq<Showing>, i: nat)
    requires i < |h|
  {
    Verdict(Run(l, h[..i]), l, h[i]) == None
  }

  /** The clock never falls by more than slack below an earlier reading. */
  ghost predicate ClockWithin(h: seq<Showing>, slack: Time) {
    forall i, j :: 0 <= i <= j < |h| ==> h[j].now >= h[i].now - slack
  }

  /** How far the clock may fall before replays get through. */
  function Slack(l: Limits): Time {
    l.retention - (l.maxSkewSeconds + 1) * SECOND
  }

  lemma SkewBound(l: Limits, s: Showing)
    requires Skew(s.now, s.issued) <= l.maxSkewSeconds
    ensures -(l.maxSkewSeconds + 1) * SECOND < s.now - s.issued < (l.maxSkewSeconds + 1) * SECOND
  {
  }

  /** An accepted nonce is remembered, until the clock has reached its issue time plus the retention. */
  lemma {:induction false} RememberedOrStale(l: Limits, h: seq<Showing>, i: nat)
    requires i < |h| && Accepted(l, h, i)
    ensures || (h[i].nonce in Run(l, h) && Run(l, h)[h[i].nonce] == h[i].issued)
            || exists k :: i < k < |h| && h[k].now >= h[i].issued + l.retention
    decreases |h|
  {
    var before, last := h[..|h| - 1], h[|h| - 1];
    if i < |before| {
      assert h[..i] == before[..i];
      RememberedOrStale(l, before, i);
      if k :| i < k < |before| && before[k].now >= before[i].issued + l.retention {
        assert h[k] == before[k];
      }
    } else {
      assert h[..i] == before;
    }
  }

  /** Only a clock that has fallen by more than the slack lets a command in twice. */
  lemma ReplayNeedsClockFall(l: Limits, h: seq<Showing>, i: nat, j: nat)
    requires i < j < |h| && h[i].nonce == h[j].nonce && h[i].issued == h[j].issued
    requires Accepted(l, h, i) && Accepted(l, h, j)
    ensures exists k :: i < k <= j && h[k].now - h[j].now > Slack(l)
  {
    SkewBound(l, h[j]);
    assert h[..j][..i] == h[..i];
    RememberedOrStale(l, h[..j], i);
    if k :| i < k < j && h[..j][k].now >= h[i].issued + l.retention {
      assert h[k].now - h[j].now > Slack(l);
    } else {
      assert h[j].now - h[j].now > Slack(l);
    }
  }

  /** Replay protection: while the clock falls by at most the slack, no command is accepted twice. */
  lemma NoReplay(l: Limits, h: seq<Showing>, i: nat, j: nat)
    requires i < j < |h| && h[i].nonce == h[j].nonce && h[i].issued == h[j].issued
    requires ClockWithin(h, Slack(l))
    ensures !(Accepted(l, h, i) && Accepted(l, h, j))
  {
    if Accepted(l, h, i) && Accepted(l, h, j) {
      ReplayNeedsClockFall(l, h, i, j);
    }
  }

  /** With a clock that does not fall, two acceptances of one nonce lie further apart than the slack. */
  lemma ReuseIsFarApart(l: Limits, h: seq<Showing>, i: nat, j: nat)
    requires i < j < |h| && h[i].nonce == h[j].nonce && ClockWithin(h, 0)
    requires Accepted(l, h, i) && Accepted(l, h, j)
    ensures h[j].now - h[i].now > Slack(l)
  {
    SkewBound(l, h[i]);
    assert h[..j][..i] == h[..i];
    RememberedOrStale(l, h[..j], i);
    if k :| i < k < j && h[k].now >= h[i].issued + l.retention {
      assert h[j].now >= h[k].now;
    }
  }

  /** The limits of the agent's guard: 60 seconds of skew, 15 minutes of retention. */
  const GUARD_LIMITS := Limits(60, 900 * SECOND)

  /** The showing that clears the memory, and the replay after the clock has fallen. */
  function ReplayRun(l: Limits, first: string, second: string): seq<Showing> {
    [Showing(first, 0, 0), Showing(second, l.retention, l.retention),
     Showing(first, 0, (l.maxSkewSeconds + 1) * SECOND - 1)]
  }

  /** The slack is sharp for all limits: a clock that falls by one nanosecond more lets a command in twice. */
  lemma SlackIsSharp(l: Limits, first: string, second: string)
    requires l.maxSkewSeconds >= 0 && Slack(l) >= 0 && first != second
    ensures var h := ReplayRun(l, first, second);
            && ClockWithin(h, Slack(l) + 1)
            && Accepted(l, h, 0) && Accepted(l, h, 2)
            && h[0].nonce == h[2].nonce && h[0].issued == h[2].issued
  {
    var h := ReplayRun(l, first, second);
    var a, b, c := h[0], h[1], h[2];
    SkewOfLast(l);
    assert h[..0] == [] && h[..1] == [a] && h[..2] == [a, b] && [a, b][..1] == [a] && [a][..0] == [];
    assert Run(l, [a]) == map[first := 0];
    assert Retained(Run(l, [a]), 0) == map[];
    assert Run(l, [a, b]) == map[second := l.retention];
  }

  lemma SkewOfLast(l: Limits)
    requires l.maxSkewSeconds >= 0
    ensures Skew((l.maxSkewSeconds + 1) * SECOND - 1, 0) == l.maxSkewSeconds
  {
  }

  /** No run on a clock that falls by at most this much accepts a command twice. */
  ghost predicate ReplayFree(l: Limits, slack: Time) {
    forall h: seq<Showing>, i: nat, j: nat ::
      i < j < |h| && ClockWithin(h, slack) && h[i].nonce == h[j].nonce && h[i].issued == h[j].issued
      ==> !(Accepted(l, h, i) && Accepted(l, h, j))
  }

  /** So the slack is exactly how far the clock may fall. */
  lemma ReplayFreeIff(l: Limits, slack: Time)
    requires l.maxSkewSeconds >= 0 && Slack(l) >= 0
    ensures ReplayFree(l, slack) <==> slack <= Slack(l)
  {
    hide Accepted;
    if slack <= Slack(l) {
      forall h: seq<Showing>, i: nat, j: nat
        | i < j < |h| && ClockWithin(h, slack) && h[i].nonce == h[j].nonce && h[i].issued == h[j].issued
        ensures !(Accepted(l, h, i) && Accepted(l, h, j))
      {
        NoReplay(l, h, i, j);
      }
    } else {
      SlackIsSharp(l, "n", "m");
      var h, i: nat, j: nat := ReplayRun(l, "n", "m"), 0, 2;
      assert ClockWithin(h, slack);
      assert i < j < |h| && h[i].nonce == h[j].nonce && h[i].issued == h[j].issued;
    }
  }

  /** The guard's slack is 839 seconds, and one nanosecond more is too much. */
  lemma GuardSlackIsSharp()
    ensures Slack(GUARD_LIMITS) == 839 * SECOND
    ensures var h := ReplayRun(GUARD_LIMITS, "n", "m");
            ClockWithin(h, 839 * SECOND + 1) && Accepted(GUARD_LIMITS, h, 0) && Accepted(GUARD_LIMITS, h, 2)
  {
    SlackIsSharp(GUARD_LIMITS, "n", "m");
  }

  // ---------- What the tracker remembers ----------

  /** Issued within the tolerated skew, to which the fraction of a second is added. */
  predicate InTime(l: Limits, s: Showing) {
    s.issued - (l.maxSkewSeconds + 1) * 1_000_000_000 < s.now < s.issued + (l.maxSkewSeconds + 1) * 1_000_000_000
  }

  /** A nonce is accepted exactly when it is in time and not remembered with an issue time after the cutoff; what is
      wrong otherwise is said. */
  lemma VerdictIff(seen: Nonces, l: Limits, s: Showing)
    ensures Verdict(seen, l, s) == None
       <==> InTime(l, s) && (s.nonce in seen ==> seen[s.nonce] <= s.now - l.retention)
    ensures Verdict(seen, l, s) == Some(NonceReplayed(s.nonce))
       <==> InTime(l, s) && s.nonce in seen && seen[s.nonce] > s.now - l.retention
    ensures !InTime(l, s) ==> Verdict(seen, l, s).Some? && Verdict(seen, l, s).value.ClockSkew?
  {
  }

  /** Showing i was accepted with this nonce and issue time, and no showing in time came late enough to evict it. */
  ghost predicate Keeps(l: Limits, h: seq<Showing>, i: nat, nonce: string, issued: Time)
    requires i < |h|
  {
    && Accepted(l, h, i) && h[i].nonce == nonce && h[i].issued == issued
    && forall k :: i < k < |h| && InTime(l, h[k]) ==> issued > h[k].now - l.retention
  }

  lemma KeepsBefore(l: Limits, h: seq<Showing>, i: nat, nonce: string, issued: Time)
    requires i < |h| - 1
    ensures Keeps(l, h, i, nonce, issued)
       <==> Keeps(l, h[..|h| - 1], i, nonce, issued)
            && (InTime(l, h[|h| - 1]) ==> issued > h[|h| - 1].now - l.retention)
  {
    hide Verdict, InTime;
    assert h[..|h| - 1][..i] == h[..i];
  }

  /** In every run the tracker remembers exactly the nonces it has accepted and not evicted since. */
  lemma {:induction false} RememberedIff(l: Limits, h: seq<Showing>, nonce: string, issued: Time)
    ensures nonce in Run(l, h) && Run(l, h)[nonce] == issued
       <==> exists i :: 0 <= i < |h| && Keeps(l, h, i, nonce, issued)
  {
    if h != [] {
      var before, last := h[..|h| - 1], h[|h| - 1];
      RememberedIff(l, before, nonce, issued);
      VerdictIff(Run(l, before), l, last);
      hide Keeps, InTime, Verdict;
      forall i | 0 <= i < |before|
        ensures Keeps(l, h, i, nonce, issued)
           <==> Keeps(l, before, i, nonce, issued) && (InTime(l, last) ==> issued > last.now - l.retention)
      {
        KeepsBefore(l, h, i, nonce, issued);
      }
      LastKeeps(l, h, nonce, issued);
      RecordedIs(Run(l, before), l, last, nonce);
    }
  }

  lemma LastKeeps(l: Limits, h: seq<Showing>, nonce: string, issued: Time)
    requires h != []
    ensures Keeps(l, h, |h| - 1, nonce, issued)
       <==> && Verdict(Run(l, h[..|h| - 1]), l, h[|h| - 1]) == None
            && h[|h| - 1].nonce == nonce && h[|h| - 1].issued == issued
  {
  }

  lemma RecordedIs(seen: Nonces, l: Limits, s: Showing, nonce: string)
    ensures var after := Recorded(seen, l, s);
            if Verdict(seen, l, s) == None && s.nonce == nonce then nonce in after && after[nonce] == s.issued
            else
              && (nonce in after <==> nonce in seen && (InTime(l, s) ==> seen[nonce] > s.now - l.retention))
              && (nonce in after ==> after[nonce] == seen[nonce])
  {
  }
}
