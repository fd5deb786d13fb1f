/** The in-memory hot state: sliding windows of hits, sets of distinct items with expiry, and risk scores with
    expiry. Each store forgets as it goes; each must answer as if it had kept everything. */
module HotState {
  import opened Basics

  function SaturatingSub(a: I64, b: I64): I64 {
    if a - b < MIN_I64 then MIN_I64 else if a - b > MAX_I64 then MAX_I64 else a - b
  }

  type Windows = map<string, seq<I64>>
  type DistinctSets = map<string, map<string, int>>
  type Risks = map<string, (U32, int)>

  function WindowOf(m: Windows, key: string): seq<I64> {
    if key in m then m[key] else []
  }

  /** The deque without the hits at its front that are older than the cutoff. */
  function DropOld(d: seq<I64>, cutoff: int): seq<I64> {
    if d == [] || d[0] >= cutoff then d else DropOld(d[1..], cutoff)
  }

  function AfterHit(m: Windows, key: string, at: I64, window: I64): Windows {
    m[key := DropOld(WindowOf(m, key), SaturatingSub(at, window)) + [at]]
  }

  /** How many of the times lie between two bounds, both included. */
  function CountBetween(times: seq<I64>, low: int, high: int): nat {
    if times == [] then 0
    else CountBetween(times[..|times| - 1], low, high) + (if low <= times[|times| - 1] <= high then 1 else 0)
  }

  function SetOf(m: DistinctSets, key: string): map<string, int> {
    if key in m then m[key] else map[]
  }

  function Unexpired(s: map<string, int>, now: int): map<string, int> {
    map x | x in s && s[x] > now :: s[x]
  }

  /** The time to live is what the 64 bits of the caller's number mean with a sign. */
  function AfterDistinct(m: DistinctSets, key: string, item: string, ttlSecs: int, now: int): DistinctSets {
    m[key := Unexpired(SetOf(m, key), now)[item := now + ttlSecs * 1000]]
  }

  function RiskAt(m: Risks, entity: string, now: int): U32 {
    if entity in m && m[entity].1 > now then m[entity].0 else 0
  }

  function AfterRisk(m: Risks, entity: string, points: U32, ttlSecs: int, now: int): Risks {
    var entry := if entity in m then m[entity] else (0, now + ttlSecs * 1000);
    m[entity := (if entry.1 <= now then points else SaturatingAdd(entry.0, points), now + ttlSecs * 1000)]
  }

  class MemoryHotState {
    var slidingWindows: Windows
    var distinctSets: DistinctSets
    var entityRisks: Risks

    constructor ()
      ensures slidingWindows == map[] && distinctSets == map[] && entityRisks == map[]
    {
      slidingWindows, distinctSets, entityRisks := map[], map[], map[];
    }

    method RecordHit(key: string, at: I64, window: I64) returns (count: nat)
      modifies this`slidingWindows
      ensures slidingWindows == AfterHit(old(slidingWindows), key, at, window)
      ensures count == |slidingWindows[key]|
    {
      var deque := WindowOf(slidingWindows, key);
      var cutoff := SaturatingSub(at, window);
      while deque != [] && deque[0] < cutoff
        invariant DropOld(deque, cutoff) == DropOld(WindowOf(old(slidingWindows), key), cutoff)
        decreases |deque|
      {
        deque := deque[1..];
      }
      deque := deque + [at];
      slidingWindows := slidingWindows[key := deque];
      count := |deque|;
    }

    method CountInWindow(key: string, window: I64, now: I64) returns (count: nat)
      ensures count == CountBetween(WindowOf(slidingWindows, key), SaturatingSub(now, window), now)
    {
      var deque, cutoff := WindowOf(slidingWindows, key), SaturatingSub(now, window);
      count := 0;
      for i := 0 to |deque|
        invariant count == CountBetween(deque[..i], cutoff, now)
      {
        assert deque[..i + 1][..i] == deque[..i];
        if deque[i] >= cutoff && deque[i] <= now {
          count := count + 1;
        }
      }
      assert deque[..|deque|] == deque;
    }

    method RecordDistinct(key: string, item: string, ttlSecs: int, now: int) returns (count: nat)
      modifies this`distinctSets
      ensures distinctSets == AfterDistinct(old(distinctSets), key, item, ttlSecs, now)
      ensures count == |distinctSets[key]|
    {
      var s := Unexpired(SetOf(distinctSets, key), now);
      s := s[item := now + ttlSecs * 1000];
      distinctSets := distinctSets[key := s];
      count := |s|;
    }

    method CountDistinct(key: string, now: int) returns (count: nat)
      ensures count == |Unexpired(SetOf(distinctSets, key), now)|
    {
      var s := SetOf(distinctSets, key);
      var todo := s.Keys;
      count := 0;
      ghost var counted: map<string, int> := map[];
      while todo != {}
        invariant todo <= s.Keys
        invariant counted == (map x | x in s && x !in todo && s[x] > now :: s[x])
        invariant count == |counted|
        decreases todo
      {
        var x :| x in todo;
        if s[x] > now {
          count := count + 1;
          counted := counted[x := s[x]];
        }
        todo := todo - {x};
      }
      assert counted == Unexpired(s, now);
    }

    method GetEntityRisk(entity: string, now: int) returns (risk: U32)
      ensures risk == RiskAt(entityRisks, entity, now)
    {
      if entity in entityRisks {
        var entry := entityRisks[entity];
        if entry.1 > now {
          return entry.0;
        }
      }
      return 0;
    }

    method AddEntityRisk(entity: string, points: U32, ttlSecs: int, now: int) returns (risk: U32)
      modifies this`entityRisks
      ensures entityRisks == AfterRisk(old(entityRisks), entity, points, ttlSecs, now)
      ensures risk == entityRisks[entity].0
    {
      var expiry := now + ttlSecs * 1000;
      var entry := if entity in entityRisks then entityRisks[entity] else (0, expiry);
      if entry.1 <= now {
        entry := (points, entry.1);
      } else {
        entry := (SaturatingAdd(entry.0, points), entry.1);
      }
      entry := (entry.0, expiry);
      entityRisks := entityRisks[entity := entry];
      risk := entry.0;
    }

    method ResetKey(key: string)
      modifies this
      ensures slidingWindows == old(slidingWindows) - {key}
      ensures distinctSets == old(distinctSets) - {key}
      ensures entityRisks == old(entityRisks) - {key}
    {
      slidingWindows := slidingWindows - {key};
      distinctSets := distinctSets - {key};
      entityRisks := entityRisks - {key};
    }
  }

  // ---------- Sliding windows ----------

  datatype HitOp = Hit(key: string, at: I64, window: I64) | ResetHits(key: string)

  function HitStep(m: Windows, op: HitOp): Windows {
    match op
    case Hit(key, at, window) => AfterHit(m, key, at, window)
    case ResetHits(key) => m - {key}
  }

  function HitRun(ops: seq<HitOp>): Windows {
    if ops == [] then map[] else HitStep(HitRun(ops[..|ops| - 1]), ops[|ops| - 1])
  }

  /** All hits ever recorded under a key since it was last reset. */
  function HitsOf(ops: seq<HitOp>, key: string): seq<I64> {
    if ops == [] then []
    else
      var before := HitsOf(ops[..|ops| - 1], key);
      match ops[|ops| - 1]
      case Hit(k, at, _) => if k == key then before + [at] else before
      case ResetHits(k) => if k == key then [] else before
  }

  predicate Ordered(times: seq<I64>) {
    forall i, j :: 0 <= i <= j < |times| ==> times[i] <= times[j]
  }

  /** All hits of a key are recorded with one window. */
  predicate OneWindow(ops: seq<HitOp>, key: string, window: I64) {
    forall i :: 0 <= i < |ops| && ops[i].Hit? && ops[i].key == key ==> ops[i].window == window
  }

  lemma {:induction false} DropOldTwice(d: seq<I64>, a: int, b: int)
    requires a <= b
    ensures DropOld(DropOld(d, a), b) == DropOld(d, b)
  {
    if d != [] && d[0] < a {
      DropOldTwice(d[1..], a, b);
    }
  }

  lemma {:induction false} DropOldAppend(d: seq<I64>, x: I64, cutoff: int)
    requires x >= cutoff
    ensures DropOld(d + [x], cutoff) == DropOld(d, cutoff) + [x]
  {
    if d != [] && d[0] < cutoff {
      assert (d + [x])[1..] == d[1..] + [x];
      DropOldAppend(d[1..], x, cutoff);
    }
  }

  /** In an ordered list, what is left after dropping are exactly the hits from the cutoff on. */
  lemma {:induction false} DropOldCounts(d: seq<I64>, cutoff: int, low: int, high: int)
    requires Ordered(d) && cutoff <= low
    ensures CountBetween(DropOld(d, cutoff), low, high) == CountBetween(d, low, high)
    ensures low == cutoff && (d != [] ==> d[|d| - 1] <= high) ==> CountBetween(d, low, high) == |DropOld(d, cutoff)|
  {
    if d == [] {
    } else if d[0] >= cutoff {
      AllBetween(d, cutoff, high);
    } else {
      DropOldCounts(d[1..], cutoff, low, high);
      CountTail(d, low, high);
    }
  }

  lemma {:induction false} AllBetween(d: seq<I64>, low: int, high: int)
    requires Ordered(d) && d != [] && d[0] >= low
    ensures d[|d| - 1] <= high ==> CountBetween(d, low, high) == |d|
  {
    if |d| > 1 {
      AllBetween(d[..|d| - 1], low, high);
    } else {
      assert d[..0] == [];
    }
  }

  lemma {:induction false} CountTail(d: seq<I64>, low: int, high: int)
    requires d != []
    ensures CountBetween(d, low, high) == (if low <= d[0] <= high then 1 else 0) + CountBetween(d[1..], low, high)
  {
    if |d| > 1 {
      CountTail(d[..|d| - 1], low, high);
      assert d[..|d| - 1][1..] == d[1..][..|d| - 2];
    } else {
      assert d[..0] == [];
    }
  }

  lemma {:induction false} CountSaturated(d: seq<I64>, a: I64, b: I64, high: int)
    requires b >= 0
    ensures CountBetween(d, SaturatingSub(a, b), high) == CountBetween(d, a - b, high)
  {
    if d != [] {
      CountSaturated(d[..|d| - 1], a, b, high);
    }
  }

  lemma DropOldDepends(x: seq<I64>, y: seq<I64>, t: I64, cutoff: int)
    requires DropOld(x, cutoff) == DropOld(y, cutoff)
    ensures DropOld(x + [t], cutoff) == DropOld(y + [t], cutoff)
  {
    DropOldSplits(x, t, cutoff);
    DropOldSplits(y, t, cutoff);
  }

  lemma {:induction false} DropOldSplits(x: seq<I64>, t: I64, cutoff: int)
    ensures DropOld(x + [t], cutoff)
         == if DropOld(x, cutoff) == [] then DropOld([t], cutoff) else DropOld(x, cutoff) + [t]
  {
    if x == [] {
      assert x + [t] == [t];
    } else if x[0] < cutoff {
      assert (x + [t])[1..] == x[1..] + [t];
      DropOldSplits(x[1..], t, cutoff);
    }
  }

  /** What one more cut leaves. */
  lemma OneMoreCut(x: seq<I64>, t: I64, cut: int, cut': int)
    requires cut <= cut'
    ensures DropOld(DropOld(x, cut) + [t], cut') == DropOld(x + [t], cut')
  {
    hide DropOld;
    DropOldTwice(x, cut, cut');
    DropOldDepends(DropOld(x, cut), x, t, cut');
  }

  /** The deque after hits at these times, all with one window. */
  function Deque(hits: seq<I64>, window: I64): seq<I64> {
    if hits == [] then []
    else
      var n := |hits| - 1;
      DropOld(hits[..n], SaturatingSub(hits[n], window)) + [hits[n]]
  }

  lemma OneMoreHit(hits: seq<I64>, at: I64, window: I64)
    requires hits != [] ==> hits[|hits| - 1] <= at
    ensures DropOld(Deque(hits, window), SaturatingSub(at, window)) + [at] == Deque(hits + [at], window)
  {
    assert (hits + [at])[..|hits|] == hits;
    if hits == [] {
      assert DropOld([], SaturatingSub(at, window)) == [];
    } else {
      hide DropOld;
      var n := |hits| - 1;
      OneMoreCut(hits[..n], hits[n], SaturatingSub(hits[n], window), SaturatingSub(at, window));
      assert hits == hits[..n] + [hits[n]];
    }
  }

  lemma OrderedPrefix(hits: seq<I64>, at: I64)
    requires Ordered(hits + [at])
    ensures Ordered(hits) && (hits != [] ==> hits[|hits| - 1] <= at)
  {
    assert forall i :: 0 <= i < |hits| ==> (hits + [at])[i] == hits[i];
    assert hits != [] ==> (hits + [at])[|hits| - 1] <= (hits + [at])[|hits|];
  }

  /** For every window: the deque of a key is its last hit, after all earlier ones without the old ones at the
      front. */
  lemma {:induction false} WindowIsDeque(ops: seq<HitOp>, key: string, window: I64)
    requires OneWindow(ops, key, window) && Ordered(HitsOf(ops, key))
    ensures WindowOf(HitRun(ops), key) == Deque(HitsOf(ops, key), window)
  {
    hide DropOld, SaturatingSub, Ordered;
    if ops != [] {
      var before, op := ops[..|ops| - 1], ops[|ops| - 1];
      var hits := HitsOf(before, key);
      assert OneWindow(before, key, window);
      if op.key != key {
        WindowIsDeque(before, key, window);
      } else if op.Hit? {
        OrderedPrefix(hits, op.at);
        WindowIsDeque(before, key, window);
        OneMoreHit(hits, op.at, window);
        hide Deque;
      }
    }
  }

  /** For a window that is not negative the deque is the list of all hits without the old ones at the front. */
  lemma WindowIsSuffix(ops: seq<HitOp>, key: string, window: I64)
    requires OneWindow(ops, key, window) && Ordered(HitsOf(ops, key)) && window >= 0
    ensures var hits := HitsOf(ops, key);
            WindowOf(HitRun(ops), key)
            == if hits == [] then [] else DropOld(hits, SaturatingSub(hits[|hits| - 1], window))
  {
    WindowIsDeque(ops, key, window);
    var hits := HitsOf(ops, key);
    if hits != [] {
      var n := |hits| - 1;
      DropOldAppend(hits[..n], hits[n], SaturatingSub(hits[n], window));
      assert hits == hits[..n] + [hits[n]];
    }
  }

  /** How many of the times a hit counts that is recorded last: itself, and the earlier ones in the window. */
  function CountWithLast(hits: seq<I64>, window: I64): nat
    requires hits != []
  {
    var n := |hits| - 1;
    1 + CountBetween(hits[..n], SaturatingSub(hits[n], window), hits[n])
  }

  /** For every window, after a hit the count returned is itself and the number of all earlier hits ever recorded in
      the window that ends at it. */
  lemma LastCountIsExact(ops: seq<HitOp>, key: string, window: I64)
    requires OneWindow(ops, key, window) && Ordered(HitsOf(ops, key)) && HitsOf(ops, key) != []
    ensures |WindowOf(HitRun(ops), key)| == CountWithLast(HitsOf(ops, key), window)
  {
    var hits := HitsOf(ops, key);
    var n := |hits| - 1;
    WindowIsDeque(ops, key, window);
    DropOldCounts(hits[..n], SaturatingSub(hits[n], window), SaturatingSub(hits[n], window), hits[n]);
  }

  /** Which for a window that is not negative is the number of all hits in [t - window, t]. */
  lemma CountWithLastIsCount(hits: seq<I64>, window: I64)
    requires hits != [] && window >= 0
    ensures CountWithLast(hits, window) == CountBetween(hits, hits[|hits| - 1] - window, hits[|hits| - 1])
  {
    var n := |hits| - 1;
    CountSaturated(hits[..n], hits[n], window, hits[n]);
  }

  /** Sliding-window exactness: after a hit at time t, the count returned is the number of all hits ever
      recorded in [t - window, t]. */
  lemma HitCountIsExact(ops: seq<HitOp>, key: string, window: I64)
    requires ops != [] && ops[|ops| - 1].Hit? && ops[|ops| - 1].key == key
    requires OneWindow(ops, key, window) && Ordered(HitsOf(ops, key)) && window >= 0
    ensures var t := ops[|ops| - 1].at;
            |WindowOf(HitRun(ops), key)| == CountBetween(HitsOf(ops, key), t - window, t)
  {
    LastCountIsExact(ops, key, window);
    CountWithLastIsCount(HitsOf(ops, key), window);
  }

  /** And a later query counts all hits ever recorded in its window. */
  lemma QueryCountIsExact(ops: seq<HitOp>, key: string, window: I64, now: I64)
    requires OneWindow(ops, key, window) && Ordered(HitsOf(ops, key)) && window >= 0
    requires HitsOf(ops, key) != [] ==> HitsOf(ops, key)[|HitsOf(ops, key)| - 1] <= now
    ensures CountBetween(WindowOf(HitRun(ops), key), SaturatingSub(now, window), now)
         == CountBetween(HitsOf(ops, key), now - window, now)
  {
    var hits := HitsOf(ops, key);
    WindowIsSuffix(ops, key, window);
    if hits != [] {
      DropOldCounts(hits, SaturatingSub(hits[|hits| - 1], window), SaturatingSub(now, window), now);
    }
    CountSaturated(hits, now, window, now);
  }

  // ---------- Distinct items ----------

  datatype Record = Record(item: string, at: int)

  /** The set of one key after some records, all with one time to live. */
  function Records(h: seq<Record>, ttlSecs: int): map<string, int> {
    if h == [] then map[]
    else Unexpired(Records(h[..|h| - 1], ttlSecs), h[|h| - 1].at)[h[|h| - 1].item := h[|h| - 1].at + ttlSecs * 1000]
  }

  predicate RecordsInOrder(h: seq<Record>, now: int) {
    && (forall i, j :: 0 <= i <= j < |h| ==> h[i].at <= h[j].at)
    && (h != [] ==> h[|h| - 1].at <= now)
  }

  /** The items recorded less than their time to live ago. */
  function RecentItems(h: seq<Record>, ttlSecs: int, now: int): set<string> {
    set i | 0 <= i < |h| && h[i].at + ttlSecs * 1000 > now :: h[i].item
  }

  lemma {:induction false} LastRecordCounts(h: seq<Record>, ttlSecs: int, now: int, x: string)
    requires RecordsInOrder(h, now)
    ensures x in RecentItems(h, ttlSecs, now) <==> x in Records(h, ttlSecs) && Records(h, ttlSecs)[x] > now
  {
    if h != [] {
      var before, last := h[..|h| - 1], h[|h| - 1];
      assert RecordsInOrder(before, last.at);
      LastRecordCounts(before, ttlSecs, now, x);
      if i :| 0 <= i < |h| && h[i].at + ttlSecs * 1000 > now && h[i].item == x {
        assert i < |before| ==> h[i] == before[i];
      }
      if i :| 0 <= i < |before| && before[i].at + ttlSecs * 1000 > now && before[i].item == x {
        assert h[i] == before[i];
      }
    }
  }

  /** Distinct counts are exact: a query counts the items recorded less than their time to live ago, whatever was
      evicted on the way; a record counts the item it records besides, should its time to live be zero. */
  lemma DistinctCountIsExact(h: seq<Record>, ttlSecs: int, now: int)
    requires RecordsInOrder(h, now)
    ensures |Unexpired(Records(h, ttlSecs), now)| == |RecentItems(h, ttlSecs, now)|
    ensures h != [] && h[|h| - 1].at == now ==>
              |Records(h, ttlSecs)| == |RecentItems(h, ttlSecs, now) + {h[|h| - 1].item}|
  {
    forall x ensures x in RecentItems(h, ttlSecs, now) <==> x in Unexpired(Records(h, ttlSecs), now) {
      LastRecordCounts(h, ttlSecs, now, x);
    }
    assert Unexpired(Records(h, ttlSecs), now).Keys == RecentItems(h, ttlSecs, now);
    if h != [] && h[|h| - 1].at == now {
      RecordsHold(h, ttlSecs);
      assert Records(h, ttlSecs).Keys == RecentItems(h, ttlSecs, now) + {h[|h| - 1].item};
    }
  }

  lemma RecordsHold(h: seq<Record>, ttlSecs: int)
    requires h != []
    ensures h[|h| - 1].item in Records(h, ttlSecs)
    ensures forall x :: x in Records(h, ttlSecs) && x != h[|h| - 1].item ==> Records(h, ttlSecs)[x] > h[|h| - 1].at
  {
  }

  datatype DistinctOp = Note(key: string, item: string, ttlSecs: int, at: int) | ResetItems(key: string)

  function DistinctStep(m: DistinctSets, op: DistinctOp): DistinctSets {
    match op
    case Note(key, item, ttlSecs, at) => AfterDistinct(m, key, item, ttlSecs, at)
    case ResetItems(key) => m - {key}
  }

  function DistinctRun(ops: seq<DistinctOp>): DistinctSets {
    if ops == [] then map[] else DistinctStep(DistinctRun(ops[..|ops| - 1]), ops[|ops| - 1])
  }

  /** All records under a key since it was last reset. */
  function RecordsOf(ops: seq<DistinctOp>, key: string): seq<Record> {
    if ops == [] then []
    else
      var before := RecordsOf(ops[..|ops| - 1], key);
      match ops[|ops| - 1]
      case Note(k, item, _, at) => if k == key then before + [Record(item, at)] else before
      case ResetItems(k) => if k == key then [] else before
  }

  predicate OneItemTtl(ops: seq<DistinctOp>, key: string, ttlSecs: int) {
    forall i :: 0 <= i < |ops| && ops[i].Note? && ops[i].key == key ==> ops[i].ttlSecs == ttlSecs
  }

  lemma {:induction false} DistinctRunIsRecords(ops: seq<DistinctOp>, key: string, ttlSecs: int)
    requires OneItemTtl(ops, key, ttlSecs)
    ensures SetOf(DistinctRun(ops), key) == Records(RecordsOf(ops, key), ttlSecs)
  {
    if ops != [] {
      var before, op := ops[..|ops| - 1], ops[|ops| - 1];
      DistinctRunIsRecords(before, key, ttlSecs);
      var h := RecordsOf(before, key);
      if op.Note? && op.key == key {
        assert (h + [Record(op.item, op.at)])[..|h|] == h;
      }
      hide Unexpired;
    }
  }

  /** Over every run, a query counts the items recorded under its key less than their time to live ago. */
  lemma {:induction false} RunDistinctCount(ops: seq<DistinctOp>, key: string, ttlSecs: int, now: int)
    requires OneItemTtl(ops, key, ttlSecs) && RecordsInOrder(RecordsOf(ops, key), now)
    ensures |Unexpired(SetOf(DistinctRun(ops), key), now)| == |RecentItems(RecordsOf(ops, key), ttlSecs, now)|
  {
    DistinctRunIsRecords(ops, key, ttlSecs);
    DistinctCountIsExact(RecordsOf(ops, key), ttlSecs, now);
  }

  // ---------- Entity risk ----------

  datatype Addition = Addition(points: U32, at: int)

  /** The entry of one entity after some additions, all with one time to live. */
  function RiskEntry(h: seq<Addition>, ttlSecs: int): (U32, int)
    requires h != []
  {
    var last := h[|h| - 1];
    var m: Risks := if |h| == 1 then map[] else map["" := RiskEntry(h[..|h| - 1], ttlSecs)];
    AfterRisk(m, "", last.points, ttlSecs, last.at)[""]
  }

  predicate Gap(h: seq<Addition>, ttlSecs: int, k: nat)
    requires k < |h|
  {
    k == 0 || h[k].at - h[k - 1].at >= ttlSecs * 1000
  }

  /** The position after the last pause of at least the time to live. */
  function LastGap(h: seq<Addition>, ttlSecs: int): (k: nat)
    requires h != []
    ensures k < |h| && Gap(h, ttlSecs, k) && forall j :: k < j < |h| ==> !Gap(h, ttlSecs, j)
  {
    if Gap(h, ttlSecs, |h| - 1) then |h| - 1
    else
      var before := h[..|h| - 1];
      assert forall j :: 0 <= j < |before| ==> Gap(h, ttlSecs, j) == Gap(before, ttlSecs, j);
      LastGap(before, ttlSecs)
  }

  function TotalPoints(h: seq<Addition>): nat {
    if h == [] then 0 else TotalPoints(h[..|h| - 1]) + h[|h| - 1].points
  }

  /** The risk is the saturated sum of the points since the last pause, and runs out with the last addition. */
  lemma {:induction false} RiskIsSumSinceGap(h: seq<Addition>, ttlSecs: int)
    requires h != []
    ensures RiskEntry(h, ttlSecs).0 == Min(MAX_U32, TotalPoints(h[LastGap(h, ttlSecs)..]))
    ensures RiskEntry(h, ttlSecs).1 == h[|h| - 1].at + ttlSecs * 1000
  {
    var k := LastGap(h, ttlSecs);
    var burst := h[k..];
    assert TotalPoints(burst) == TotalPoints(burst[..|burst| - 1]) + h[|h| - 1].points;
    if |h| == 1 {
      assert burst[..0] == [];
    } else {
      var before := h[..|h| - 1];
      RiskIsSumSinceGap(before, ttlSecs);
      if k == |h| - 1 {
        assert burst[..0] == [];
      } else {
        assert burst[..|burst| - 1] == before[k..];
      }
    }
  }

  datatype RiskOp = Add(entity: string, points: U32, ttlSecs: int, at: int) | ResetRisk(entity: string)

  function RiskStep(m: Risks, op: RiskOp): Risks {
    match op
    case Add(entity, points, ttlSecs, at) => AfterRisk(m, entity, points, ttlSecs, at)
    case ResetRisk(entity) => m - {entity}
  }

  function RiskRun(ops: seq<RiskOp>): Risks {
    if ops == [] then map[] else RiskStep(RiskRun(ops[..|ops| - 1]), ops[|ops| - 1])
  }

  /** All additions for an entity since it was last reset. */
  function AdditionsOf(ops: seq<RiskOp>, entity: string): seq<Addition> {
    if ops == [] then []
    else
      var before := AdditionsOf(ops[..|ops| - 1], entity);
      match ops[|ops| - 1]
      case Add(e, points, _, at) => if e == entity then before + [Addition(points, at)] else before
      case ResetRisk(e) => if e == entity then [] else before
  }

  predicate OneRiskTtl(ops: seq<RiskOp>, entity: string, ttlSecs: int) {
    forall i :: 0 <= i < |ops| && ops[i].Add? && ops[i].entity == entity ==> ops[i].ttlSecs == ttlSecs
  }

  lemma {:induction false} RiskRunIsEntry(ops: seq<RiskOp>, entity: string, ttlSecs: int)
    requires OneRiskTtl(ops, entity, ttlSecs)
    ensures var h := AdditionsOf(ops, entity);
            && (entity in RiskRun(ops) <==> h != [])
            && (h != [] ==> RiskRun(ops)[entity] == RiskEntry(h, ttlSecs))
  {
    if ops != [] {
      var before, op := ops[..|ops| - 1], ops[|ops| - 1];
      RiskRunIsEntry(before, entity, ttlSecs);
      var h := AdditionsOf(before, entity);
      if op.Add? && op.entity == entity {
        assert (h + [Addition(op.points, op.at)])[..|h|] == h;
      }
    }
  }

  /** Entity risk over every run: a reading is the saturated sum of the points since the last pause of at least the
      time to live, until the last addition's time to live has run out, and 0 from then on. */
  lemma RunRiskReading(ops: seq<RiskOp>, entity: string, ttlSecs: int, now: int)
    requires OneRiskTtl(ops, entity, ttlSecs)
    ensures var h := AdditionsOf(ops, entity);
            RiskAt(RiskRun(ops), entity, now)
            == if h != [] && now < h[|h| - 1].at + ttlSecs * 1000 then
                 Min(MAX_U32, TotalPoints(h[LastGap(h, ttlSecs)..]))
               else 0
  {
    RiskRunIsEntry(ops, entity, ttlSecs);
    if AdditionsOf(ops, entity) != [] {
      RiskIsSumSinceGap(AdditionsOf(ops, entity), ttlSecs);
    }
  }
}
