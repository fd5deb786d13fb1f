/** Vocabulary shared by every component: optional values, instants, and the string operations of
    Rust's standard library that the control plane relies on. */
module Basics {

  datatype Option<+T> = None | Some(value: T)

  /** An instant or a span of time, in nanoseconds. */
  type Time = int

  const SECOND: Time := 1_000_000_000

  const MIN_I64 := -0x8000_0000_0000_0000
  const MAX_I64 := 0x7FFF_FFFF_FFFF_FFFF
  const MAX_U32 := 0xFFFF_FFFF

  type I64 = n: int | MIN_I64 <= n <= MAX_I64
  type U32 = n: nat | n <= MAX_U32

  /** `saturating_add` on 32 bits. */
  function SaturatingAdd(a: U32, b: U32): U32 {
    if a + b <= MAX_U32 then a + b else MAX_U32
  }

  function Min(a: int, b: int): int {
    if a <= b then a else b
  }

  function Max(a: int, b: int): int {
    if a <= b then b else a
  }

  /** The elements of a sequence. */
  function Elements<T>(s: seq<T>): set<T> {
    set x | x in s
  }

  predicate EndsWith(s: string, suffix: string) {
    |suffix| <= |s| && s[|s| - |suffix|..] == suffix
  }

  predicate Contains(s: string, part: string) {
    exists i :: 0 <= i <= |s| && part <= s[i..]
  }

  /** Rust's `trim_start_matches`: the prefix is removed as often as it occurs. */
  function TrimStart(s: string, prefix: string): string
    requires prefix != ""
    decreases |s|
  {
    if prefix <= s then TrimStart(s[|prefix|..], prefix) else s
  }

  lemma {:induction false} TrimStartIsClean(s: string, prefix: string)
    requires prefix != ""
    ensures !(prefix <= TrimStart(s, prefix))
    ensures TrimStart(TrimStart(s, prefix), prefix) == TrimStart(s, prefix)
    decreases |s|
  {
    if prefix <= s {
      TrimStartIsClean(s[|prefix|..], prefix);
    }
  }

  /** The part occurs somewhere in the text. */
  ghost predicate Occurs(part: string, text: string) {
    exists a, b :: text == a + part + b
  }

  ghost predicate OneOccurs(parts: set<string>, text: string) {
    exists part :: part in parts && Occurs(part, text)
  }

  lemma ContainsIff(s: string, part: string)
    ensures Contains(s, part) <==> Occurs(part, s)
  {
    if i :| 0 <= i <= |s| && part <= s[i..] {
      assert s == s[..i] + part + s[i + |part|..];
    }
    if a, b :| s == a + part + b {
      assert part <= s[|a|..];
    }
  }

  lemma EndsWithIff(s: string, suffix: string)
    ensures EndsWith(s, suffix) <==> exists a :: s == a + suffix
  {
    if EndsWith(s, suffix) {
      assert s == s[..|s| - |suffix|] + suffix;
    }
  }

  function Repeated(prefix: string, n: nat): string {
    if n == 0 then "" else prefix + Repeated(prefix, n - 1)
  }

  lemma {:induction false} TrimStartRepeats(s: string, prefix: string) returns (n: nat)
    requires prefix != ""
    ensures s == Repeated(prefix, n) + TrimStart(s, prefix)
    decreases |s|
  {
    n := 0;
    if prefix <= s {
      var m := TrimStartRepeats(s[|prefix|..], prefix);
      n := m + 1;
      assert s == prefix + s[|prefix|..];
    }
  }

  lemma {:induction false} TrimStartOfRepeated(prefix: string, n: nat, rest: string)
    requires prefix != "" && !(prefix <= rest)
    ensures TrimStart(Repeated(prefix, n) + rest, prefix) == rest
  {
    if n > 0 {
      TrimStartOfRepeated(prefix, n - 1, rest);
      assert Repeated(prefix, n) + rest == prefix + (Repeated(prefix, n - 1) + rest);
    } else {
      assert Repeated(prefix, 0) + rest == rest;
    }
  }

  /** What is left is the text after all copies of the prefix at its start. */
  lemma TrimStartIff(s: string, prefix: string, rest: string)
    requires prefix != ""
    ensures TrimStart(s, prefix) == rest <==> !(prefix <= rest) && exists n: nat :: s == Repeated(prefix, n) + rest
  {
    TrimStartIsClean(s, prefix);
    hide TrimStart, Repeated;
    var k := TrimStartRepeats(s, prefix);
    if !(prefix <= rest) {
      if n: nat :| s == Repeated(prefix, n) + rest {
        TrimStartOfRepeated(prefix, n, rest);
      }
    }
  }

  /** A text is cut in one way only at the first occurrence of a separator. */
  lemma CutUnique(a: string, x: string, b: string, y: string, sep: char)
    requires sep !in a && sep !in b
    requires a + [sep] + x == b + [sep] + y
    ensures a == b && x == y
  {
    var s := a + [sep] + x;
    assert s[|a|] == sep && forall k :: 0 <= k < |a| ==> s[k] == a[k];
    assert s[|b|] == sep && forall k :: 0 <= k < |b| ==> s[k] == b[k];
    assert a == s[..|a|] && b == s[..|b|] && x == s[|a| + 1..] && y == s[|b| + 1..];
  }

  /** Unicode White_Space, the characters `str::trim` removes. */
  predicate IsWhitespace(c: char) {
    '\t' <= c <= '\r' || c == ' ' || c == '\U{0085}' || c == '\U{00A0}' || c == '\U{1680}'
    || '\U{2000}' <= c <= '\U{200A}' || c == '\U{2028}' || c == '\U{2029}' || c == '\U{202F}'
    || c == '\U{205F}' || c == '\U{3000}'
  }

  /** All of them: the control characters from tab to carriage return, the spaces, and the separators. */
  lemma WhitespaceIs(c: char)
    ensures IsWhitespace(c) <==>
            c in "\U{0009}\U{000A}\U{000B}\U{000C}\U{000D}\U{0020}\U{0085}\U{00A0}\U{1680}\U{2000}\U{2001}\U{2002}"
               + "\U{2003}\U{2004}\U{2005}\U{2006}\U{2007}\U{2008}\U{2009}\U{200A}\U{2028}\U{2029}\U{202F}\U{205F}"
               + "\U{3000}"
  {
  }

  /** `s.trim().is_empty()` */
  predicate IsBlank(s: string) {
    forall i :: 0 <= i < |s| ==> IsWhitespace(s[i])
  }
}

/** The order of Rust strings, and what `sort` and `dedup` make of a list of strings. */
module StringOrder {
  import opened Basics

  /** Strictly before in lexicographic order. */
  predicate Less(a: string, b: string) {
    if b == "" then false
    else if a == "" then true
    else a[0] < b[0] || (a[0] == b[0] && Less(a[1..], b[1..]))
  }

  /** The texts agree up to some place, where the first ends or has the smaller character. */
  lemma {:induction false} LessIff(a: string, b: string)
    ensures Less(a, b)
       <==> exists k :: 0 <= k <= |a| && k < |b| && a[..k] == b[..k] && (k == |a| || a[k] < b[k])
  {
    if a != "" && b != "" {
      var x, y := a[1..], b[1..];
      LessIff(x, y);
      if a[0] == b[0] {
        if k :| 0 <= k <= |x| && k < |y| && x[..k] == y[..k] && (k == |x| || x[k] < y[k]) {
          assert a[..k + 1] == [a[0]] + x[..k] && b[..k + 1] == [b[0]] + y[..k];
        }
        if k :| 0 <= k <= |a| && k < |b| && a[..k] == b[..k] && (k == |a| || a[k] < b[k]) {
          assert k > 0;
          assert x[..k - 1] == a[..k][1..] && y[..k - 1] == b[..k][1..];
        }
      } else {
        assert a[..0] == b[..0];
        if k :| 0 <= k <= |a| && k < |b| && a[..k] == b[..k] && (k == |a| || a[k] < b[k]) {
          assert k > 0 ==> a[..k][0] == a[0] && b[..k][0] == b[0];
        }
      }
    } else if b != "" {
      assert a[..0] == b[..0];
    }
  }

  lemma {:induction false} LessTransitive(a: string, b: string, c: string)
    requires Less(a, b) && Less(b, c)
    ensures Less(a, c)
  {
    if a != "" && a[0] == b[0] == c[0] {
      LessTransitive(a[1..], b[1..], c[1..]);
    }
  }

  lemma {:induction false} LessTrichotomy(a: string, b: string)
    ensures a == b <==> !Less(a, b) && !Less(b, a)
    ensures !(Less(a, b) && Less(b, a))
  {
    if a != "" && b != "" && a[0] == b[0] {
      LessTrichotomy(a[1..], b[1..]);
      assert a == [a[0]] + a[1..] && b == [b[0]] + b[1..];
    }
  }

  ghost predicate Ascending(s: seq<string>) {
    forall i, j :: 0 <= i < j < |s| ==> Less(s[i], s[j])
  }

  /** Put x into an ascending list, unless it is there already. */
  function InsertOnce(s: seq<string>, x: string): seq<string> {
    if s == [] || Less(x, s[0]) then [x] + s
    else if x == s[0] then s
    else [s[0]] + InsertOnce(s[1..], x)
  }

  /** `sort` followed by `dedup`. */
  function SortDedup(xs: seq<string>): seq<string> {
    if xs == [] then [] else InsertOnce(SortDedup(xs[1..]), xs[0])
  }

  lemma {:induction false} InsertOnceKeepsOrder(s: seq<string>, x: string)
    requires Ascending(s)
    ensures Ascending(InsertOnce(s, x))
    ensures Elements(InsertOnce(s, x)) == Elements(s) + {x}
  {
    if s == [] {
    } else if Less(x, s[0]) {
      forall j | 0 < j < |s| ensures Less(x, s[j]) {
        LessTransitive(x, s[0], s[j]);
      }
    } else if x != s[0] {
      var rest := InsertOnce(s[1..], x);
      InsertOnceKeepsOrder(s[1..], x);
      LessTrichotomy(x, s[0]);
      forall j | 0 <= j < |rest| ensures Less(s[0], rest[j]) {
        assert rest[j] in Elements(rest);
      }
      assert s == [s[0]] + s[1..];
      assert Elements(InsertOnce(s, x)) == {s[0]} + Elements(rest);
    }
  }

  lemma {:induction false} SortDedupIsSorted(xs: seq<string>)
    ensures Ascending(SortDedup(xs))
    ensures Elements(SortDedup(xs)) == Elements(xs)
  {
    if xs != [] {
      SortDedupIsSorted(xs[1..]);
      InsertOnceKeepsOrder(SortDedup(xs[1..]), xs[0]);
      assert xs == [xs[0]] + xs[1..];
    }
  }

  /** A set of strings has only one ascending listing. */
  lemma {:induction false} AscendingIsUnique(s: seq<string>, t: seq<string>)
    requires Ascending(s) && Ascending(t) && Elements(s) == Elements(t)
    ensures s == t
  {
    assert s != [] ==> s[0] in Elements(s);
    assert t != [] ==> t[0] in Elements(t);
    if s != [] && t != [] {
      LessTrichotomy(s[0], t[0]);
      assert s[0] == t[0];
      forall x ensures x in Elements(s[1..]) <==> x in Elements(s) && x != s[0] {
        LessTrichotomy(s[0], s[0]);
        assert s == [s[0]] + s[1..];
      }
      forall x ensures x in Elements(t[1..]) <==> x in Elements(t) && x != t[0] {
        LessTrichotomy(t[0], t[0]);
        assert t == [t[0]] + t[1..];
      }
      AscendingIsUnique(s[1..], t[1..]);
      assert s == [s[0]] + s[1..] && t == [t[0]] + t[1..];
    }
  }
}

/** Sums over finite maps. */
module Sums {

  ghost function Sum<K>(m: map<K, nat>): nat
    decreases |m|
  {
    if m == map[] then 0
    else
      var k :| k in m;
      m[k] + Sum(m - {k})
  }

  lemma {:induction false} SumSplit<K>(m: map<K, nat>, k: K)
    requires k in m
    ensures Sum(m) == m[k] + Sum(m - {k})
    decreases |m|
  {
    var j :| j in m && Sum(m) == m[j] + Sum(m - {j});
    if j != k {
      SumSplit(m - {j}, k);
      SumSplit(m - {k}, j);
      assert m - {j} - {k} == m - {k} - {j};
    }
  }

  lemma SumUpdate<K>(m: map<K, nat>, k: K, v: nat)
    ensures Sum(m[k := v]) == Sum(m - {k}) + v
    ensures k in m ==> Sum(m[k := v]) == Sum(m) - m[k] + v
    ensures k !in m ==> Sum(m[k := v]) == Sum(m) + v
  {
    SumSplit(m[k := v], k);
    assert m[k := v] - {k} == m - {k};
    if k in m {
      SumSplit(m, k);
    } else {
      assert m - {k} == m;
    }
  }
}
