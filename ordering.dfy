/**
 * The orders the store sorts query results by. A row's sort key is a
 * sequence of integers compared lexicographically; `StringKey` and `Desc`
 * build keys for text columns and for descending directions. Sorting is an
 * insertion sort standing in for the database's `ORDER BY`, and `Filter` for
 * its `WHERE`.
 */
module Ordering {

  /** Lexicographic order on integer sequences; a proper prefix comes first. */
  predicate LexLe(a: seq<int>, b: seq<int>)
    decreases |a|
  {
    |a| == 0 || (|b| > 0 && (a[0] < b[0] || (a[0] == b[0] && LexLe(a[1..], b[1..]))))
  }

  lemma {:induction false} LexTotal(a: seq<int>, b: seq<int>)
    ensures LexLe(a, b) || LexLe(b, a)
    decreases |a|
  {
    if |a| > 0 && |b| > 0 && a[0] == b[0] {
      LexTotal(a[1..], b[1..]);
    }
  }

  lemma {:induction false} LexTransitive(a: seq<int>, b: seq<int>, c: seq<int>)
    requires LexLe(a, b) && LexLe(b, c)
    ensures LexLe(a, c)
    decreases |a|
  {
    if |a| > 0 && a[0] == b[0] && b[0] == c[0] {
      LexTransitive(a[1..], b[1..], c[1..]);
    }
  }

  lemma {:induction false} LexAntisymmetric(a: seq<int>, b: seq<int>)
    requires LexLe(a, b) && LexLe(b, a)
    ensures a == b
    decreases |a|
  {
    if |a| > 0 {
      LexAntisymmetric(a[1..], b[1..]);
      assert a == [a[0]] + a[1..] && b == [b[0]] + b[1..];
    }
  }

  /**
   * The key of a text column: each character code shifted up by one and a
   * terminating 0, so that a proper prefix sorts first in either direction.
   */
  function StringKey(s: string): (k: seq<int>)
    ensures |k| == |s| + 1 && k[|s|] == 0
    ensures forall i :: 0 <= i < |s| ==> k[i] == s[i] as int + 1
  {
    seq(|s|, i requires 0 <= i < |s| => s[i] as int + 1) + [0]
  }

  /** The order of a text column is character-code order. */
  lemma {:induction false} StringKeyOrder(s: string, t: string)
    ensures LexLe(StringKey(s), StringKey(t)) <==> StringLe(s, t)
    decreases |s|
  {
    if |s| > 0 && |t| > 0 && s[0] == t[0] {
      StringKeyOrder(s[1..], t[1..]);
      assert StringKey(s)[1..] == StringKey(s[1..]);
      assert StringKey(t)[1..] == StringKey(t[1..]);
    }
  }

  /** Character-code order on strings, a proper prefix first. */
  predicate StringLe(s: string, t: string)
    decreases |s|
  {
    |s| == 0 || (|t| > 0 && (s[0] < t[0] || (s[0] == t[0] && StringLe(s[1..], t[1..]))))
  }

  /** The key of the same column sorted the other way. */
  function Desc(k: seq<int>): (d: seq<int>)
    ensures |d| == |k| && forall i :: 0 <= i < |k| ==> d[i] == -k[i]
  {
    seq(|k|, i requires 0 <= i < |k| => -k[i])
  }

  /** On keys of equal length, `Desc` reverses the order. */
  lemma {:induction false} DescReverses(a: seq<int>, b: seq<int>)
    requires |a| == |b|
    ensures LexLe(Desc(a), Desc(b)) <==> LexLe(b, a)
    decreases |a|
  {
    if |a| > 0 {
      DescReverses(a[1..], b[1..]);
      assert Desc(a)[1..] == Desc(a[1..]);
      assert Desc(b)[1..] == Desc(b[1..]);
    }
  }

  predicate SortedBy<T>(s: seq<T>, key: T -> seq<int>) {
    forall i, j :: 0 <= i < j < |s| ==> LexLe(key(s[i]), key(s[j]))
  }

  /** Insertion after every element whose key is strictly smaller, before the rest. */
  function Insert<T>(x: T, s: seq<T>, key: T -> seq<int>): (r: seq<T>)
    requires SortedBy(s, key)
    ensures SortedBy(r, key)
    ensures multiset(r) == multiset(s) + multiset{x}
    ensures |r| == |s| + 1
    decreases |s|
  {
    if |s| == 0 then [x]
    else if LexLe(key(x), key(s[0])) then
      forall j | 0 < j < |s| ensures LexLe(key(x), key(s[j])) {
        LexTransitive(key(x), key(s[0]), key(s[j]));
      }
      [x] + s
    else
      LexTotal(key(x), key(s[0]));
      var rest := Insert(x, s[1..], key);
      assert s == [s[0]] + s[1..];
      assert multiset(rest) == multiset(s[1..]) + multiset{x};
      forall j | 0 <= j < |rest| ensures LexLe(key(s[0]), key(rest[j])) {
        assert rest[j] in multiset(rest);
        if rest[j] == x {
        } else {
          assert rest[j] in multiset(s[1..]);
          var m :| 0 <= m < |s[1..]| && s[1..][m] == rest[j];
          assert s[m + 1] == rest[j];
        }
      }
      [s[0]] + rest
  }

  /** `ORDER BY key`: a sorted permutation of the input. */
  function SortBy<T>(s: seq<T>, key: T -> seq<int>): (r: seq<T>)
    ensures SortedBy(r, key)
    ensures multiset(r) == multiset(s)
    ensures |r| == |s|
    decreases |s|
  {
    if |s| == 0 then []
    else
      assert s == [s[0]] + s[1..];
      Insert(s[0], SortBy(s[1..], key), key)
  }

  /** `WHERE keep`: the rows that pass, in their original order. */
  function Filter<T(!new)>(s: seq<T>, keep: T -> bool): (r: seq<T>)
    ensures forall x :: x in r <==> x in s && keep(x)
    ensures multiset(r) <= multiset(s)
    ensures |r| <= |s|
  {
    if |s| == 0 then []
    else
      assert s == [s[0]] + s[1..];
      if keep(s[0]) then [s[0]] + Filter(s[1..], keep) else Filter(s[1..], keep)
  }

  /** Filtering a concatenation filters each part and keeps the parts in order. */
  lemma {:induction false} FilterAppend<T(!new)>(a: seq<T>, b: seq<T>, keep: T -> bool)
    ensures Filter(a + b, keep) == Filter(a, keep) + Filter(b, keep)
  {
    if |a| == 0 {
      assert a + b == b;
    } else {
      assert (a + b)[0] == a[0] && (a + b)[1..] == a[1..] + b;
      FilterAppend(a[1..], b, keep);
    }
  }

  /** One row is kept exactly when it passes; with `FilterAppend` this fixes the order of `Filter`. */
  lemma FilterSingleton<T(!new)>(x: T, keep: T -> bool)
    ensures Filter([x], keep) == if keep(x) then [x] else []
  {
    assert [x][1..] == [];
  }

  /** `SKIP skip TAKE take` on an already ordered result. */
  function Window<T>(s: seq<T>, skip: nat, take: nat): (r: seq<T>)
    ensures |r| == if skip >= |s| then 0 else if |s| - skip < take then |s| - skip else take
    ensures forall i :: 0 <= i < |r| ==> r[i] == s[skip + i]
  {
    if skip >= |s| then [] else if |s| - skip < take then s[skip..] else s[skip..skip + take]
  }
}
