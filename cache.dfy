/**
 * The Redis key space the services cache into, the glob patterns `KEYS`
 * understands, and `CacheService`, the administrative view of the key space:
 * clearing it, deleting one key or a pattern, and reporting statistics.
 *
 * Values are kept as the JSON they serialise; parsing a stored value gives
 * back what was stored. Expiry times are accepted and not modelled.
 */
module Cache {
  import opened Common

  /**
   * Glob matching as the server's `stringmatchlen` does it, case-sensitive:
   * `*` matches any run of characters, `?` any one character, `[...]` one
   * character of a class (see `ClassScan`), `\c` the character `c`, and
   * every other character itself. A key is consumed one character at a
   * time; once it is exhausted only trailing `*` may remain, so no non-empty
   * pattern matches the empty key.
   */
  predicate Glob(p: string, s: string)
    decreases |p| + |s|, 0
  {
    if |p| == 0 || |s| == 0 then |p| == 0 && |s| == 0
    else if p[0] == '*' then
      var q := DropStars(p);
      |q| == 0 || StarGlob(q, s)
    else if p[0] == '?' then After(p[1..], s[1..])
    else if p[0] == '[' then
      var body := p[1..];
      var negated := |body| > 0 && body[0] == '^';
      var scan := ClassScan(if negated then body[1..] else body, s[0], false);
      scan.0 != negated && After(scan.1, s[1..])
    else if p[0] == '\\' && |p| >= 2 then p[1] == s[0] && After(p[2..], s[1..])
    else p[0] == s[0] && After(p[1..], s[1..])
  }

  /** What is left of the pattern after one key character was consumed. */
  predicate After(p: string, s: string)
    decreases |p| + |s|, 1
  {
    if |s| == 0 then AllStars(p) else Glob(p, s)
  }

  /** A run of `*` followed by `q`: `q` matches some non-empty suffix of the key. */
  predicate StarGlob(q: string, s: string)
    decreases |q| + |s|, 1
  {
    |s| > 0 && (Glob(q, s) || StarGlob(q, s[1..]))
  }

  predicate AllStars(p: string) {
    forall i :: 0 <= i < |p| ==> p[i] == '*'
  }

  /** The pattern after its leading run of `*`. */
  function DropStars(p: string): (r: string)
    ensures |r| <= |p| && (|r| == 0 || r[0] != '*')
    ensures |p| > 0 && p[0] == '*' ==> |r| < |p|
    ensures AllStars(p[..|p| - |r|]) && r == p[|p| - |r|..]
  {
    if |p| > 0 && p[0] == '*' then DropStars(p[1..]) else p
  }

  /**
   * One bracket class, scanned from just after `[` and an optional `^`:
   * `\c` stands for `c`, `x-y` for the range between `x` and `y` in either
   * order, any other character for itself, up to the closing `]`; a class
   * left open runs to the end of the pattern. The answer is whether `c`
   * (or `found` already) is in the class, and the pattern after the class.
   */
  function ClassScan(p: string, c: char, found: bool): (r: (bool, string))
    ensures |r.1| <= |p|
    ensures found ==> r.0
    decreases |p|
  {
    if |p| >= 2 && p[0] == '\\' then ClassScan(p[2..], c, found || p[1] == c)
    else if |p| > 0 && p[0] == ']' then (found, p[1..])
    else if |p| == 0 then (found, [])
    else if |p| >= 3 && p[1] == '-' then
      var lo := if p[0] <= p[2] then p[0] else p[2];
      var hi := if p[0] <= p[2] then p[2] else p[0];
      ClassScan(p[3..], c, found || (lo <= c && c <= hi))
    else ClassScan(p[1..], c, found || p[0] == c)
  }

  /** `KEYS pattern` lists every key for the pattern `*` without matching, and otherwise the keys `Glob` admits. */
  predicate KeysMatch(pattern: string, key: string) {
    pattern == "*" || Glob(pattern, key)
  }

  /** A pattern character that means itself in every Redis glob. */
  predicate Plain(c: char) {
    c != '*' && c != '?' && c != '[' && c != '\\'
  }

  predicate AllPlain(s: string) {
    forall i :: 0 <= i < |s| ==> Plain(s[i])
  }

  /** Behind a non-empty plain prefix and a `*`, a key matches exactly when it starts with the prefix. */
  lemma {:induction false} PlainPrefixGlob(prefix: string, s: string)
    requires AllPlain(prefix) && |prefix| > 0
    ensures Glob(prefix + "*", s) <==> StartsWith(s, prefix)
    decreases |prefix|
  {
    var p := prefix + "*";
    assert p[0] == prefix[0] && p[1..] == prefix[1..] + "*";
    if |s| > 0 && s[0] == prefix[0] {
      assert StartsWith(s, prefix) <==> StartsWith(s[1..], prefix[1..]) by {
        if StartsWith(s[1..], prefix[1..]) {
          assert s[..|prefix|] == [s[0]] + s[1..][..|prefix| - 1];
        }
        if StartsWith(s, prefix) {
          assert s[1..][..|prefix| - 1] == s[..|prefix|][1..];
        }
      }
      if |s| == 1 {
        assert |prefix| > 1 ==> !AllStars(p[1..]) by {
          if |prefix| > 1 {
            assert p[1..][0] == prefix[1];
          }
        }
      } else if |prefix| == 1 {
        assert p[1..] == "*";
        assert DropStars("*") == "";
        assert Glob("*", s[1..]);
        assert After(p[1..], s[1..]);
        assert StartsWith(s, prefix) by {
          assert s[..1] == [s[0]];
        }
      } else {
        PlainPrefixGlob(prefix[1..], s[1..]);
      }
    }
  }

  /** `prefix*` selects exactly the keys that start with `prefix`. */
  lemma PrefixPattern(prefix: string, s: string)
    requires AllPlain(prefix)
    ensures KeysMatch(prefix + "*", s) <==> StartsWith(s, prefix)
  {
    if |prefix| == 0 {
      assert prefix + "*" == "*";
    } else {
      assert prefix + "*" != "*";
      PlainPrefixGlob(prefix, s);
    }
  }

  /** A plain character matches itself and moves on. */
  lemma PlainStep(c: char, p: string, s: string)
    requires Plain(c) && |s| > 0
    ensures Glob([c] + p, [c] + s) <==> Glob(p, s)
  {
    assert ([c] + p)[1..] == p && ([c] + s)[1..] == s;
  }

  /** Behind a common plain prefix, matching depends on the rest alone. */
  lemma {:induction false} PlainPrefixStep(prefix: string, p: string, s: string)
    requires AllPlain(prefix) && |s| > 0
    ensures Glob(prefix + p, prefix + s) <==> Glob(p, s)
    decreases |prefix|
  {
    if |prefix| > 0 {
      var c := prefix[0];
      PlainPrefixStep(prefix[1..], p, s);
      assert prefix + p == [c] + (prefix[1..] + p) && prefix + s == [c] + (prefix[1..] + s);
      PlainStep(c, prefix[1..] + p, prefix[1..] + s);
    } else {
      assert prefix + p == p && prefix + s == s;
    }
  }

  /** `[ab]` admits `a` and `b` and nothing else, and is not literal text. */
  lemma ClassMembers()
    ensures KeysMatch("barbers:[ab]*", "barbers:a1")
    ensures !KeysMatch("barbers:[ab]*", "barbers:c1")
    ensures !KeysMatch("barbers:[ab]*", "barbers:[ab]1")
  {
    assert AllPlain("barbers:");
    assert "barbers:[ab]*" == "barbers:" + "[ab]*";
    assert "barbers:a1" == "barbers:" + "a1";
    assert "barbers:c1" == "barbers:" + "c1";
    assert "barbers:[ab]1" == "barbers:" + "[ab]1";
    PlainPrefixStep("barbers:", "[ab]*", "a1");
    PlainPrefixStep("barbers:", "[ab]*", "c1");
    PlainPrefixStep("barbers:", "[ab]*", "[ab]1");
    ClassAB();
  }

  lemma ClassAB()
    ensures Glob("[ab]*", "a1") && !Glob("[ab]*", "c1") && !Glob("[ab]*", "[ab]1")
  {
    assert "[ab]*"[1..] == "ab]*" && "ab]*"[1..] == "b]*" && "b]*"[1..] == "]*" && "]*"[1..] == "*";
    assert ClassScan("ab]*", 'a', false) == (true, "*") by {
      assert ClassScan("b]*", 'a', true) == ClassScan("]*", 'a', true) == (true, "*");
    }
    assert ClassScan("ab]*", 'c', false) == (false, "*") by {
      assert ClassScan("b]*", 'c', false) == ClassScan("]*", 'c', false) == (false, "*");
    }
    assert ClassScan("ab]*", '[', false) == (false, "*") by {
      assert ClassScan("b]*", '[', false) == ClassScan("]*", '[', false) == (false, "*");
    }
    assert DropStars("*") == "";
    assert "a1"[1..] == "1";
    assert Glob("*", "1");
  }

  /** A leading `^` negates a class, and `x-y` is a range. */
  lemma NegatedRange()
    ensures KeysMatch("[^a-c]", "d") && !KeysMatch("[^a-c]", "b")
  {
    assert "[^a-c]"[1..] == "^a-c]" && "^a-c]"[1..] == "a-c]" && "a-c]"[3..] == "]" && "]"[1..] == "";
    assert ClassScan("a-c]", 'd', false) == ClassScan("]", 'd', false) == (false, "");
    assert ClassScan("a-c]", 'b', false) == ClassScan("]", 'b', true) == (true, "");
    assert "d"[1..] == "" && "b"[1..] == "";
  }

  /** `\*` matches a star and nothing else. */
  lemma EscapedStar()
    ensures KeysMatch("\\*", "*") && !KeysMatch("\\*", "a")
  {
    assert "\\*"[2..] == "" && "*"[1..] == "" && "a"[1..] == "";
  }

  /** No element occurs twice. */
  predicate Distinct(ks: seq<string>) {
    forall i, j :: 0 <= i < j < |ks| ==> ks[i] != ks[j]
  }

  /** A list without repeats is as long as the set it enumerates. */
  lemma {:induction false} DistinctLength(ks: seq<string>)
    requires Distinct(ks)
    ensures |set k | k in ks| == |ks|
  {
    if |ks| > 0 {
      var init := ks[..|ks| - 1];
      DistinctLength(init);
      assert (set k | k in ks) == (set k | k in init) + {ks[|ks| - 1]};
      assert ks[|ks| - 1] !in init;
    }
  }

  /** The key space of the cache server. */
  class RedisStore {
    var entries: map<string, Json>

    constructor ()
      ensures entries == map[]
    {
      entries := map[];
    }

    /** `GET key`. */
    function Get(key: string): (r: Option<Json>)
      reads this
      ensures r.Some? <==> key in entries
      ensures r.Some? ==> r.value == entries[key]
    {
      if key in entries then Some(entries[key]) else None
    }

    /** `SETEX key ttl value`; the expiry is not modelled. */
    method SetEx(key: string, ttl: nat, value: Json)
      modifies this
      ensures entries == old(entries)[key := value]
    {
      entries := entries[key := value];
    }

    /** `KEYS pattern`, in no particular order. */
    method Keys(pattern: string) returns (ks: seq<string>)
      ensures Distinct(ks)
      ensures forall k :: k in ks <==> k in entries && KeysMatch(pattern, k)
    {
      ks := [];
      var rest := entries.Keys;
      while rest != {}
        invariant rest <= entries.Keys
        invariant Distinct(ks)
        invariant forall k :: k in ks <==> k in entries.Keys - rest && KeysMatch(pattern, k)
        decreases |rest|
      {
        var k :| k in rest;
        rest := rest - {k};
        if KeysMatch(pattern, k) {
          ks := ks + [k];
        }
      }
    }

    /** `DEL k1 k2 ...`: the number of keys that existed. */
    method Del(keys: seq<string>) returns (n: nat)
      modifies this
      ensures entries == old(entries) - (set k | k in keys)
      ensures n == |old(entries).Keys * (set k | k in keys)|
    {
      n := |entries.Keys * (set k | k in keys)|;
      entries := entries - (set k | k in keys);
    }
  }

  /** The four groups the statistics sort keys into. */
  datatype Bucket = Barbers | Services | Availability | Other

  /** The first matching prefix decides the group. */
  function BucketOf(key: string): (b: Bucket)
    ensures b == Barbers <==> StartsWith(key, "barbers:")
    ensures b == Services <==> !StartsWith(key, "barbers:") && StartsWith(key, "services:")
    ensures b == Availability <==>
      !StartsWith(key, "barbers:") && !StartsWith(key, "services:") && StartsWith(key, "availability:")
  {
    if StartsWith(key, "barbers:") then Barbers
    else if StartsWith(key, "services:") then Services
    else if StartsWith(key, "availability:") then Availability
    else Other
  }

  function CountIn(ks: seq<string>, b: Bucket): nat {
    if |ks| == 0 then 0 else CountIn(ks[..|ks| - 1], b) + (if BucketOf(ks[|ks| - 1]) == b then 1 else 0)
  }

  /** Every key is counted in exactly one group. */
  lemma {:induction false} BucketsPartition(ks: seq<string>)
    ensures CountIn(ks, Barbers) + CountIn(ks, Services) + CountIn(ks, Availability) + CountIn(ks, Other) == |ks|
  {
    if |ks| > 0 {
      BucketsPartition(ks[..|ks| - 1]);
    }
  }

  /** Counted over a list without repeats, a group has as many keys as the set of its keys. */
  lemma {:induction false} CountIsGroupSize(ks: seq<string>, b: Bucket)
    requires Distinct(ks)
    ensures CountIn(ks, b) == |set k | k in ks && BucketOf(k) == b|
  {
    if |ks| > 0 {
      var init := ks[..|ks| - 1];
      var last := ks[|ks| - 1];
      assert Distinct(init);
      CountIsGroupSize(init, b);
      assert last !in init;
      GroupSnoc(init, last, b);
      assert init + [last] == ks;
    }
  }

  /** Appending one key adds it to its own group and to no other. */
  lemma GroupSnoc(init: seq<string>, last: string, b: Bucket)
    requires last !in init
    ensures var before := set k | k in init && BucketOf(k) == b;
            var after := set k | k in init + [last] && BucketOf(k) == b;
            |after| == |before| + (if BucketOf(last) == b then 1 else 0)
  {
    var before := set k | k in init && BucketOf(k) == b;
    var after := set k | k in init + [last] && BucketOf(k) == b;
    if BucketOf(last) == b {
      assert after == before + {last};
    } else {
      assert after == before;
    }
  }

  const MemoryMarker := "used_memory_human:"

  /** The longest prefix without white space. */
  function NonSpaceRun(s: string): (r: string)
    ensures StartsWith(s, r) && (forall i :: 0 <= i < |r| ==> !IsSpace(r[i]))
    ensures |r| == |s| || IsSpace(s[|r|])
  {
    if |s| == 0 || IsSpace(s[0]) then "" else [s[0]] + NonSpaceRun(s[1..])
  }

  /** `/used_memory_human:(\S+)/`'s group, or "unknown" when nothing matches. */
  function MemoryUsage(info: string): (r: string)
    ensures |r| > 0 && forall i :: 0 <= i < |r| ==> !IsSpace(r[i])
    ensures !Contains(info, MemoryMarker) ==> r == "unknown"
    decreases |info|
  {
    if StartsWith(info, MemoryMarker) && |info| > |MemoryMarker| && !IsSpace(info[|MemoryMarker|]) then
      NonSpaceRun(info[|MemoryMarker|..])
    else if |info| == 0 then "unknown"
    else MemoryUsage(info[1..])
  }

  /** A report that starts with the memory line yields that line's value. */
  lemma {:induction false} MemoryUsageOfLeadingLine(v: string, rest: string)
    requires |v| > 0 && forall i :: 0 <= i < |v| ==> !IsSpace(v[i])
    requires |rest| == 0 || IsSpace(rest[0])
    ensures MemoryUsage(MemoryMarker + v + rest) == v
  {
    var info := MemoryMarker + v + rest;
    assert info[..|MemoryMarker|] == MemoryMarker;
    var tail := info[|MemoryMarker|..];
    assert tail == v + rest;
    NonSpaceRunOf(v, rest);
  }

  /**
   * The value of the first memory line is reported wherever the line sits,
   * provided no earlier text already spells the marker.
   */
  lemma {:induction false} MemoryUsageAfter(a: string, v: string, rest: string)
    requires !Contains(a + MemoryMarker[..|MemoryMarker| - 1], MemoryMarker)
    requires |v| > 0 && forall i :: 0 <= i < |v| ==> !IsSpace(v[i])
    requires |rest| == 0 || IsSpace(rest[0])
    ensures MemoryUsage(a + MemoryMarker + v + rest) == v
    decreases |a|
  {
    if |a| == 0 {
      assert a + MemoryMarker + v + rest == MemoryMarker + v + rest;
      MemoryUsageOfLeadingLine(v, rest);
    } else {
      var info := a + MemoryMarker + v + rest;
      var x := a + MemoryMarker[..|MemoryMarker| - 1];
      assert forall k :: 0 <= k < |MemoryMarker| ==> info[k] == x[k];
      assert info[..|MemoryMarker|] == x[..|MemoryMarker|];
      assert !StartsWith(info, MemoryMarker);
      assert x[1..] == a[1..] + MemoryMarker[..|MemoryMarker| - 1];
      assert info[1..] == a[1..] + MemoryMarker + v + rest;
      MemoryUsageAfter(a[1..], v, rest);
    }
  }

  /** The regular expression can match at `j`: the marker starts there and a non-space character follows it. */
  predicate ValueAt(info: string, j: int) {
    0 <= j && j + |MemoryMarker| < |info| && info[j..j + |MemoryMarker|] == MemoryMarker
    && !IsSpace(info[j + |MemoryMarker|])
  }

  /** Dropping the first character moves every match one place to the left. */
  lemma ValueAtShift(info: string, j: int)
    requires |info| > 0 && j >= 0
    ensures ValueAt(info, j + 1) <==> ValueAt(info[1..], j)
  {
    if j + 1 + |MemoryMarker| < |info| {
      var a, b := info[j + 1..j + 1 + |MemoryMarker|], info[1..][j..j + |MemoryMarker|];
      assert |a| == |b| && forall i :: 0 <= i < |a| ==> a[i] == info[j + 1 + i] == b[i];
      assert a == b;
    }
  }

  /**
   * `MemoryUsage` is the regular expression's answer: "unknown" when it matches
   * nowhere, and otherwise the non-space run after its leftmost match.
   */
  lemma {:induction false} MemoryUsageMatches(info: string)
    ensures (forall j :: !ValueAt(info, j)) ==> MemoryUsage(info) == "unknown"
    ensures forall j :: ValueAt(info, j) && (forall k :: 0 <= k < j ==> !ValueAt(info, k)) ==>
      MemoryUsage(info) == NonSpaceRun(info[j + |MemoryMarker|..])
    decreases |info|
  {
    var m := |MemoryMarker|;
    if ValueAt(info, 0) {
      assert info[..m] == info[0..m];
      forall j | ValueAt(info, j) && (forall k :: 0 <= k < j ==> !ValueAt(info, k))
        ensures MemoryUsage(info) == NonSpaceRun(info[j + m..])
      {
        assert j == 0;
      }
    } else if |info| == 0 {
    } else {
      if StartsWith(info, MemoryMarker) && |info| > m {
        assert info[0..m] == info[..m];
      }
      assert MemoryUsage(info) == MemoryUsage(info[1..]);
      MemoryUsageMatches(info[1..]);
      if forall j :: !ValueAt(info, j) {
        forall j | 0 <= j ensures !ValueAt(info[1..], j) {
          ValueAtShift(info, j);
        }
      }
      forall j | ValueAt(info, j) && (forall k :: 0 <= k < j ==> !ValueAt(info, k))
        ensures MemoryUsage(info) == NonSpaceRun(info[j + m..])
      {
        ValueAtShift(info, j - 1);
        forall k | 0 <= k < j - 1 ensures !ValueAt(info[1..], k) {
          ValueAtShift(info, k);
        }
        assert info[1..][j - 1 + m..] == info[j + m..];
      }
    }
  }

  lemma {:induction false} NonSpaceRunOf(v: string, rest: string)
    requires forall i :: 0 <= i < |v| ==> !IsSpace(v[i])
    requires |rest| == 0 || IsSpace(rest[0])
    ensures NonSpaceRun(v + rest) == v
    decreases |v|
  {
    if |v| == 0 {
      assert v + rest == rest;
    } else {
      assert (v + rest)[1..] == v[1..] + rest;
      NonSpaceRunOf(v[1..], rest);
    }
  }

  datatype CacheStats = CacheStats(totalKeys: nat, barbers: nat, services: nat, availability: nat, other: nat,
                                   memoryUsage: string, cacheKeys: seq<string>)

  const MaxListedKeys := 100

  /** The set of stored keys that fall in bucket `b`. */
  function Group(keys: set<string>, b: Bucket): set<string> {
    set k | k in keys && BucketOf(k) == b
  }

  /** The counting loop of `getStats`. */
  method CountBuckets(all: seq<string>) returns (barbers: nat, services: nat, availability: nat, other: nat)
    ensures barbers == CountIn(all, Barbers) && services == CountIn(all, Services)
    ensures availability == CountIn(all, Availability) && other == CountIn(all, Other)
  {
    barbers, services, availability, other := 0, 0, 0, 0;
    for i := 0 to |all|
      invariant barbers == CountIn(all[..i], Barbers) && services == CountIn(all[..i], Services)
      invariant availability == CountIn(all[..i], Availability) && other == CountIn(all[..i], Other)
    {
      assert all[..i + 1][..i] == all[..i];
      var key := all[i];
      if StartsWith(key, "barbers:") {
        barbers := barbers + 1;
      } else if StartsWith(key, "services:") {
        services := services + 1;
      } else if StartsWith(key, "availability:") {
        availability := availability + 1;
      } else {
        other := other + 1;
      }
    }
    assert all[..|all|] == all;
  }

  /** Counted over an enumeration of a key set, a group has the size of its part of the set. */
  lemma {:induction false} GroupSize(all: seq<string>, keys: set<string>, b: Bucket)
    requires Distinct(all) && (set k | k in all) == keys
    ensures CountIn(all, b) == |Group(keys, b)|
  {
    CountIsGroupSize(all, b);
    assert (set k | k in all && BucketOf(k) == b) == Group(keys, b);
  }

  /** `CacheService`, which requires a client. */
  class CacheService {
    const redis: RedisStore

    constructor (redis: RedisStore)
      ensures this.redis == redis
    {
      this.redis := redis;
    }

    /** `invalidateAll`: everything goes; the count is what was there. */
    method InvalidateAll() returns (keysDeleted: nat)
      modifies redis
      ensures keysDeleted == |old(redis.entries)|
      ensures redis.entries == map[]
    {
      var keys := redis.Keys("*");
      assert (set k | k in keys) == redis.entries.Keys;
      DistinctLength(keys);
      if |keys| == 0 {
        return 0;
      }
      var _ := redis.Del(keys);
      return |keys|;
    }

    /** `invalidateByKey`: deleted exactly when the key was there; nothing else changes. */
    method InvalidateByKey(key: string) returns (deleted: bool)
      modifies redis
      ensures deleted <==> key in old(redis.entries)
      ensures redis.entries == old(redis.entries) - {key}
    {
      assert (set k | k in [key]) == {key};
      assert key in redis.entries ==> redis.entries.Keys * {key} == {key};
      assert key !in redis.entries ==> redis.entries.Keys * {key} == {};
      var n := redis.Del([key]);
      deleted := n == 1;
    }

    /** `invalidateByPattern`: exactly the matching keys go, and are reported. */
    method InvalidateByPattern(pattern: string) returns (keysDeleted: nat, keys: seq<string>)
      modifies redis
      ensures Distinct(keys) && keysDeleted == |keys|
      ensures forall k :: k in keys <==> k in old(redis.entries) && KeysMatch(pattern, k)
      ensures redis.entries == old(redis.entries) - (set k | k in keys)
      ensures forall k :: k in old(redis.entries) && !KeysMatch(pattern, k) ==>
        k in redis.entries && redis.entries[k] == old(redis.entries)[k]
    {
      keys := redis.Keys(pattern);
      if |keys| == 0 {
        assert (set k | k in keys) == {};
        return 0, [];
      }
      var _ := redis.Del(keys);
      keysDeleted := |keys|;
    }

    /** `getStats`; `info` is the server's memory report. */
    method GetStats(info: string) returns (stats: CacheStats)
      ensures stats.totalKeys == |redis.entries|
      ensures stats.barbers == |Group(redis.entries.Keys, Barbers)|
      ensures stats.services == |Group(redis.entries.Keys, Services)|
      ensures stats.availability == |Group(redis.entries.Keys, Availability)|
      ensures stats.other == |Group(redis.entries.Keys, Other)|
      ensures stats.barbers + stats.services + stats.availability + stats.other == stats.totalKeys
      ensures stats.memoryUsage == MemoryUsage(info)
      ensures |stats.cacheKeys| == if stats.totalKeys < MaxListedKeys then stats.totalKeys else MaxListedKeys
      ensures Distinct(stats.cacheKeys) && forall k :: k in stats.cacheKeys ==> k in redis.entries
    {
      var all := redis.Keys("*");
      assert (set k | k in all) == redis.entries.Keys;
      DistinctLength(all);
      var barbers, services, availability, other := CountBuckets(all);
      BucketsPartition(all);
      GroupSize(all, redis.entries.Keys, Barbers);
      GroupSize(all, redis.entries.Keys, Services);
      GroupSize(all, redis.entries.Keys, Availability);
      GroupSize(all, redis.entries.Keys, Other);
      var listed := if |all| < MaxListedKeys then all else all[..MaxListedKeys];
      stats := CacheStats(|all|, barbers, services, availability, other, MemoryUsage(info), listed);
    }
  }

  /** Building the service fails without a client. */
  method NewCacheService(client: Option<RedisStore>) returns (r: Result<CacheService, string>)
    ensures r.Err? <==> client.None?
    ensures r.Err? ==> r.error == "Redis client not initialized"
    ensures r.Ok? ==> r.value.redis == client.value
  {
    if client.None? {
      return Err("Redis client not initialized");
    }
    var service := new CacheService(client.value);
    return Ok(service);
  }
}
