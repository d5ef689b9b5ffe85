/** What several modules need of options, sequences and maps. */
module Collections {

  datatype Option<T> = None | Some(value: T)

  function Elements<T>(s: seq<T>): set<T> {
    set x | x in s
  }

  /** Every element once, where it first stands. */
  function Distinct<T(==)>(s: seq<T>): (r: seq<T>)
    ensures Elements(r) == Elements(s)
    ensures forall i, j :: 0 <= i < j < |r| ==> r[i] != r[j]
  {
    if s == [] then []
    else
      var rest, last := s[..|s| - 1], s[|s| - 1];
      assert s == rest + [last];
      var ones := Distinct(rest);
      assert Elements(ones + [last]) == Elements(ones) + {last} && Elements(s) == Elements(rest) + {last};
      assert (last in ones <==> last in Elements(ones)) && (last in rest <==> last in Elements(rest));
      if last in rest then ones else ones + [last]
  }

  lemma OneMoreDistinct<T>(s: seq<T>, x: T)
    ensures Distinct(s + [x]) == Distinct(s) + if x in s then [] else [x]
  {
    assert (s + [x])[..|s|] == s;
  }

  /** What was recorded earlier still is. */
  ghost predicate Kept<K, V>(earlier: map<K, V>, later: map<K, V>) {
    forall k :: k in earlier ==> k in later && later[k] == earlier[k]
  }

  predicate SortedBy<T>(s: seq<T>, key: T -> int) {
    forall i, j :: 0 <= i < j < |s| ==> key(s[i]) <= key(s[j])
  }

  lemma FirstIsLeast<T>(x: T, sorted: seq<T>, rest: seq<T>, key: T -> int)
    requires SortedBy(sorted, key) && sorted != [] && key(sorted[0]) < key(x)
    requires SortedBy(rest, key) && forall y :: y in rest ==> y == x || y in sorted[1..]
    ensures SortedBy([sorted[0]] + rest, key)
  {
    forall i | 0 <= i < |rest| ensures key(rest[i]) >= key(sorted[0]) {
      assert rest[i] in rest;
      if rest[i] != x {
        var j :| 0 <= j < |sorted| - 1 && sorted[1..][j] == rest[i];
        assert sorted[j + 1] == rest[i];
      }
    }
  }

  function Insert<T(==, !new)>(x: T, sorted: seq<T>, key: T -> int): (r: seq<T>)
    requires SortedBy(sorted, key)
    ensures SortedBy(r, key) && multiset(r) == multiset(sorted) + multiset{x}
    ensures forall y :: y in r <==> y == x || y in sorted
  {
    if sorted == [] then [x]
    else if key(x) <= key(sorted[0]) then [x] + sorted
    else
      var rest := Insert(x, sorted[1..], key);
      assert sorted == [sorted[0]] + sorted[1..];
      FirstIsLeast(x, sorted, rest, key);
      [sorted[0]] + rest
  }

  /** The same elements, in the order of their keys. */
  function InOrder<T(==, !new)>(s: seq<T>, key: T -> int): (r: seq<T>)
    ensures SortedBy(r, key) && multiset(r) == multiset(s)
    ensures forall y :: y in r <==> y in s
  {
    if s == [] then []
    else
      assert s == [s[0]] + s[1..];
      Insert(s[0], InOrder(s[1..], key), key)
  }

  /** Nothing given up is newer than what stays. */
  ghost predicate KeepsNewest<K>(m: map<K, int>, lost: set<K>) {
    lost <= m.Keys && forall k, l :: k in m && k !in lost && l in lost ==> m[l] <= m[k]
  }

  lemma Least<K>(m: map<K, int>, keys: set<K>) returns (least: K)
    requires keys != {} && keys <= m.Keys
    ensures least in keys && forall k :: k in keys ==> m[least] <= m[k]
    decreases |keys|
  {
    least :| least in keys;
    if keys != {least} {
      var other := Least(m, keys - {least});
      if m[other] < m[least] {
        least := other;
      }
    }
  }

  /** The oldest entries beyond a limit. */
  method Excess<K(==)>(m: map<K, int>, limit: nat) returns (lost: set<K>)
    ensures KeepsNewest(m, lost)
    ensures |m.Keys - lost| <= limit && (lost != {} ==> |m.Keys - lost| == limit)
  {
    lost := {};
    var kept := m.Keys;
    while |kept| > limit
      invariant KeepsNewest(m, lost) && kept == m.Keys - lost
      invariant lost != {} ==> |kept| >= limit
      decreases |kept|
    {
      ghost var first := Least(m, kept);
      assert first in kept && forall k :: k in kept ==> m[first] <= m[k];
      var least :| least in kept && forall k :: k in kept ==> m[least] <= m[k];
      kept, lost := kept - {least}, lost + {least};
    }
  }
}
