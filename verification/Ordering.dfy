/** Code-point order on strings, the sort used on object keys and scope lists, and `dedup`. */
module Ordering {

  /** Lexicographic order by code point. For UTF-8 text this is also byte order. */
  predicate AtMost(a: string, b: string) {
    a == [] || (b != [] && (a[0] < b[0] || (a[0] == b[0] && AtMost(a[1..], b[1..]))))
  }

  lemma {:induction false} AtMostReflexive(a: string)
    ensures AtMost(a, a)
  {
    if a != [] {
      AtMostReflexive(a[1..]);
    }
  }

  lemma {:induction false} AtMostAntisymmetric(a: string, b: string)
    requires AtMost(a, b) && AtMost(b, a)
    ensures a == b
  {
    if a != [] {
      AtMostAntisymmetric(a[1..], b[1..]);
      assert a == [a[0]] + a[1..] && b == [b[0]] + b[1..];
    }
  }

  lemma {:induction false} AtMostTransitive(a: string, b: string, c: string)
    requires AtMost(a, b) && AtMost(b, c)
    ensures AtMost(a, c)
  {
    if a != [] && a[0] == b[0] == c[0] {
      AtMostTransitive(a[1..], b[1..], c[1..]);
    }
  }

  lemma {:induction false} AtMostTotal(a: string, b: string)
    ensures AtMost(a, b) || AtMost(b, a)
  {
    if a != [] && b != [] && a[0] == b[0] {
      AtMostTotal(a[1..], b[1..]);
    }
  }

  /** The order, without recursion: a prefix comes first, and otherwise the first difference decides. */
  lemma {:induction false} AtMostMeans(a: string, b: string)
    ensures AtMost(a, b) <==> a <= b || exists k :: 0 <= k < |a| && k < |b| && a[..k] == b[..k] && a[k] < b[k]
  {
    if a != [] && b != [] && a[0] == b[0] {
      var s, t := a[1..], b[1..];
      AtMostMeans(s, t);
      assert a == [a[0]] + s && b == [b[0]] + t;
      if k :| 0 <= k < |s| && k < |t| && s[..k] == t[..k] && s[k] < t[k] {
        assert a[..k + 1] == [a[0]] + s[..k] && b[..k + 1] == [b[0]] + t[..k];
        assert a[k + 1] < b[k + 1];
      }
      if k :| 0 <= k < |a| && k < |b| && a[..k] == b[..k] && a[k] < b[k] {
        assert k > 0;
        assert s[..k - 1] == a[..k][1..] && t[..k - 1] == b[..k][1..];
        assert s[k - 1] < t[k - 1];
      }
      assert a <= b <==> s <= t;
    } else if a != [] && b != [] {
      assert a[..0] == b[..0];
    }
  }

  ghost predicate Sorted(s: seq<string>) {
    forall i, j :: 0 <= i < j < |s| ==> AtMost(s[i], s[j])
  }

  ghost predicate Distinct<T>(s: seq<T>) {
    forall i, j :: 0 <= i < j < |s| ==> s[i] != s[j]
  }

  function Elements<T>(s: seq<T>): set<T> {
    set x | x in s
  }

  lemma EmptyElements<T>(s: seq<T>)
    ensures s == [] <==> Elements(s) == {}
  {
    if s != [] {
      assert s[0] in Elements(s);
    }
  }

  /** Two strictly ascending lists of the same strings are the same list. */
  lemma {:induction false} SortedDistinctUnique(a: seq<string>, b: seq<string>)
    requires Sorted(a) && Distinct(a) && Sorted(b) && Distinct(b)
    requires Elements(a) == Elements(b)
    ensures a == b
  {
    if a == [] {
      EmptyElements(b);
    } else {
      assert a[0] in Elements(b);
      assert b != [];
      assert b[0] in Elements(a);
      var i :| 0 <= i < |b| && b[i] == a[0];
      var j :| 0 <= j < |a| && a[j] == b[0];
      AtMostReflexive(a[0]);
      AtMostReflexive(b[0]);
      AtMostAntisymmetric(a[0], b[0]);
      assert Elements(a[1..]) == Elements(a) - {a[0]} by { TailElements(a); }
      assert Elements(b[1..]) == Elements(b) - {b[0]} by { TailElements(b); }
      SortedDistinctUnique(a[1..], b[1..]);
      assert a == [a[0]] + a[1..] && b == [b[0]] + b[1..];
    }
  }

  lemma TailElements<T>(s: seq<T>)
    requires s != [] && Distinct(s)
    ensures Elements(s[1..]) == Elements(s) - {s[0]}
  {
    forall x | x in s[1..] ensures x in s && x != s[0] {
      var i :| 0 <= i < |s[1..]| && s[1..][i] == x;
      assert s[i + 1] == x;
    }
    forall x | x in s && x != s[0] ensures x in s[1..] {
      var i :| 0 <= i < |s| && s[i] == x;
      assert s[1..][i - 1] == x;
    }
  }

  function Insert(x: string, s: seq<string>): seq<string> {
    if s == [] || AtMost(x, s[0]) then [x] + s else [s[0]] + Insert(x, s[1..])
  }

  /** `sort_unstable` on strings. */
  function SortStrings(s: seq<string>): seq<string> {
    if s == [] then [] else Insert(s[0], SortStrings(s[1..]))
  }

  lemma {:induction false} InsertKeeps(x: string, s: seq<string>)
    ensures multiset(Insert(x, s)) == multiset{x} + multiset(s)
  {
    if s == [] || AtMost(x, s[0]) {
    } else {
      InsertKeeps(x, s[1..]);
      assert s == [s[0]] + s[1..];
    }
  }

  lemma {:induction false} InsertSorted(x: string, s: seq<string>)
    requires Sorted(s)
    ensures Sorted(Insert(x, s))
  {
    if s == [] {
    } else if AtMost(x, s[0]) {
      forall i | 0 <= i < |s| ensures AtMost(x, s[i]) {
        AtMostReflexive(s[0]);
        AtMostTransitive(x, s[0], s[i]);
      }
    } else {
      AtMostTotal(x, s[0]);
      InsertSorted(x, s[1..]);
      InsertKeeps(x, s[1..]);
      var r := Insert(x, s[1..]);
      forall j | 0 <= j < |r| ensures AtMost(s[0], r[j]) {
        assert r[j] in multiset(r);
        if r[j] != x {
          assert r[j] in multiset(s[1..]);
          var k :| 0 <= k < |s[1..]| && s[1..][k] == r[j];
          assert s[k + 1] == r[j];
        }
      }
    }
  }

  /** Sorting permutes and orders. */
  lemma {:induction false} SortStringsCorrect(s: seq<string>)
    ensures Sorted(SortStrings(s))
    ensures multiset(SortStrings(s)) == multiset(s)
  {
    if s != [] {
      SortStringsCorrect(s[1..]);
      InsertSorted(s[0], SortStrings(s[1..]));
      InsertKeeps(s[0], SortStrings(s[1..]));
      assert s == [s[0]] + s[1..];
    }
  }

  lemma SameMultisetSameElements<T>(a: seq<T>, b: seq<T>)
    requires multiset(a) == multiset(b)
    ensures Elements(a) == Elements(b)
  {
    forall x ensures x in a <==> x in b {
      assert x in a <==> x in multiset(a);
      assert x in b <==> x in multiset(b);
    }
  }

  lemma SplitMultiset<T>(s: seq<T>, i: nat, j: nat)
    requires i < j < |s| && s[i] == s[j]
    ensures multiset(s)[s[i]] >= 2
  {
    assert s == s[..i] + [s[i]] + s[i + 1..j] + [s[j]] + s[j + 1..];
  }

  lemma {:induction false} DistinctOnce<T>(s: seq<T>, x: T)
    requires Distinct(s)
    ensures multiset(s)[x] <= 1
  {
    if s != [] {
      DistinctOnce(s[1..], x);
      assert s == [s[0]] + s[1..];
      if x == s[0] {
        TailElements(s);
        assert x !in Elements(s[1..]);
      }
    }
  }

  lemma PermutationDistinct<T>(a: seq<T>, b: seq<T>)
    requires multiset(a) == multiset(b) && Distinct(a)
    ensures Distinct(b)
  {
    forall i, j | 0 <= i < j < |b| ensures b[i] != b[j] {
      DistinctOnce(a, b[i]);
      if b[i] == b[j] {
        SplitMultiset(b, i, j);
      }
    }
  }

  // ---------------------------------------------------------------- ascending key lists

  predicate IsLeast(k: string, keys: set<string>) {
    k in keys && forall x | x in keys :: AtMost(k, x)
  }

  lemma {:induction false} FindLeast(keys: set<string>) returns (k: string)
    requires keys != {}
    ensures IsLeast(k, keys)
  {
    var c :| c in keys;
    AtMostReflexive(c);
    if keys == {c} {
      k := c;
    } else {
      var rest := keys - {c};
      assert keys == rest + {c};
      var r := FindLeast(rest);
      AtMostTotal(c, r);
      if AtMost(c, r) {
        k := c;
        forall x | x in keys ensures AtMost(c, x) {
          if x != c { assert x in rest; AtMostTransitive(c, r, x); }
        }
      } else {
        k := r;
        assert forall x :: x in keys ==> x == c || x in rest;
      }
    }
  }

  lemma LeastExistsOnce(keys: set<string>)
    requires keys != {}
    ensures exists k :: IsLeast(k, keys)
    ensures forall a, b :: IsLeast(a, keys) && IsLeast(b, keys) ==> a == b
  {
    var k := FindLeast(keys);
    forall a, b | IsLeast(a, keys) && IsLeast(b, keys) ensures a == b {
      AtMostAntisymmetric(a, b);
    }
  }

  function Least(keys: set<string>): (k: string)
    requires keys != {}
    ensures IsLeast(k, keys)
  {
    LeastExistsOnce(keys);
    var k :| k in keys && IsLeast(k, keys);
    k
  }

  lemma ConsAscending(k: string, rest: seq<string>, keys: set<string>)
    requires IsLeast(k, keys)
    requires Sorted(rest) && Distinct(rest) && Elements(rest) == keys - {k}
    ensures Sorted([k] + rest) && Distinct([k] + rest) && Elements([k] + rest) == keys
  {
    forall i | 0 <= i < |rest| ensures AtMost(k, rest[i]) && rest[i] != k {
      assert rest[i] in Elements(rest);
    }
    assert Elements([k] + rest) == {k} + Elements(rest);
  }

  /** The keys of a map, ascending. */
  function SortedKeys(keys: set<string>): (r: seq<string>)
    ensures Sorted(r) && Distinct(r) && Elements(r) == keys
  {
    if keys == {} then []
    else
      var k := Least(keys);
      var rest := SortedKeys(keys - {k});
      ConsAscending(k, rest, keys);
      [k] + rest
  }

  /** Collecting the keys in whatever order the map yields them and sorting gives the ascending list. */
  lemma CollectThenSort(order: seq<string>)
    requires Distinct(order)
    ensures SortStrings(order) == SortedKeys(Elements(order))
  {
    SortStringsCorrect(order);
    SameMultisetSameElements(order, SortStrings(order));
    PermutationDistinct(order, SortStrings(order));
    SortedDistinctUnique(SortStrings(order), SortedKeys(Elements(order)));
  }

  // ---------------------------------------------------------------- dedup

  /** `Vec::dedup`: drop every element equal to its predecessor. */
  function Dedup(s: seq<string>): seq<string> {
    if |s| <= 1 then s
    else if s[0] == s[1] then Dedup(s[1..])
    else [s[0]] + Dedup(s[1..])
  }

  /** On a sorted list, `dedup` leaves each string once. */
  lemma {:induction false} DedupSorted(s: seq<string>)
    requires Sorted(s)
    ensures Sorted(Dedup(s)) && Distinct(Dedup(s)) && Elements(Dedup(s)) == Elements(s)
  {
    if |s| <= 1 {
    } else {
      DedupSorted(s[1..]);
      var r := Dedup(s[1..]);
      assert s == [s[0]] + s[1..];
      assert Elements(r) == Elements(s[1..]);
      assert Elements(s) == {s[0]} + Elements(s[1..]);
      if s[0] == s[1] {
        assert s[1..][0] in s[1..];
      } else {
        assert Elements([s[0]] + r) == {s[0]} + Elements(r);
        forall j | 0 <= j < |r| ensures AtMost(s[0], r[j]) && r[j] != s[0] {
          assert r[j] in Elements(s[1..]);
          var k :| 0 <= k < |s[1..]| && s[1..][k] == r[j];
          assert s[k + 1] == r[j];
          if r[j] == s[0] {
            AtMostReflexive(s[1]);
            assert AtMost(s[0], s[1]);
            assert AtMost(s[1], s[k + 1]);
            AtMostAntisymmetric(s[0], s[1]);
          }
        }
      }
    }
  }
}
