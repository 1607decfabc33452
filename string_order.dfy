/**
 * The ordering of strings that the ratings store relies on: Python's `cmp` on
 * two strings (used by `Rating.__cmp__`) and the ascending key order in which
 * a B-tree hands back its values.
 */
module StringOrder {

  /** Three-way comparison: lexicographic on characters, a proper prefix first. */
  function Cmp(a: string, b: string): (c: int)
    ensures -1 <= c <= 1
    ensures c == 0 <==> a == b
  {
    if a == [] then (if b == [] then 0 else -1)
    else if b == [] then 1
    else if a[0] < b[0] then -1
    else if b[0] < a[0] then 1
    else
      var c := Cmp(a[1..], b[1..]);
      assert a == [a[0]] + a[1..] && b == [b[0]] + b[1..];
      c
  }

  lemma {:induction false} CmpAntisymmetric(a: string, b: string)
    ensures Cmp(a, b) == -Cmp(b, a)
  {
    if a != [] && b != [] && a[0] == b[0] {
      CmpAntisymmetric(a[1..], b[1..]);
    }
  }

  lemma {:induction false} CmpTransitive(a: string, b: string, c: string)
    requires Cmp(a, b) < 0 && Cmp(b, c) < 0
    ensures Cmp(a, c) < 0
  {
    if a != [] && b != [] && c != [] && a[0] == b[0] && b[0] == c[0] {
      CmpTransitive(a[1..], b[1..], c[1..]);
    }
  }

  /** `k` is no greater than any member of `ks`. */
  predicate IsLeast(k: string, ks: set<string>)
  {
    forall j | j in ks :: Cmp(k, j) <= 0
  }

  lemma {:induction false} LeastExists(ks: set<string>)
    requires ks != {}
    ensures exists k :: k in ks && IsLeast(k, ks)
    decreases ks
  {
    var x :| x in ks;
    if ks == {x} {
      assert IsLeast(x, ks);
    } else {
      LeastExists(ks - {x});
      var m :| m in ks - {x} && IsLeast(m, ks - {x});
      if Cmp(x, m) < 0 {
        forall j | j in ks ensures Cmp(x, j) <= 0 {
          if j != x && j != m { CmpTransitive(x, m, j); }
        }
        assert IsLeast(x, ks);
      } else {
        CmpAntisymmetric(x, m);
        assert IsLeast(m, ks);
      }
    }
  }

  lemma LeastUnique(ks: set<string>)
    ensures forall a, b :: a in ks && b in ks && IsLeast(a, ks) && IsLeast(b, ks) ==> a == b
  {
    forall a, b | a in ks && b in ks && IsLeast(a, ks) && IsLeast(b, ks) ensures a == b {
      CmpAntisymmetric(a, b);
    }
  }

  /** The members of `ks` in ascending order, as a B-tree iterates its keys. */
  function SortedKeys(ks: set<string>): (r: seq<string>)
    ensures |r| == |ks|
    ensures forall k :: k in r <==> k in ks
    decreases ks
  {
    if ks == {} then []
    else
      LeastExists(ks);
      LeastUnique(ks);
      var k :| k in ks && IsLeast(k, ks);
      [k] + SortedKeys(ks - {k})
  }

  /** Strictly ascending, hence without repetition. */
  ghost predicate Ascending(r: seq<string>)
  {
    forall i, j :: 0 <= i < j < |r| ==> Cmp(r[i], r[j]) < 0
  }

  /** A string below every member of an ascending list can go in front of it. */
  lemma AscendingCons(k: string, rest: seq<string>)
    requires Ascending(rest)
    requires forall j :: j in rest ==> Cmp(k, j) < 0
    ensures Ascending([k] + rest)
  {
    var r := [k] + rest;
    forall i, j | 0 <= i < j < |r| ensures Cmp(r[i], r[j]) < 0 {
      assert r[j] == rest[j - 1];
      if i > 0 {
        assert r[i] == rest[i - 1];
      } else {
        assert r[j] in rest;
      }
    }
  }

  /** The first key listed is the least one, and the others follow in the order of the remaining set. */
  lemma SortedKeysFirst(ks: set<string>)
    requires ks != {}
    ensures var r := SortedKeys(ks);
      r[0] in ks && IsLeast(r[0], ks) && r[1..] == SortedKeys(ks - {r[0]})
  {
    LeastExists(ks);
    LeastUnique(ks);
  }

  lemma {:induction false} SortedKeysAscending(ks: set<string>)
    ensures Ascending(SortedKeys(ks))
    decreases ks
  {
    if ks != {} {
      SortedKeysFirst(ks);
      var r := SortedKeys(ks);
      var k := r[0];
      var rest := SortedKeys(ks - {k});
      SortedKeysAscending(ks - {k});
      forall j | j in rest ensures Cmp(k, j) < 0 {
        assert j in ks && j != k;
      }
      AscendingCons(k, rest);
      assert r == [k] + rest;
    }
  }
}
