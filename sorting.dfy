/**
  The order of the lists the GET routes return: rows sorted by name,
  ascending. Names are compared character by character on their codes, a
  proper prefix coming first; the database's collation is not part of this
  model. Rows with equal names come out in reverse table order: each row is
  inserted into the sorted rows that follow it, after those with an equal
  name. The database leaves the order of such rows unspecified.
 */
module Sorting {
  import opened Common

  /** `a` comes no later than `b`: a prefix of `b`, or smaller at the first character where they differ. */
  predicate LexLe(a: string, b: string)
  {
    a == [] || (b != [] && (a[0] < b[0] || (a[0] == b[0] && LexLe(a[1..], b[1..]))))
  }

  lemma {:induction false} LexLeTotal(a: string, b: string)
    ensures LexLe(a, b) || LexLe(b, a)
  {
    if a != [] && b != [] && a[0] == b[0] {
      LexLeTotal(a[1..], b[1..]);
    }
  }

  lemma {:induction false} LexLeTrans(a: string, b: string, c: string)
    requires LexLe(a, b) && LexLe(b, c)
    ensures LexLe(a, c)
  {
    if a != [] && b != [] && c != [] && a[0] == b[0] && b[0] == c[0] {
      LexLeTrans(a[1..], b[1..], c[1..]);
    }
  }

  /** Two different strings are never each at most the other. */
  lemma {:induction false} LexLeAntisymmetric(a: string, b: string)
    requires LexLe(a, b) && LexLe(b, a)
    ensures a == b
  {
    if a != [] && b != [] {
      LexLeAntisymmetric(a[1..], b[1..]);
      assert a == [a[0]] + a[1..] && b == [b[0]] + b[1..];
    }
  }

  predicate SortedBy<T>(xs: seq<T>, key: T -> string)
  {
    forall i, j :: 0 <= i < j < |xs| ==> LexLe(key(xs[i]), key(xs[j]))
  }

  /** `x` inserted into a sorted list after every row whose key is not greater. */
  function InsertBy<T(==)>(x: T, xs: seq<T>, key: T -> string): (r: seq<T>)
    requires SortedBy(xs, key)
    ensures SortedBy(r, key) && multiset(r) == multiset(xs) + multiset{x}
  {
    if xs == [] then [x]
    else if !LexLe(key(xs[0]), key(x)) then
      LexLeTotal(key(x), key(xs[0]));
      forall j | 0 <= j < |xs|
        ensures LexLe(key(x), key(xs[j]))
      {
        if j > 0 {
          LexLeTrans(key(x), key(xs[0]), key(xs[j]));
        }
      }
      [x] + xs
    else
      var rest := InsertBy(x, xs[1..], key);
      assert xs == [xs[0]] + xs[1..];
      forall e | e in rest
        ensures LexLe(key(xs[0]), key(e))
      {
        assert e in multiset(rest);
        if e != x {
          assert e in multiset(xs[1..]);
          var j :| 0 <= j < |xs[1..]| && xs[1..][j] == e;
          assert xs[j + 1] == e;
        }
      }
      [xs[0]] + rest
  }

  /** Insertion sort by key: the same rows, in ascending key order. */
  function SortBy<T(==)>(xs: seq<T>, key: T -> string): (r: seq<T>)
    ensures SortedBy(r, key) && multiset(r) == multiset(xs)
  {
    if xs == [] then []
    else
      assert xs == [xs[0]] + xs[1..];
      InsertBy(xs[0], SortBy(xs[1..], key), key)
  }

  /** The sort is not stable: two rows with equal keys come out in reverse order. */
  lemma TiesReversed<T>(a: T, b: T, key: T -> string)
    requires key(a) == key(b)
    ensures SortBy([a, b], key) == [b, a]
  {
    assert [a, b][1..] == [b];
    assert [b][1..] == [];
    assert LexLe(key(b), key(a)) by {
      LexLeTotal(key(a), key(b));
    }
  }

  /** No element occurs twice. */
  predicate Distinct<T(==)>(xs: seq<T>)
  {
    forall i, j :: 0 <= i < j < |xs| ==> xs[i] != xs[j]
  }

  lemma {:induction false} DistinctOnce<T>(xs: seq<T>, x: T)
    requires Distinct(xs)
    ensures multiset(xs)[x] <= 1
  {
    if xs != [] {
      assert xs == [xs[0]] + xs[1..];
      DistinctOnce(xs[1..], x);
      if xs[0] == x {
        assert x !in xs[1..];
      }
    }
  }

  lemma RepeatTwice<T>(xs: seq<T>, i: nat, j: nat)
    requires i < j < |xs| && xs[i] == xs[j]
    ensures multiset(xs)[xs[i]] >= 2
  {
    assert xs == xs[..i] + [xs[i]] + xs[i + 1..j] + [xs[j]] + xs[j + 1..];
  }

  /** Rearranging a list without repeats gives a list without repeats. */
  lemma DistinctPermutation<T>(xs: seq<T>, ys: seq<T>)
    requires Distinct(xs) && multiset(ys) == multiset(xs)
    ensures Distinct(ys)
  {
    forall i, j | 0 <= i < j < |ys|
      ensures ys[i] != ys[j]
    {
      DistinctOnce(xs, ys[i]);
      if ys[i] == ys[j] {
        RepeatTwice(ys, i, j);
      }
    }
  }

  /** A rearranged list has the same elements. */
  lemma SameElements<T>(xs: seq<T>, ys: seq<T>)
    requires multiset(ys) == multiset(xs)
    ensures forall v :: v in ys <==> v in xs
  {
    forall v
      ensures v in ys <==> v in xs
    {
      assert v in ys <==> v in multiset(ys);
      assert v in xs <==> v in multiset(xs);
    }
  }
}
