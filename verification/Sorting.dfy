/** Sorting by a key order, as the built-in `sorted` does it: the result is a sorted permutation, and it
    is the only one when no two elements tie.
 */
module Sorting {
  ghost predicate Ordered<T>(s: seq<T>, le: (T, T) -> bool) {
    forall i, j :: 0 <= i < j < |s| ==> le(s[i], s[j])
  }

  /** On these elements the order is total and transitive. */
  ghost predicate TotalOn<T>(s: seq<T>, le: (T, T) -> bool) {
    && (forall x, y :: x in s && y in s ==> le(x, y) || le(y, x))
    && (forall x, y, z :: x in s && y in s && z in s && le(x, y) && le(y, z) ==> le(x, z))
  }

  ghost predicate NoTies<T>(s: seq<T>, le: (T, T) -> bool) {
    forall x, y :: x in s && y in s && le(x, y) && le(y, x) ==> x == y
  }

  /** Insert after the elements that are not greater, so that equal elements keep their order. */
  function Insert<T>(s: seq<T>, x: T, le: (T, T) -> bool): (r: seq<T>)
    ensures |r| == |s| + 1
  {
    if s == [] then [x]
    else if le(s[|s| - 1], x) then s + [x]
    else Insert(s[..|s| - 1], x, le) + [s[|s| - 1]]
  }

  function Sort<T>(s: seq<T>, le: (T, T) -> bool): (r: seq<T>)
    ensures |r| == |s|
  {
    if s == [] then [] else Insert(Sort(s[..|s| - 1], le), s[|s| - 1], le)
  }

  lemma {:induction false} InsertPermutes<T>(s: seq<T>, x: T, le: (T, T) -> bool)
    ensures multiset(Insert(s, x, le)) == multiset(s) + multiset{x}
  {
    if s != [] && !le(s[|s| - 1], x) {
      InsertPermutes(s[..|s| - 1], x, le);
      assert s == s[..|s| - 1] + [s[|s| - 1]];
    }
  }

  lemma {:induction false} SortPermutes<T>(s: seq<T>, le: (T, T) -> bool)
    ensures multiset(Sort(s, le)) == multiset(s)
  {
    if s == [] {
    } else {
      SortPermutes(s[..|s| - 1], le);
      InsertPermutes(Sort(s[..|s| - 1], le), s[|s| - 1], le);
      assert s == s[..|s| - 1] + [s[|s| - 1]];
    }
  }

  lemma SameElements<T>(a: seq<T>, b: seq<T>)
    requires multiset(a) == multiset(b)
    ensures forall x :: x in a ==> x in b
    ensures forall x :: x in b ==> x in a
    ensures |a| == |b|
  {
    forall x | x in a ensures x in b {
      assert x in multiset(a) && x in multiset(b);
    }
    forall x | x in b ensures x in a {
      assert x in multiset(b) && x in multiset(a);
    }
    assert |multiset(a)| == |multiset(b)|;
  }

  lemma {:induction false} InsertOrders<T>(s: seq<T>, x: T, le: (T, T) -> bool)
    requires Ordered(s, le) && TotalOn(s + [x], le)
    ensures Ordered(Insert(s, x, le), le)
  {
    if s == [] {
    } else {
      var front, last := s[..|s| - 1], s[|s| - 1];
      assert last in s + [x] && x in s + [x];
      if le(last, x) {
        forall i | 0 <= i < |s| ensures le(s[i], x) {
          assert s[i] in s + [x];
          if i < |s| - 1 {
            assert le(s[i], last);
          }
        }
      } else {
        forall y | y in front + [x] ensures y in s + [x] {
        }
        InsertOrders(front, x, le);
        InsertPermutes(front, x, le);
        var r := Insert(front, x, le);
        assert multiset(r) == multiset(front + [x]);
        SameElements(r, front + [x]);
        forall i | 0 <= i < |r| ensures le(r[i], last) {
          assert r[i] in r;
          assert r[i] in front + [x];
        }
      }
    }
  }

  lemma {:induction false} SortOrders<T>(s: seq<T>, le: (T, T) -> bool)
    requires TotalOn(s, le)
    ensures Ordered(Sort(s, le), le)
  {
    if s == [] {
    } else {
      var front, last := s[..|s| - 1], s[|s| - 1];
      SortOrders(front, le);
      SortPermutes(front, le);
      SameElements(Sort(front, le), front);
      forall x | x in Sort(front, le) + [last] ensures x in s {
        if x in Sort(front, le) {
          assert x in front;
        }
      }
      InsertOrders(Sort(front, le), last, le);
    }
  }

  lemma {:induction false} LastsAgree<T>(a: seq<T>, b: seq<T>, le: (T, T) -> bool)
    requires a != [] && multiset(a) == multiset(b) && Ordered(a, le) && Ordered(b, le) && NoTies(a, le)
    ensures |a| == |b| && a[|a| - 1] == b[|b| - 1]
  {
    SameElements(a, b);
    var x, y := a[|a| - 1], b[|b| - 1];
    assert x in a && y in b && x in b && y in a;
    var i :| 0 <= i < |b| && b[i] == x;
    var j :| 0 <= j < |a| && a[j] == y;
    if i < |b| - 1 && j < |a| - 1 {
      assert le(x, y) && le(y, x);
    }
  }

  lemma {:induction false} DropLast<T>(s: seq<T>)
    requires s != []
    ensures multiset(s[..|s| - 1]) == multiset(s) - multiset{s[|s| - 1]}
  {
    assert s == s[..|s| - 1] + [s[|s| - 1]];
  }

  lemma {:induction false} FrontsPermute<T>(a: seq<T>, b: seq<T>)
    requires a != [] && b != [] && multiset(a) == multiset(b) && a[|a| - 1] == b[|b| - 1]
    ensures multiset(a[..|a| - 1]) == multiset(b[..|b| - 1])
  {
    DropLast(a);
    DropLast(b);
  }

  /** A sorted arrangement without ties is unique. */
  lemma {:induction false} OrderedUnique<T>(a: seq<T>, b: seq<T>, le: (T, T) -> bool)
    requires multiset(a) == multiset(b) && Ordered(a, le) && Ordered(b, le) && NoTies(a, le)
    ensures a == b
  {
    if a == [] {
      assert |multiset(b)| == 0;
    } else {
      LastsAgree(a, b, le);
      FrontsPermute(a, b);
      var n := |a| - 1;
      OrderedUnique(a[..n], b[..n], le);
      assert a == a[..n] + [a[n]] && b == b[..n] + [b[n]];
    }
  }

  /** Sorting does not depend on the order of the input. */
  lemma {:induction false} SortCanonical<T>(a: seq<T>, b: seq<T>, le: (T, T) -> bool)
    requires multiset(a) == multiset(b) && TotalOn(a, le) && NoTies(a, le)
    ensures Sort(a, le) == Sort(b, le)
  {
    SameElements(a, b);
    SortPermutes(a, le);
    SortPermutes(b, le);
    SortOrders(a, le);
    SortOrders(b, le);
    SameElements(Sort(a, le), a);
    forall x, y | x in Sort(a, le) && y in Sort(a, le) && le(x, y) && le(y, x) ensures x == y {
      assert x in a && y in a;
    }
    OrderedUnique(Sort(a, le), Sort(b, le), le);
  }

  /** A list that is already in order sorts to itself. */
  lemma {:induction false} SortOfOrdered<T>(s: seq<T>, le: (T, T) -> bool)
    requires Ordered(s, le)
    ensures Sort(s, le) == s
  {
    if s == [] {
    } else {
      var front := s[..|s| - 1];
      SortOfOrdered(front, le);
      if front != [] {
        assert le(s[|s| - 2], s[|s| - 1]);
      }
    }
  }

  // ---------- permutations of distinct elements ----------

  ghost predicate Distinct<T>(s: seq<T>) {
    forall i, j :: 0 <= i < j < |s| ==> s[i] != s[j]
  }

  lemma {:induction false} TwiceIn<T>(s: seq<T>, i: nat, j: nat)
    requires i < j < |s| && s[i] == s[j]
    ensures multiset(s)[s[i]] >= 2
  {
    assert s == s[..j] + [s[j]] + s[j + 1..];
    assert s[i] in s[..j];
    assert s[i] in multiset(s[..j]);
  }

  lemma {:induction false} OnceIn<T>(s: seq<T>, x: T)
    requires Distinct(s)
    ensures multiset(s)[x] <= 1
  {
    if s == [] {
    } else {
      var front := s[..|s| - 1];
      OnceIn(front, x);
      assert s == front + [s[|s| - 1]];
      if x == s[|s| - 1] {
        assert x !in front;
        assert x !in multiset(front);
      }
    }
  }

  lemma {:induction false} DistinctPermuted<T>(a: seq<T>, b: seq<T>)
    requires Distinct(a) && multiset(a) == multiset(b)
    ensures Distinct(b)
  {
    forall i, j | 0 <= i < j < |b| ensures b[i] != b[j] {
      OnceIn(a, b[i]);
      if b[i] == b[j] {
        TwiceIn(b, i, j);
      }
    }
  }
}
