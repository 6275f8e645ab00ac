/**
 Python's ordering of `str` values (code point by code point, a proper
 prefix first) and an insertion sort by it, used to list the city names.
 */
module StringOrder {

  predicate Less(a: string, b: string) {
    if |b| == 0 then false
    else if |a| == 0 then true
    else if a[0] != b[0] then a[0] < b[0]
    else Less(a[1..], b[1..])
  }

  predicate LessEq(a: string, b: string) {
    a == b || Less(a, b)
  }

  lemma {:induction false} LessIrreflexive(a: string)
    ensures !Less(a, a)
  {
    if |a| > 0 {
      LessIrreflexive(a[1..]);
    }
  }

  lemma {:induction false} LessAsymmetric(a: string, b: string)
    requires Less(a, b)
    ensures !Less(b, a)
  {
    if |a| > 0 && a[0] == b[0] {
      LessAsymmetric(a[1..], b[1..]);
    }
  }

  lemma {:induction false} LessTransitive(a: string, b: string, c: string)
    requires Less(a, b) && Less(b, c)
    ensures Less(a, c)
  {
    if |a| > 0 && a[0] == b[0] && b[0] == c[0] {
      LessTransitive(a[1..], b[1..], c[1..]);
    }
  }

  lemma {:induction false} LessTotal(a: string, b: string)
    ensures a == b || Less(a, b) || Less(b, a)
  {
    if |a| > 0 && |b| > 0 && a[0] == b[0] {
      LessTotal(a[1..], b[1..]);
      if a[1..] == b[1..] {
        assert a == [a[0]] + a[1..] && b == [b[0]] + b[1..];
      }
    }
  }

  lemma LessEqTransitive(a: string, b: string, c: string)
    requires LessEq(a, b) && LessEq(b, c)
    ensures LessEq(a, c)
  {
    if a != b && b != c {
      LessTransitive(a, b, c);
    }
  }

  lemma LessEqAntisymmetric(a: string, b: string)
    requires LessEq(a, b) && LessEq(b, a)
    ensures a == b
  {
    if a != b {
      LessAsymmetric(a, b);
    }
  }

  predicate Sorted(xs: seq<string>) {
    forall i, j :: 0 <= i < j < |xs| ==> LessEq(xs[i], xs[j])
  }

  /** Sortedness of neighbours gives sortedness of every pair. */
  lemma {:induction false} AdjacentSorted(xs: seq<string>)
    requires forall i :: 0 <= i < |xs| - 1 ==> LessEq(xs[i], xs[i + 1])
    ensures Sorted(xs)
  {
    if |xs| > 1 {
      var tail := xs[1..];
      assert forall i :: 0 <= i < |tail| ==> tail[i] == xs[i + 1];
      AdjacentSorted(tail);
      forall j | 1 <= j < |xs|
        ensures LessEq(xs[0], xs[j])
      {
        if j > 1 {
          assert LessEq(xs[1], xs[j]) by { assert xs[1] == tail[0] && xs[j] == tail[j - 1]; }
          LessEqTransitive(xs[0], xs[1], xs[j]);
        }
      }
    }
  }

  /** Inserts `x` before the first element it does not exceed. */
  function Insert(x: string, xs: seq<string>): (r: seq<string>)
    ensures multiset(r) == multiset(xs) + multiset{x}
    ensures |r| == |xs| + 1
  {
    if xs == [] then [x]
    else if LessEq(x, xs[0]) then [x] + xs
    else
      assert xs == [xs[0]] + xs[1..];
      [xs[0]] + Insert(x, xs[1..])
  }

  lemma {:induction false} InsertSorted(x: string, xs: seq<string>)
    requires Sorted(xs)
    ensures Sorted(Insert(x, xs))
  {
    if xs == [] {
    } else if LessEq(x, xs[0]) {
      var r := [x] + xs;
      forall i, j | 0 <= i < j < |r|
        ensures LessEq(r[i], r[j])
      {
        if i == 0 {
          LessEqTransitive(x, xs[0], xs[j - 1]);
        }
      }
    } else {
      LessTotal(x, xs[0]);
      var tail := xs[1..];
      assert Sorted(tail) by {
        forall i, j | 0 <= i < j < |tail|
          ensures LessEq(tail[i], tail[j])
        {
          assert tail[i] == xs[i + 1] && tail[j] == xs[j + 1];
        }
      }
      InsertSorted(x, tail);
      var rest := Insert(x, tail);
      assert forall k :: 0 <= k < |tail| ==> tail[k] == xs[k + 1];
      var r := [xs[0]] + rest;
      InsertedAllAbove(xs[0], x, tail);
      forall i, j | 0 <= i < j < |r|
        ensures LessEq(r[i], r[j])
      {
        if i == 0 {
          assert r[j] == rest[j - 1];
        } else {
          assert r[i] == rest[i - 1] && r[j] == rest[j - 1];
        }
      }
    }
  }

  /** An element below `x` and below everything in `xs` is below everything in `Insert(x, xs)`. */
  lemma InsertedAllAbove(y: string, x: string, xs: seq<string>)
    requires LessEq(y, x)
    requires forall k :: 0 <= k < |xs| ==> LessEq(y, xs[k])
    ensures forall k :: 0 <= k < |Insert(x, xs)| ==> LessEq(y, Insert(x, xs)[k])
  {
    var r := Insert(x, xs);
    forall k | 0 <= k < |r|
      ensures LessEq(y, r[k])
    {
      assert r[k] in multiset(r);
      if r[k] != x {
        assert r[k] in multiset(xs);
        var m :| 0 <= m < |xs| && xs[m] == r[k];
      }
    }
  }

  /** Insertion sort. */
  function Sort(xs: seq<string>): (r: seq<string>)
    ensures multiset(r) == multiset(xs)
    ensures |r| == |xs|
  {
    if xs == [] then []
    else
      assert xs == [xs[0]] + xs[1..];
      Insert(xs[0], Sort(xs[1..]))
  }

  lemma {:induction false} SortSorted(xs: seq<string>)
    ensures Sorted(Sort(xs))
  {
    if xs != [] {
      SortSorted(xs[1..]);
      InsertSorted(xs[0], Sort(xs[1..]));
    }
  }

  /** The head of a non-empty sorted list is its least element. */
  lemma SortedHeadsEqual(a: seq<string>, b: seq<string>)
    requires Sorted(a) && Sorted(b)
    requires multiset(a) == multiset(b)
    requires |a| > 0
    ensures |b| > 0 && a[0] == b[0]
  {
    assert a[0] in multiset(b);
    var j :| 0 <= j < |b| && b[j] == a[0];
    assert b[0] in multiset(a);
    var i :| 0 <= i < |a| && a[i] == b[0];
    assert LessEq(b[0], a[0]) by { if j > 0 { assert LessEq(b[0], b[j]); } }
    assert LessEq(a[0], b[0]) by { if i > 0 { assert LessEq(a[0], a[i]); } }
    LessEqAntisymmetric(a[0], b[0]);
  }

  lemma MultisetOfTail(a: seq<string>)
    requires |a| > 0
    ensures multiset(a[1..]) == multiset(a) - multiset{a[0]}
  {
    assert a == [a[0]] + a[1..];
  }

  lemma SortedTail(a: seq<string>)
    requires Sorted(a) && |a| > 0
    ensures Sorted(a[1..])
  {
    var t := a[1..];
    forall p, q | 0 <= p < q < |t|
      ensures LessEq(t[p], t[q])
    {
      assert t[p] == a[p + 1] && t[q] == a[q + 1];
    }
  }

  /** Two sorted lists with the same elements are the same list. */
  lemma {:induction false} SortedUnique(a: seq<string>, b: seq<string>)
    requires Sorted(a) && Sorted(b)
    requires multiset(a) == multiset(b)
    ensures a == b
  {
    if |a| == 0 {
      assert |multiset(b)| == 0;
    } else {
      SortedHeadsEqual(a, b);
      MultisetOfTail(a);
      MultisetOfTail(b);
      SortedTail(a);
      SortedTail(b);
      SortedUnique(a[1..], b[1..]);
      assert a == [a[0]] + a[1..] && b == [b[0]] + b[1..];
    }
  }
}
