/**
 Total orders, and the one sorted listing that a finite set has under such an order.
 This is what makes a result independent of the order in which a map is enumerated.
 */
module Ordering {
  ghost predicate TotalOrder<T(!new)>(leq: (T, T) -> bool) {
    && (forall x, y {:trigger leq(x, y), leq(y, x)} :: leq(x, y) || leq(y, x))
    && (forall x, y {:trigger leq(x, y), leq(y, x)} :: leq(x, y) && leq(y, x) ==> x == y)
    && (forall x, y, z {:trigger leq(x, y), leq(y, z), leq(x, z)} :: leq(x, y) && leq(y, z) ==> leq(x, z))
  }

  ghost predicate Sorted<T(!new)>(s: seq<T>, leq: (T, T) -> bool) {
    forall i, j :: 0 <= i < j < |s| ==> leq(s[i], s[j])
  }

  lemma HeadIsLeast<T(!new)>(s: seq<T>, x: T, leq: (T, T) -> bool)
    requires TotalOrder(leq) && Sorted(s, leq) && x in s
    ensures leq(s[0], x)
  {
    var i :| 0 <= i < |s| && s[i] == x;
    assert leq(s[0], s[i]) || i == 0;
  }

  /** Two sorted sequences with the same elements, each as often, are equal. */
  lemma {:induction false} SortedIsUnique<T(!new)>(s: seq<T>, t: seq<T>, leq: (T, T) -> bool)
    requires TotalOrder(leq) && Sorted(s, leq) && Sorted(t, leq) && multiset(s) == multiset(t)
    ensures s == t
  {
    if s == [] {
      assert |multiset(t)| == |t|;
    } else {
      assert s[0] in multiset(t);
      HeadIsLeast(t, s[0], leq);
      assert t[0] in multiset(s);
      HeadIsLeast(s, t[0], leq);
      assert leq(s[0], t[0]) && leq(t[0], s[0]);
      TailsMatch(s, t);
      SortedIsUnique(s[1..], t[1..], leq);
      assert s == [s[0]] + s[1..] && t == [t[0]] + t[1..];
    }
  }

  lemma TailsMatch<T>(s: seq<T>, t: seq<T>)
    requires s != [] && t != [] && s[0] == t[0] && multiset(s) == multiset(t)
    ensures multiset(s[1..]) == multiset(t[1..])
  {
    assert s == [s[0]] + s[1..] && t == [t[0]] + t[1..];
    assert multiset(s[1..]) == multiset(s) - multiset{s[0]};
  }

  lemma {:induction false} LeastExists<T(!new)>(xs: set<T>, leq: (T, T) -> bool)
    requires TotalOrder(leq) && xs != {}
    ensures exists x :: x in xs && forall y :: y in xs ==> leq(x, y)
  {
    var x :| x in xs;
    if xs == {x} {
      assert forall y :: y in xs ==> leq(x, y);
    } else {
      LeastExists(xs - {x}, leq);
      var z :| z in xs - {x} && forall y :: y in xs - {x} ==> leq(z, y);
      assert forall y :: y in xs ==> y == x || y in xs - {x};
      if leq(x, z) {
        assert forall y :: y in xs ==> leq(x, y);
      } else {
        assert forall y :: y in xs ==> leq(z, y);
      }
    }
  }

  lemma LeastFirst<T(!new)>(x: T, rest: seq<T>, xs: set<T>, leq: (T, T) -> bool)
    requires x in xs && forall y :: y in xs ==> leq(x, y)
    requires Sorted(rest, leq) && multiset(rest) == multiset(xs - {x})
    ensures Sorted([x] + rest, leq) && multiset([x] + rest) == multiset(xs)
  {
    forall j | 0 <= j < |rest|
      ensures leq(x, rest[j])
    {
      assert rest[j] in multiset(rest);
    }
    assert multiset(xs) == multiset{x} + multiset(xs - {x});
  }

  /** The elements of a set in order. */
  ghost function Listing<T(!new)>(xs: set<T>, leq: (T, T) -> bool): (s: seq<T>)
    requires TotalOrder(leq)
    ensures Sorted(s, leq) && multiset(s) == multiset(xs)
  {
    if xs == {} then []
    else
      LeastExists(xs, leq);
      var x :| x in xs && forall y :: y in xs ==> leq(x, y);
      LeastFirst(x, Listing(xs - {x}, leq), xs, leq);
      [x] + Listing(xs - {x}, leq)
  }

  lemma WithoutFirst<T(!new)>(s: seq<T>, xs: set<T>)
    requires multiset(s) == multiset(xs) && s != []
    ensures s[0] in xs && multiset(s[1..]) == multiset(xs - {s[0]})
  {
    assert s[0] in multiset(s);
    assert s == [s[0]] + s[1..];
    assert multiset(s[1..]) == multiset(s) - multiset{s[0]};
    assert multiset(xs - {s[0]}) == multiset(xs) - multiset{s[0]};
  }

  /** What it means for a sequence to hold the elements of a set, each once. */
  lemma {:induction false} EachOnce<T(!new)>(s: seq<T>, xs: set<T>)
    requires multiset(s) == multiset(xs)
    ensures |s| == |xs|
    ensures forall x :: x in s <==> x in xs
    ensures forall i, j :: 0 <= i < j < |s| ==> s[i] != s[j]
  {
    if s == [] {
      assert forall x :: x !in multiset(xs);
    } else {
      WithoutFirst(s, xs);
      EachOnce(s[1..], xs - {s[0]});
      assert s == [s[0]] + s[1..];
      assert forall x :: x in s <==> x == s[0] || x in s[1..];
      forall i, j | 0 <= i < j < |s|
        ensures s[i] != s[j]
      {
        assert s[j] in s[1..];
      }
    }
  }

  /** Distinct elements that are exactly those of a set hold each once. */
  lemma {:induction false} DistinctHolds<T(!new)>(s: seq<T>, xs: set<T>)
    requires forall x :: x in s <==> x in xs
    requires forall i, j :: 0 <= i < j < |s| ==> s[i] != s[j]
    ensures multiset(s) == multiset(xs)
  {
    if s == [] {
      assert xs == {};
    } else {
      var init, last := s[..|s| - 1], s[|s| - 1];
      assert s == init + [last];
      assert last !in init;
      DistinctHolds(init, xs - {last});
      assert multiset(xs) == multiset(xs - {last}) + multiset{last};
    }
  }

  /** A sorted sequence that holds exactly the elements of a set, each once, is its listing. */
  lemma ListingIsUnique<T(!new)>(s: seq<T>, xs: set<T>, leq: (T, T) -> bool)
    requires TotalOrder(leq) && Sorted(s, leq)
    requires multiset(s) == multiset(xs)
    ensures s == Listing(xs, leq)
  {
    SortedIsUnique(s, Listing(xs, leq), leq);
  }

  /** The library sort. */
  method Sort<T(!new)>(s: seq<T>, leq: (T, T) -> bool) returns (r: seq<T>)
    requires TotalOrder(leq)
    ensures Sorted(r, leq) && multiset(r) == multiset(s)
  {
    r := [];
    for n := 0 to |s|
      invariant Sorted(r, leq) && multiset(r) == multiset(s[..n])
    {
      assert s[..n + 1] == s[..n] + [s[n]];
      r := InsertSorted(r, s[n], leq);
    }
    assert s[..|s|] == s;
  }

  method InsertSorted<T(!new)>(s: seq<T>, x: T, leq: (T, T) -> bool) returns (r: seq<T>)
    requires TotalOrder(leq) && Sorted(s, leq)
    ensures Sorted(r, leq) && multiset(r) == multiset(s + [x])
  {
    var k := |s|;
    while k > 0 && !leq(s[k - 1], x)
      invariant 0 <= k <= |s|
      invariant forall i :: k <= i < |s| ==> leq(x, s[i])
    {
      k := k - 1;
      assert leq(s[k], x) || leq(x, s[k]);
    }
    r := s[..k] + [x] + s[k..];
    InsertedSorted(s, x, k, leq);
  }

  lemma InsertedSorted<T(!new)>(s: seq<T>, x: T, k: nat, leq: (T, T) -> bool)
    requires TotalOrder(leq) && Sorted(s, leq) && k <= |s|
    requires (forall i :: k <= i < |s| ==> leq(x, s[i])) && (k > 0 ==> leq(s[k - 1], x))
    ensures Sorted(s[..k] + [x] + s[k..], leq) && multiset(s[..k] + [x] + s[k..]) == multiset(s + [x])
  {
    var r := s[..k] + [x] + s[k..];
    forall i | 0 <= i < k
      ensures leq(s[i], x)
    {
      assert i < k - 1 ==> leq(s[i], s[k - 1]);
    }
    forall i, j | 0 <= i < j < |r|
      ensures leq(r[i], r[j])
    {
      assert r[i] == if i < k then s[i] else if i == k then x else s[i - 1];
      assert r[j] == if j < k then s[j] else if j == k then x else s[j - 1];
    }
    InsertedElements(s, x, k);
  }

  lemma InsertedElements<T>(s: seq<T>, x: T, k: nat)
    requires k <= |s|
    ensures multiset(s[..k] + [x] + s[k..]) == multiset(s + [x])
  {
    assert s == s[..k] + s[k..];
  }

  /** Byte-wise comparison of texts. */
  predicate LexLeq(a: string, b: string) {
    a == [] || (b != [] && (a[0] < b[0] || (a[0] == b[0] && LexLeq(a[1..], b[1..]))))
  }

  lemma {:induction false} LexTotal(a: string, b: string)
    ensures LexLeq(a, b) || LexLeq(b, a)
  {
    if a != [] && b != [] && a[0] == b[0] {
      LexTotal(a[1..], b[1..]);
    }
  }

  lemma {:induction false} LexAntisymmetric(a: string, b: string)
    requires LexLeq(a, b) && LexLeq(b, a)
    ensures a == b
  {
    if a != [] {
      LexAntisymmetric(a[1..], b[1..]);
      assert a == [a[0]] + a[1..] && b == [b[0]] + b[1..];
    }
  }

  lemma {:induction false} LexTransitive(a: string, b: string, c: string)
    requires LexLeq(a, b) && LexLeq(b, c)
    ensures LexLeq(a, c)
  {
    if a != [] && a[0] == b[0] == c[0] {
      LexTransitive(a[1..], b[1..], c[1..]);
    }
  }

  lemma LexIsTotalOrder()
    ensures TotalOrder(LexLeq)
  {
    forall a, b
      ensures LexLeq(a, b) || LexLeq(b, a)
      ensures LexLeq(a, b) && LexLeq(b, a) ==> a == b
    {
      LexTotal(a, b);
      if LexLeq(a, b) && LexLeq(b, a) {
        LexAntisymmetric(a, b);
      }
    }
    forall a, b, c | LexLeq(a, b) && LexLeq(b, c)
      ensures LexLeq(a, c)
    {
      LexTransitive(a, b, c);
    }
  }
}
