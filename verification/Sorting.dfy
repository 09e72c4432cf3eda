/** Python's `sorted`, and why its result depends only on which elements it is given. */
module Sorting {

  ghost predicate TotalOrder<T(!new)>(leq: (T, T) -> bool) {
    && (forall a, b :: leq(a, b) || leq(b, a))
    && (forall a, b :: leq(a, b) && leq(b, a) ==> a == b)
    && (forall a, b, c :: leq(a, b) && leq(b, c) ==> leq(a, c))
  }

  ghost predicate Sorted<T(!new)>(leq: (T, T) -> bool, s: seq<T>) {
    forall i, j | 0 <= i < j < |s| :: leq(s[i], s[j])
  }

  function Insert<T>(leq: (T, T) -> bool, x: T, s: seq<T>): seq<T> {
    if s == [] then [x]
    else if leq(x, s[0]) then [x] + s
    else [s[0]] + Insert(leq, x, s[1..])
  }

  function Sort<T>(leq: (T, T) -> bool, s: seq<T>): seq<T> {
    if s == [] then [] else Insert(leq, s[0], Sort(leq, s[1..]))
  }

  lemma SortedCons<T(!new)>(leq: (T, T) -> bool, x: T, s: seq<T>)
    requires Sorted(leq, s)
    requires forall y | y in s :: leq(x, y)
    ensures Sorted(leq, [x] + s)
  {
  }

  lemma {:induction false} InsertCorrect<T(!new)>(leq: (T, T) -> bool, x: T, s: seq<T>)
    requires TotalOrder(leq) && Sorted(leq, s)
    ensures Sorted(leq, Insert(leq, x, s))
    ensures multiset(Insert(leq, x, s)) == multiset(s) + multiset{x}
  {
    if s != [] {
      assert s == [s[0]] + s[1..];
      if leq(x, s[0]) {
        assert leq(x, s[0]) && forall y | y in s :: y == s[0] || leq(s[0], y);
        SortedCons(leq, x, s);
      } else {
        var rest := Insert(leq, x, s[1..]);
        InsertCorrect(leq, x, s[1..]);
        forall y | y in rest
          ensures leq(s[0], y)
        {
          assert y in multiset(rest);
          assert y == x || y in s[1..];
        }
        SortedCons(leq, s[0], rest);
      }
    }
  }

  /** `sorted` sorts, and keeps every element as often as it was there. */
  lemma {:induction false} SortCorrect<T(!new)>(leq: (T, T) -> bool, s: seq<T>)
    requires TotalOrder(leq)
    ensures Sorted(leq, Sort(leq, s))
    ensures multiset(Sort(leq, s)) == multiset(s)
  {
    if s != [] {
      SortCorrect(leq, s[1..]);
      InsertCorrect(leq, s[0], Sort(leq, s[1..]));
      assert s == [s[0]] + s[1..];
    }
  }

  lemma TailSorted<T(!new)>(leq: (T, T) -> bool, s: seq<T>)
    requires Sorted(leq, s) && s != []
    ensures Sorted(leq, s[1..])
  {
  }

  lemma TailBag<T>(s: seq<T>)
    requires s != []
    ensures multiset(s[1..]) == multiset(s) - multiset{s[0]}
  {
    assert s == [s[0]] + s[1..];
  }

  /** The least element comes first. */
  lemma SameHead<T(!new)>(leq: (T, T) -> bool, a: seq<T>, b: seq<T>)
    requires TotalOrder(leq) && Sorted(leq, a) && Sorted(leq, b)
    requires a != [] && b != [] && a[0] in b && b[0] in a
    ensures a[0] == b[0]
  {
    assert leq(a[0], b[0]) && leq(b[0], a[0]);
  }

  /** A sorted sequence is determined by its elements. */
  lemma {:induction false} SortedUnique<T(!new)>(leq: (T, T) -> bool, a: seq<T>, b: seq<T>)
    requires TotalOrder(leq)
    requires Sorted(leq, a) && Sorted(leq, b)
    requires multiset(a) == multiset(b)
    ensures a == b
  {
    if a == [] {
      assert |multiset(b)| == 0;
    } else {
      assert a[0] in multiset(b);
      assert b != [];
      assert b[0] in multiset(a);
      SameHead(leq, a, b);
      TailBag(a);
      TailBag(b);
      TailSorted(leq, a);
      TailSorted(leq, b);
      SortedUnique(leq, a[1..], b[1..]);
      assert a == [a[0]] + a[1..] && b == [b[0]] + b[1..];
    }
  }

  /** Python's order on strings: by code point, the shorter first when one is a prefix of the other. */
  predicate LexLeq(a: string, b: string) {
    if a == "" then true
    else if b == "" then false
    else a[0] < b[0] || (a[0] == b[0] && LexLeq(a[1..], b[1..]))
  }

  lemma {:induction false} LexTotal(a: string, b: string)
    ensures LexLeq(a, b) || LexLeq(b, a)
    ensures LexLeq(a, b) && LexLeq(b, a) ==> a == b
  {
    if a != "" && b != "" {
      LexTotal(a[1..], b[1..]);
      assert a == [a[0]] + a[1..];
      assert b == [b[0]] + b[1..];
    }
  }

  lemma {:induction false} LexTransitive(a: string, b: string, c: string)
    ensures LexLeq(a, b) && LexLeq(b, c) ==> LexLeq(a, c)
  {
    if a != "" && b != "" && c != "" {
      LexTransitive(a[1..], b[1..], c[1..]);
    }
  }

  /** One text comes before another if it is a beginning of it, or at the first difference has the lower character. */
  lemma {:induction false} LexMeans(a: string, b: string)
    ensures LexLeq(a, b) <==> a <= b || exists k | 0 <= k < |a| && k < |b| :: a[..k] == b[..k] && a[k] < b[k]
  {
    if a != "" && b != "" {
      LexMeans(a[1..], b[1..]);
      if a[0] == b[0] {
        assert a == [a[0]] + a[1..] && b == [b[0]] + b[1..];
        forall k | 0 < k < |a| && k < |b|
          ensures a[..k] == b[..k] <==> a[1..][..k - 1] == b[1..][..k - 1]
        {
          assert a[..k] == [a[0]] + a[1..][..k - 1] && b[..k] == [b[0]] + b[1..][..k - 1];
        }
        if LexLeq(a[1..], b[1..]) && !(a[1..] <= b[1..]) {
          var k :| 0 <= k < |a[1..]| && k < |b[1..]| && a[1..][..k] == b[1..][..k] && a[1..][k] < b[1..][k];
          assert a[..k + 1] == b[..k + 1] && a[k + 1] < b[k + 1];
        }
      } else {
        assert a[..0] == b[..0];
        forall k | 0 < k < |a| && k < |b|
          ensures a[..k] != b[..k]
        {
          assert a[..k][0] == a[0] && b[..k][0] == b[0];
        }
      }
    }
  }

  lemma LexTotalOrder()
    ensures TotalOrder(LexLeq)
  {
    forall a, b
      ensures LexLeq(a, b) || LexLeq(b, a)
      ensures LexLeq(a, b) && LexLeq(b, a) ==> a == b
    {
      LexTotal(a, b);
    }
    forall a, b, c
      ensures LexLeq(a, b) && LexLeq(b, c) ==> LexLeq(a, c)
    {
      LexTransitive(a, b, c);
    }
  }

  ghost function Enumerate(bag: multiset<string>): (s: seq<string>)
    ensures multiset(s) == bag
    decreases |bag|
  {
    if bag == multiset{} then []
    else
      var x :| x in bag;
      [x] + Enumerate(bag - multiset{x})
  }

  /** The one sorted sequence with these elements. */
  ghost function SortedBag(bag: multiset<string>): seq<string> {
    Sort(LexLeq, Enumerate(bag))
  }

  lemma SortedBagCorrect(bag: multiset<string>)
    ensures Sorted(LexLeq, SortedBag(bag)) && multiset(SortedBag(bag)) == bag
  {
    LexTotalOrder();
    SortCorrect(LexLeq, Enumerate(bag));
  }

  /** Sorting any listing of the bag gives that one sequence. */
  lemma SortIsCanonical(s: seq<string>)
    ensures Sort(LexLeq, s) == SortedBag(multiset(s))
  {
    LexTotalOrder();
    SortCorrect(LexLeq, s);
    SortedBagCorrect(multiset(s));
    SortedUnique(LexLeq, Sort(LexLeq, s), SortedBag(multiset(s)));
  }
}
