/** How MockValidator compares state-set requests. */
module MockValidator {
  import opened Sorting

  datatype Entry = Entry(address: string, data: string)

  /** Python's order on pairs. */
  predicate PairLeq(a: Entry, b: Entry) {
    if a.address == b.address then LexLeq(a.data, b.data) else LexLeq(a.address, b.address)
  }

  function CompareSetRequest(entries1: seq<Entry>, entries2: seq<Entry>): bool {
    |entries1| == |entries2| && Sort(PairLeq, entries1) == Sort(PairLeq, entries2)
  }

  lemma PairTotalOrder()
    ensures TotalOrder(PairLeq)
  {
    LexTotalOrder();
    forall a, b, c
      ensures PairLeq(a, b) && PairLeq(b, c) ==> PairLeq(a, c)
    {
      if PairLeq(a, b) && PairLeq(b, c) {
        LexTransitive(a.address, b.address, c.address);
        LexTransitive(a.data, b.data, c.data);
        LexTotal(a.address, b.address);
        LexTotal(b.address, c.address);
      }
    }
    forall a, b
      ensures PairLeq(a, b) || PairLeq(b, a)
      ensures PairLeq(a, b) && PairLeq(b, a) ==> a == b
    {
      LexTotal(a.address, b.address);
      LexTotal(a.data, b.data);
    }
  }

  /** The requests compare equal exactly when they list the same entries the same number of times, in any order. */
  lemma ComparesMultisets(entries1: seq<Entry>, entries2: seq<Entry>)
    ensures CompareSetRequest(entries1, entries2) <==> multiset(entries1) == multiset(entries2)
  {
    PairTotalOrder();
    SortCorrect(PairLeq, entries1);
    SortCorrect(PairLeq, entries2);
    if multiset(entries1) == multiset(entries2) {
      assert |multiset(entries1)| == |entries1| && |multiset(entries2)| == |entries2|;
      SortedUnique(PairLeq, Sort(PairLeq, entries1), Sort(PairLeq, entries2));
    }
  }
}
