/** The bag of lines that a dict gives rise to, one for each entry. */
module Bags {

  ghost function AnyKey<V>(m: map<string, V>): (key: string)
    requires m != map[]
    ensures key in m
  {
    var key :| key in m;
    key
  }

  ghost function Bag<V>(line: (string, V) -> string, m: map<string, V>): multiset<string>
    decreases |m|
  {
    if m == map[] then multiset{}
    else
      var key := AnyKey(m);
      multiset{line(key, m[key])} + Bag(line, m - {key})
  }

  lemma Exchange<T>(whole: multiset<T>, a: T, withoutA: multiset<T>, b: T, rest: multiset<T>, withoutB: multiset<T>)
    requires whole == multiset{a} + withoutA
    requires withoutA == multiset{b} + rest
    requires withoutB == multiset{a} + rest
    ensures whole == multiset{b} + withoutB
  {
  }

  /** Any entry may be taken out first. */
  lemma {:induction false} BagOf<V>(line: (string, V) -> string, m: map<string, V>, key: string)
    requires key in m
    ensures Bag(line, m) == multiset{line(key, m[key])} + Bag(line, m - {key})
    decreases |m|
  {
    var first := AnyKey(m);
    var withoutFirst, withoutKey := m - {first}, m - {key};
    if first != key {
      var rest := withoutFirst - {key};
      BagOf(line, withoutFirst, key);
      assert rest == withoutKey - {first};
      BagOf(line, withoutKey, first);
      Exchange(Bag(line, m), line(first, m[first]), Bag(line, withoutFirst),
               line(key, m[key]), Bag(line, rest), Bag(line, withoutKey));
    }
  }

  lemma {:induction false} BagMember<V>(line: (string, V) -> string, m: map<string, V>, x: string) returns (key: string)
    requires x in Bag(line, m)
    ensures key in m && x == line(key, m[key])
    decreases |m|
  {
    var first := AnyKey(m);
    if x == line(first, m[first]) {
      key := first;
    } else {
      key := BagMember(line, m - {first}, x);
    }
  }

  lemma {:induction false} BagSize<V>(line: (string, V) -> string, m: map<string, V>)
    ensures |Bag(line, m)| == |m|
    decreases |m|
  {
    if m != map[] {
      var first := AnyKey(m);
      assert m.Keys == {first} + (m - {first}).Keys;
      BagSize(line, m - {first});
    }
  }

  /** Lists the lines of a dict by taking its entries in no particular order. */
  method CollectLines<V>(line: (string, V) -> string, m: map<string, V>) returns (lines: seq<string>)
    ensures multiset(lines) == Bag(line, m)
  {
    lines := [];
    var left := m;
    while left != map[]
      invariant multiset(lines) + Bag(line, left) == Bag(line, m)
      decreases |left|
    {
      var key :| key in left;
      BagOf(line, left, key);
      lines := lines + [line(key, left[key])];
      left := left - {key};
    }
  }
}
