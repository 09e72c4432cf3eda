/**
 * A flat map from names to values, kept at addresses that names may share: all the values whose
 * names have the same address are written there together, as one text.
 */
module Buckets {
  import opened Common
  import opened Validator
  import opened Addresses

  /** The part of the flat map that is kept at one address. */
  ghost function Bucket<V>(at: string -> string, flat: map<string, V>, a: string): map<string, V> {
    map name | name in flat && at(name) == a :: flat[name]
  }

  /** The state that stands for the flat map: one text at each address in use, nothing elsewhere. */
  ghost function Encode<V>(at: string -> string, text: map<string, V> -> string, flat: map<string, V>): Store {
    map a | a in (set name | name in flat :: at(name)) :: text(Bucket(at, flat, a))
  }

  /** The part of the state that belongs to one family. */
  ghost function Part(store: Store, prefix: string): Store {
    map a | a in store && InFamily(a, prefix) :: store[a]
  }

  lemma BucketInUse<V>(at: string -> string, flat: map<string, V>, a: string)
    ensures a in (set name | name in flat :: at(name)) <==> Bucket(at, flat, a) != map[]
  {
    if a in (set name | name in flat :: at(name)) {
      var name :| name in flat && at(name) == a;
      assert name in Bucket(at, flat, a);
    }
    if Bucket(at, flat, a) != map[] {
      var name :| name in Bucket(at, flat, a);
      assert name in flat && at(name) == a;
    }
  }

  lemma BucketUsed<V>(at: string -> string, text: map<string, V> -> string, flat: map<string, V>, a: string)
    ensures a in Encode(at, text, flat) <==> Bucket(at, flat, a) != map[]
  {
    BucketInUse(at, flat, a);
  }

  /** Setting one name changes one bucket. */
  lemma BucketSet<V>(at: string -> string, flat: map<string, V>, name: string, v: V)
    ensures Bucket(at, flat[name := v], at(name)) == Bucket(at, flat, at(name))[name := v]
    ensures forall a | a != at(name) :: Bucket(at, flat[name := v], a) == Bucket(at, flat, a)
  {
    forall a | a != at(name)
      ensures Bucket(at, flat[name := v], a) == Bucket(at, flat, a)
    {
      assert Bucket(at, flat[name := v], a) == Bucket(at, flat, a);
    }
  }

  /** Setting one name rewrites one address. */
  lemma EncodeSet<V>(at: string -> string, text: map<string, V> -> string, flat: map<string, V>, name: string, v: V)
    ensures Encode(at, text, flat[name := v])
         == Encode(at, text, flat)[at(name) := text(Bucket(at, flat, at(name))[name := v])]
  {
    var after := flat[name := v];
    BucketSet(at, flat, name, v);
    forall a | a != at(name)
      ensures a in Encode(at, text, after) <==> a in Encode(at, text, flat)
    {
      BucketUsed(at, text, flat, a);
      BucketUsed(at, text, after, a);
    }
    assert name in after;
  }

  /** Removing one name rewrites one address, or frees it when no other name is left there. */
  lemma EncodeRemove<V>(at: string -> string, text: map<string, V> -> string, flat: map<string, V>, name: string)
    requires name in flat
    ensures Encode(at, text, flat - {name})
         == (var rest := Bucket(at, flat, at(name)) - {name};
             if rest == map[] then Encode(at, text, flat) - {at(name)}
             else Encode(at, text, flat)[at(name) := text(rest)])
  {
    var after := flat - {name};
    assert Bucket(at, after, at(name)) == Bucket(at, flat, at(name)) - {name};
    BucketUsed(at, text, after, at(name));
    forall a | a != at(name)
      ensures Bucket(at, after, a) == Bucket(at, flat, a)
      ensures a in Encode(at, text, after) <==> a in Encode(at, text, flat)
    {
      assert Bucket(at, after, a) == Bucket(at, flat, a);
      BucketUsed(at, text, flat, a);
      BucketUsed(at, text, after, a);
    }
  }

  /** Looking at an address of the family is looking at its part. */
  lemma PartVisible(store: Store, prefix: string, a: string)
    requires InFamily(a, prefix)
    ensures Visible(store, a) == Visible(Part(store, prefix), a)
  {
  }

  /** A write inside the family changes its part the same way, and leaves every other part alone. */
  lemma PartWrite(store: Store, prefix: string, a: string, data: string)
    requires InFamily(a, prefix)
    ensures Part(store[a := data], prefix) == Part(store, prefix)[a := data]
    ensures Part(store - {a}, prefix) == Part(store, prefix) - {a}
  {
  }
}
