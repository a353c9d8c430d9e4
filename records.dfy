/**
 * Plain JavaScript objects as ordered records: `keys` is the order in which
 * `Object.keys` / `Object.entries` / `for..in` enumerate the own properties
 * (insertion order for the non-numeric keys this model uses) and `fields`
 * holds the values.
 */
module Records {

  datatype Rec<V> = Rec(keys: seq<string>, fields: map<string, V>)

  predicate Distinct<T(==)>(s: seq<T>)
  {
    forall i, j :: 0 <= i < j < |s| ==> s[i] != s[j]
  }

  /** Keys are listed once each and exactly the keys that have a value. */
  predicate Valid<V>(r: Rec<V>)
  {
    Distinct(r.keys) && (set k | k in r.keys) == r.fields.Keys
  }

  /** Every listed key of a valid record has a value. */
  lemma KeyAt<V>(r: Rec<V>, i: int)
    requires Valid(r) && 0 <= i < |r.keys|
    ensures r.keys[i] in r.fields
  {
    assert r.keys[i] in (set k | k in r.keys);
  }

  function Empty<V>(): (r: Rec<V>)
    ensures Valid(r) && r.keys == []
  {
    Rec([], map[])
  }

  /** `{[k]: v}` */
  function Single<V>(k: string, v: V): (r: Rec<V>)
    ensures Valid(r) && r.keys == [k] && r.fields == map[k := v]
  {
    Rec([k], map[k := v])
  }

  /** `obj[k] = v`: an existing key keeps its position, a new one goes last. */
  function Put<V>(r: Rec<V>, k: string, v: V): (r': Rec<V>)
    requires Valid(r)
    ensures Valid(r')
    ensures r'.fields == r.fields[k := v]
    ensures k in r.fields ==> r'.keys == r.keys
    ensures k !in r.fields ==> r'.keys == r.keys + [k]
  {
    if k in r.fields then Rec(r.keys, r.fields[k := v])
    else Rec(r.keys + [k], r.fields[k := v])
  }

  /** The keys of `ks` that are not yet keys of `m`, in the order of `ks`. */
  function NewKeys<V>(ks: seq<string>, m: map<string, V>): (r: seq<string>)
    ensures forall k :: k in r <==> k in ks && k !in m
  {
    if ks == [] then []
    else if ks[0] in m then NewKeys(ks[1..], m)
    else [ks[0]] + NewKeys(ks[1..], m)
  }

  lemma {:induction false} NewKeysDistinct<V>(ks: seq<string>, m: map<string, V>)
    requires Distinct(ks)
    ensures Distinct(NewKeys(ks, m))
  {
    if ks != [] {
      NewKeysDistinct(ks[1..], m);
    }
  }

  lemma {:induction false} NewKeysOfEmpty<V>(ks: seq<string>, m: map<string, V>)
    requires m == map[]
    ensures NewKeys(ks, m) == ks
  {
    if ks != [] {
      NewKeysOfEmpty(ks[1..], m);
    }
  }

  lemma {:induction false} NewKeysOfCovered<V>(ks: seq<string>, m: map<string, V>)
    requires forall k :: k in ks ==> k in m
    ensures NewKeys(ks, m) == []
  {
    if ks != [] {
      NewKeysOfCovered(ks[1..], m);
    }
  }

  /**
   * `{...a, ...b}`: the keys of `a` in their order followed by the keys of
   * `b` that `a` lacks; where both have a key, `b`'s value wins.
   */
  function Spread<V>(a: Rec<V>, b: Rec<V>): (r: Rec<V>)
    requires Valid(a) && Valid(b)
    ensures Valid(r)
    ensures r.fields.Keys == a.fields.Keys + b.fields.Keys
    ensures forall k :: k in b.fields ==> r.fields[k] == b.fields[k]
    ensures forall k :: k in a.fields && k !in b.fields ==> r.fields[k] == a.fields[k]
    ensures r.keys == a.keys + NewKeys(b.keys, a.fields)
  {
    NewKeysDistinct(b.keys, a.fields);
    var nk := NewKeys(b.keys, a.fields);
    var r := Rec(a.keys + nk, a.fields + b.fields);
    assert Distinct(r.keys) by {
      forall i, j | 0 <= i < j < |r.keys| ensures r.keys[i] != r.keys[j] {
        if j >= |a.keys| && i < |a.keys| {
          assert r.keys[j] in nk;
          assert r.keys[i] in a.fields;
        }
      }
    }
    r
  }

  /** The record without the keys that `drop` says to drop, order kept. */
  function Without<V>(r: Rec<V>, drop: set<string>): (r': Rec<V>)
    requires Valid(r)
    ensures Valid(r')
    ensures r'.fields.Keys == r.fields.Keys - drop
    ensures forall k :: k in r'.fields ==> r'.fields[k] == r.fields[k]
  {
    var dm := map k | k in drop :: 0;
    NewKeysDistinct(r.keys, dm);
    Rec(NewKeys(r.keys, dm), map k | k in r.fields && k !in drop :: r.fields[k])
  }
}
