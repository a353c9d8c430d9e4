/**
 * The JSON-file databases of src/utils/lowDb.ts: an array database with
 * Prisma-like `where` queries and an object database with field updates.
 * Each database object holds its data in place; `stored` is the data as the
 * last `db.write()` was handed it, before serialization (a hole that is
 * `Undefined` here is `null` in the file), or nothing while no file exists. A query that throws (a `where`
 * key read off a `null` item) is an `Err` carrying the message.
 */
module LowDb {
  import opened Wrappers
  import opened Records
  import opened Values
  import opened Json

  /** `getInfo().path`: `<cwd>/database/<name>.json`. */
  function DatabasePath(cwd: string, name: string): (r: string)
    ensures Strings.EndsWith(r, name + ".json")
  {
    var r := cwd + "/database/" + name + ".json";
    assert r[|r| - |name + ".json"|..] == name + ".json";
    r
  }

  // ---------------------------------------------------------------- where clauses

  /** `a === b`: primitives by value; two objects or arrays are never the same object here. */
  predicate StrictEquals(a: Value, b: Value)
  {
    !(a.Arr? || a.Obj? || a.Host?) && a == b
  }

  /** The value the where clause gives for `k`. */
  function WhereValue(where: Rec<Value>, k: string): Value
  {
    if k in where.fields then where.fields[k] else Undefined
  }

  /** One key of a where clause: a plain-object value is compared by its JSON text, any other by `===`. */
  predicate FieldMatches(itemValue: Value, whereValue: Value)
  {
    if IsPlainObject(whereValue) then Stringify(itemValue) == Stringify(whereValue)
    else StrictEquals(itemValue, whereValue)
  }

  /** Every key of `ks` matches. */
  predicate AllMatch(item: Value, where: Rec<Value>, ks: seq<string>)
  {
    forall k | k in ks :: FieldMatches(Opt(item, k), WhereValue(where, k))
  }

  /**
   * `Object.keys(where).every(...)` over the keys `ks`: reading a key of a
   * `null` or `undefined` item throws, and the first key that does not match
   * ends the walk with `false`.
   */
  function MatchesKeys(item: Value, where: Rec<Value>, ks: seq<string>): (r: Result<bool>)
    ensures r.Err? <==> ks != [] && Nullish(item)
    ensures r == Ok(true) <==> (ks == [] || !Nullish(item)) && AllMatch(item, where, ks)
  {
    if ks == [] then Ok(true)
    else
      match Get(item, ks[0])
      case Err(m) => Err(m)
      case Ok(v) =>
        assert ks == [ks[0]] + ks[1..];
        if FieldMatches(v, WhereValue(where, ks[0])) then MatchesKeys(item, where, ks[1..]) else Ok(false)
  }

  /** `matchesWhere(item, where)` */
  function Matches(item: Value, where: Rec<Value>): Result<bool>
  {
    MatchesKeys(item, where, where.keys)
  }

  /** An empty where clause matches every item, `null` ones included. */
  lemma EmptyWhereMatchesAll(item: Value)
    ensures Matches(item, Empty()) == Ok(true)
  {
  }

  /** A where clause with keys throws on a `null` or `undefined` item. */
  lemma NullItemThrows(item: Value, where: Rec<Value>)
    requires Nullish(item) && where.keys != []
    ensures Matches(item, where).Err?
  {
  }

  /** `findIndex`: the index of the first matching item or -1; a matching test that throws stops the search. */
  function FirstMatch(items: seq<Value>, where: Rec<Value>): (r: Result<int>)
    ensures r.Ok? ==> -1 <= r.value < |items|
    ensures r.Ok? && r.value >= 0 ==> Matches(items[r.value], where) == Ok(true)
    ensures r.Ok? ==> forall l | 0 <= l < |items| && (r.value < 0 || l < r.value) :: Matches(items[l], where) == Ok(false)
    ensures r.Err? ==> exists l | 0 <= l < |items| ::
      (Matches(items[l], where) == Err(r.error) && forall m | 0 <= m < l :: Matches(items[m], where) == Ok(false))
  {
    if items == [] then Ok(-1)
    else
      match Matches(items[0], where)
      case Err(m) => assert Matches(items[0], where) == Err(m); Err(m)
      case Ok(true) => Ok(0)
      case Ok(false) =>
        match FirstMatch(items[1..], where)
        case Err(m) =>
          var l :| 0 <= l < |items[1..]| && Matches(items[1..][l], where) == Err(m)
            && forall m | 0 <= m < l :: Matches(items[1..][m], where) == Ok(false);
          assert forall j | 0 <= j < l + 1 :: Matches(items[j], where) == Ok(false) by {
            forall j | 0 <= j < l + 1 ensures Matches(items[j], where) == Ok(false) {
              if j > 0 { assert items[j] == items[1..][j - 1]; }
            }
          }
          assert Matches(items[l + 1], where) == Err(m);
          Err(m)
        case Ok(j) =>
          assert forall l | 1 <= l < |items| :: items[l] == items[1..][l - 1];
          Ok(if j < 0 then -1 else j + 1)
  }

  /** `find`: the first matching item, or `undefined`. */
  function Find(items: seq<Value>, where: Rec<Value>): (r: Result<Value>)
    ensures r.Err? <==> FirstMatch(items, where).Err?
    ensures r.Ok? && FirstMatch(items, where).value >= 0 ==> r.value == items[FirstMatch(items, where).value]
    ensures r.Ok? && FirstMatch(items, where).value < 0 ==> r.value == Undefined
  {
    match FirstMatch(items, where)
    case Err(m) => Err(m)
    case Ok(i) => Ok(if i < 0 then Undefined else items[i])
  }

  /** `filter`: the matching items in their order, or the first error a test throws. */
  function Filtered(items: seq<Value>, where: Rec<Value>): (r: Result<seq<Value>>)
    ensures r.Ok? ==> |r.value| <= |items|
    ensures r.Ok? ==> forall l | 0 <= l < |r.value| :: Matches(r.value[l], where) == Ok(true)
    ensures r.Ok? ==> forall l | 0 <= l < |items| :: Matches(items[l], where).Ok?
    ensures r.Ok? ==> forall l | 0 <= l < |items| && Matches(items[l], where) == Ok(true) :: items[l] in r.value
    ensures r.Err? <==> exists l | 0 <= l < |items| :: Matches(items[l], where).Err?
  {
    if items == [] then Ok([])
    else
      var here := Matches(items[0], where);
      var rest := Filtered(items[1..], where);
      assert forall l | 1 <= l < |items| :: items[l] == items[1..][l - 1];
      if here.Err? then Err(here.error)
      else if rest.Err? then
        var l :| 0 <= l < |items[1..]| && Matches(items[1..][l], where).Err?;
        assert Matches(items[l + 1], where).Err?;
        Err(rest.error)
      else if here.value then Ok([items[0]] + rest.value)
      else Ok(rest.value)
  }

  /** The items `filter` keeps are taken from the list: each kept item is one of the list's, counted with multiplicity. */
  lemma {:induction false} FilteredFromItems(items: seq<Value>, where: Rec<Value>)
    requires Filtered(items, where).Ok?
    ensures multiset(Filtered(items, where).value) <= multiset(items)
  {
    if items != [] {
      FilteredFromItems(items[1..], where);
      assert items == [items[0]] + items[1..];
    }
  }

  /** Filtering a concatenation filters each part in order: the kept items keep their relative order. */
  lemma {:induction false} FilteredAppend(a: seq<Value>, b: seq<Value>, where: Rec<Value>)
    ensures Filtered(a + b, where) ==
      match Filtered(a, where)
      case Err(m) => Err(m)
      case Ok(ka) =>
        match Filtered(b, where)
        case Err(m) => Err(m)
        case Ok(kb) => Ok(ka + kb)
  {
    if a == [] {
      assert a + b == b;
      match Filtered(b, where)
      case Ok(kb) => assert [] + kb == kb;
      case Err(_) =>
    } else {
      assert (a + b)[0] == a[0] && (a + b)[1..] == a[1..] + b;
      FilteredAppend(a[1..], b, where);
      var ra := Filtered(a[1..], where);
      var rb := Filtered(b, where);
      if ra.Ok? && rb.Ok? {
        assert [a[0]] + ra.value + rb.value == [a[0]] + (ra.value + rb.value);
      }
    }
  }

  /** The start `splice(index, 1)` uses: a negative index counts from the end. */
  function SpliceStart(len: nat, index: int): (r: nat)
    ensures r <= len
    ensures 0 <= index <= len ==> r == index
    ensures index < 0 && len + index >= 0 ==> r == len + index
  {
    if index < 0 then (if len + index < 0 then 0 else len + index)
    else if index > len then len
    else index
  }

  /** `{...item, ...updates}`, the item `update` writes. */
  function Merged(item: Value, updates: Rec<Value>): (r: Value)
    requires Valid(updates)
    ensures r.Obj? && Valid(r.rec)
    ensures r.rec.fields.Keys == SpreadSource(item).fields.Keys + updates.fields.Keys
    ensures forall k | k in updates.fields :: r.rec.fields[k] == updates.fields[k]
    ensures forall k | k in SpreadSource(item).fields && k !in updates.fields :: r.rec.fields[k] == SpreadSource(item).fields[k]
  {
    Obj(Spread(SpreadSource(item), updates))
  }

  // ---------------------------------------------------------------- the array database

  /** `LowDbArray`: the array in `data`, the file's array in `stored`. */
  class ArrayDb {
    const name: string
    var data: seq<Value>
    var stored: Option<seq<Value>>
    /**
     * Properties that a negative index put on the in-memory array: they are
     * not elements, so array methods and the file ignore them.
     */
    var props: map<int, Value>

    /**
     * Reads the file; a missing one leaves the default `[]` in `data`, and
     * nothing is written until the first change.
     */
    constructor (name: string, file: Option<seq<Value>>)
      ensures this.name == name
      ensures data == (if file.Some? then file.value else []) && stored == file && props == map[]
    {
      this.name := name;
      data := if file.Some? then file.value else [];
      stored := file;
      props := map[];
    }

    function Length(): (r: nat)
      reads this
      ensures r == |data|
    {
      |data|
    }

    /**
     * `getByIndex`: the item at the index, `undefined` past the end; a
     * negative index reads the property of that name, if one was set.
     */
    function GetByIndex(index: int): (r: Value)
      reads this
      ensures 0 <= index < |data| ==> r == data[index]
      ensures index >= |data| ==> r == Undefined
      ensures index < 0 ==> r == if index in props then props[index] else Undefined
    {
      if 0 <= index < |data| then data[index]
      else if index < 0 && index in props then props[index]
      else Undefined
    }

    method Push(item: Value)
      modifies this
      ensures data == old(data) + [item] && stored == Some(data) && props == old(props)
    {
      data := data + [item];
      stored := Some(data);
    }

    /** Removes and returns the last item; an empty array stays empty and gives `undefined`. */
    method Pop() returns (item: Value)
      modifies this
      ensures old(data) == [] ==> item == Undefined && data == []
      ensures old(data) != [] ==> old(data) == data + [item]
      ensures stored == Some(data) && props == old(props)
    {
      if data == [] {
        item := Undefined;
      } else {
        item := data[|data| - 1];
        data := data[..|data| - 1];
      }
      stored := Some(data);
    }

    method Unshift(item: Value)
      modifies this
      ensures data == [item] + old(data) && stored == Some(data) && props == old(props)
    {
      data := [item] + data;
      stored := Some(data);
    }

    /** Removes and returns the first item; an empty array stays empty and gives `undefined`. */
    method Shift() returns (item: Value)
      modifies this
      ensures old(data) == [] ==> item == Undefined && data == []
      ensures old(data) != [] ==> old(data) == [item] + data
      ensures stored == Some(data) && props == old(props)
    {
      if data == [] {
        item := Undefined;
      } else {
        item := data[0];
        data := data[1..];
      }
      stored := Some(data);
    }

    /**
     * `setByIndex`: replaces the item at the index; an index past the end
     * grows the array, the gap reading as `undefined`; a negative index sets
     * a property that is not an element and that the file does not keep.
     */
    method SetByIndex(index: int, item: Value)
      modifies this
      ensures 0 <= index < |old(data)| ==> data == old(data)[index := item]
      ensures index >= |old(data)| ==> data == old(data) + seq(index - |old(data)|, _ => Undefined) + [item]
      ensures index < 0 ==> data == old(data) && props == old(props)[index := item]
      ensures index >= 0 ==> props == old(props)
      ensures stored == Some(data)
    {
      if 0 <= index < |data| {
        data := data[index := item];
      } else if index >= |data| {
        data := data + seq(index - |data|, _ => Undefined) + [item];
      } else {
        props := props[index := item];
      }
      stored := Some(data);
    }

    /** `filter`: keeps exactly the matching items in place; a throwing test changes nothing. */
    method Filter(where: Rec<Value>) returns (r: Result<()>)
      modifies this
      ensures r.Err? <==> Filtered(old(data), where).Err?
      ensures r.Ok? ==> data == Filtered(old(data), where).value && stored == Some(data) && props == map[]
      ensures r.Err? ==> data == old(data) && stored == old(stored) && props == old(props)
    {
      var kept := Filtered(data, where);
      if kept.Err? {
        return Err(kept.error);
      }
      data := kept.value;
      stored := Some(data);
      props := map[];
      return Ok(());
    }

    /** `removeAt`: removes the one item at the index (negative from the end) and returns it, or `undefined` when there is none. */
    method RemoveAt(index: int) returns (removed: Value)
      modifies this
      ensures var i := SpliceStart(|old(data)|, index);
        if i < |old(data)| then removed == old(data)[i] && data == old(data)[..i] + old(data)[i + 1..]
        else removed == Undefined && data == old(data)
      ensures stored == Some(data) && props == old(props)
    {
      var i := SpliceStart(|data|, index);
      if i < |data| {
        removed := data[i];
        data := data[..i] + data[i + 1..];
      } else {
        removed := Undefined;
      }
      stored := Some(data);
    }

    /** `remove`: removes the first matching item and returns it; with no match nothing changes and the result is `undefined`. */
    method Remove(where: Rec<Value>) returns (r: Result<Value>)
      modifies this
      ensures props == old(props)
      ensures match FirstMatch(old(data), where)
        case Err(m) => r == Err(m) && data == old(data) && stored == old(stored)
        case Ok(i) =>
          if i < 0 then r == Ok(Undefined) && data == old(data) && stored == old(stored)
          else r == Ok(old(data)[i]) && data == old(data)[..i] + old(data)[i + 1..] && stored == Some(data)
    {
      var index := FirstMatch(data, where);
      if index.Err? {
        return Err(index.error);
      }
      if index.value == -1 {
        return Ok(Undefined);
      }
      var removed := RemoveAt(index.value);
      return Ok(removed);
    }

    /** `set`: replaces the first matching item and returns the one replaced; with no match nothing changes. */
    method Set(where: Rec<Value>, newItem: Value) returns (r: Result<Value>)
      modifies this
      ensures props == old(props)
      ensures match FirstMatch(old(data), where)
        case Err(m) => r == Err(m) && data == old(data) && stored == old(stored)
        case Ok(i) =>
          if i < 0 then r == Ok(Undefined) && data == old(data) && stored == old(stored)
          else r == Ok(old(data)[i]) && data == old(data)[i := newItem] && stored == Some(data)
    {
      var index := FirstMatch(data, where);
      if index.Err? {
        return Err(index.error);
      }
      if index.value == -1 {
        return Ok(Undefined);
      }
      var oldItem := data[index.value];
      data := data[index.value := newItem];
      stored := Some(data);
      return Ok(oldItem);
    }

    /**
     * `update`: shallow-merges the updates into the first matching item and
     * returns a copy of the item as it was; with no match nothing changes.
     */
    method Update(where: Rec<Value>, updates: Rec<Value>) returns (r: Result<Value>)
      requires Valid(updates)
      modifies this
      ensures props == old(props)
      ensures match FirstMatch(old(data), where)
        case Err(m) => r == Err(m) && data == old(data) && stored == old(stored)
        case Ok(i) =>
          if i < 0 then r == Ok(Undefined) && data == old(data) && stored == old(stored)
          else (r == Ok(Obj(SpreadSource(old(data)[i])))
            && data == old(data)[i := Merged(old(data)[i], updates)] && stored == Some(data))
    {
      var index := FirstMatch(data, where);
      if index.Err? {
        return Err(index.error);
      }
      if index.value == -1 {
        return Ok(Undefined);
      }
      var oldItem := Obj(SpreadSource(data[index.value]));
      data := data[index.value := Merged(data[index.value], updates)];
      stored := Some(data);
      return Ok(oldItem);
    }

    method Clear()
      modifies this
      ensures data == [] && stored == Some([]) && props == map[]
    {
      data := [];
      stored := Some(data);
      props := map[];
    }
  }

  // ---------------------------------------------------------------- the object database

  /** The value of a field, `undefined` when absent. */
  function Field(data: Rec<Value>, key: string): (r: Value)
    ensures key in data.fields ==> r == data.fields[key]
    ensures key !in data.fields ==> r == Undefined
  {
    if key in data.fields then data.fields[key] else Undefined
  }

  /** What `setJsonField` stores: a string as it is, anything else as its JSON text (`undefined` stays `undefined`). */
  function JsonText(value: Value): (r: Value)
    ensures value.Str? ==> r == value
    ensures !value.Str? && value != Undefined ==> r == Str(Stringify(value).value)
    ensures value == Undefined ==> r == Undefined
  {
    if value.Str? then value
    else match Stringify(value)
      case Some(t) => Str(t)
      case None => Undefined
  }

  /**
   * What `getJsonField` returns for a stored value: a string is parsed when
   * `parse` accepts it (`JSON.parse`, given as a parameter) and returned as
   * it is when not; any other value is returned unchanged.
   */
  function FromJsonText(stored: Value, parse: string -> Option<Value>): (r: Value)
    ensures !stored.Str? ==> r == stored
    ensures stored.Str? && parse(stored.s).None? ==> r == stored
    ensures stored.Str? && parse(stored.s).Some? ==> r == parse(stored.s).value
  {
    if stored.Str? then parse(stored.s).GetOr(stored) else stored
  }

  /** A non-string value stored with `setJsonField` comes back from `getJsonField` when parsing undoes `JSON.stringify`. */
  lemma JsonFieldRoundTrip(value: Value, parse: string -> Option<Value>)
    requires !value.Str? && value != Undefined
    requires parse(Stringify(value).value) == Some(value)
    ensures FromJsonText(JsonText(value), parse) == value
  {
  }

  /** A string that does not parse comes back from `getJsonField` unchanged. */
  lemma InvalidJsonComesBackRaw(s: string, parse: string -> Option<Value>)
    requires parse(s).None?
    ensures FromJsonText(JsonText(Str(s)), parse) == Str(s)
  {
  }

  /** `LowDbObject`: the object in `data`, the file's object in `stored`. */
  class ObjectDb {
    const name: string
    var data: Rec<Value>
    var stored: Option<Rec<Value>>

    predicate Consistent()
      reads this
    {
      Valid(data) && (stored.Some? ==> Valid(stored.value))
    }

    /**
     * Reads the file; a missing one leaves the default `{}` in `data`, and
     * nothing is written until the first change.
     */
    constructor (name: string, file: Option<Rec<Value>>)
      requires file.Some? ==> Valid(file.value)
      ensures Consistent() && this.name == name
      ensures data == (if file.Some? then file.value else Empty()) && stored == file
    {
      this.name := name;
      data := if file.Some? then file.value else Empty();
      stored := file;
    }

    /** `setData` */
    method SetData(value: Rec<Value>)
      requires Valid(value)
      modifies this
      ensures Consistent() && data == value && stored == Some(value)
    {
      data := value;
      stored := Some(data);
    }

    /** `update`: `{...data, ...updates}`; untouched fields keep their values. */
    method Update(updates: Rec<Value>)
      requires Consistent() && Valid(updates)
      modifies this
      ensures Consistent() && data == Spread(old(data), updates) && stored == Some(data)
      ensures forall k | k in old(data).fields && k !in updates.fields :: data.fields[k] == old(data).fields[k]
      ensures forall k | k in updates.fields :: data.fields[k] == updates.fields[k]
    {
      data := Spread(data, updates);
      stored := Some(data);
    }

    function GetField(key: string): (r: Value)
      reads this
      ensures r == Field(data, key)
    {
      Field(data, key)
    }

    method SetField(key: string, value: Value)
      requires Consistent()
      modifies this
      ensures Consistent() && data == Put(old(data), key, value) && stored == Some(data)
    {
      data := Put(data, key, value);
      stored := Some(data);
    }

    /** `push`: appends to an array field, first resetting a field that is not an array to `[]`. */
    method Push(key: string, value: Value)
      requires Consistent()
      modifies this
      ensures Consistent() && stored == Some(data)
      ensures data.fields == old(data.fields)[key := Arr(
        (if IsArray(Field(old(data), key)) then Field(old(data), key).items else []) + [value])]
      ensures data.keys == Put(old(data), key, value).keys
    {
      if !IsArray(Field(data, key)) {
        data := Put(data, key, Arr([]));
      }
      data := Put(data, key, Arr(data.fields[key].items + [value]));
      stored := Some(data);
    }

    /** `setJsonField` */
    method SetJsonField(key: string, value: Value)
      requires Consistent()
      modifies this
      ensures Consistent() && data == Put(old(data), key, JsonText(value)) && stored == Some(data)
    {
      data := Put(data, key, JsonText(value));
      stored := Some(data);
    }

    /** `getJsonField` */
    function GetJsonField(key: string, parse: string -> Option<Value>): (r: Value)
      reads this
      ensures r == FromJsonText(Field(data, key), parse)
    {
      FromJsonText(Field(data, key), parse)
    }
  }
}
