/**
 * StructuredData: a record of fields, each with an optional description and
 * an optional value, and its conversions to and from plain data
 * (src/types/workflow/StructuredData.ts).
 */
module StructuredData {
  import opened Wrappers
  import opened Records
  import opened Values
  import opened Zod
  import opened Strings

  /**
   * One field. `None` means the property is absent from the field object;
   * a draft field holds `value: Some(Undefined)` (present, `undefined`).
   */
  datatype Field = Field(description: Option<string>, value: Option<Value>)

  type SData = Rec<Field>

  /** `{...a, ...b}` for two field objects, either of which may be `undefined`. */
  function SpreadField(a: Option<Field>, b: Option<Field>): Field
  {
    var base := if a.Some? then a.value else Field(None, None);
    match b
    case None => base
    case Some(fb) =>
      Field(if fb.description.Some? then fb.description else base.description,
            if fb.value.Some? then fb.value else base.value)
  }

  function Lookup(d: SData, k: string): Option<Field>
  {
    if k in d.fields then Some(d.fields[k]) else None
  }

  /**
   * mergeTwoStructuredData: the keys of `one` in order, then the keys only
   * `two` has; each field is `one`'s field overridden by the properties
   * `two`'s field has.
   */
  function Merge(one: SData, two: SData): (r: SData)
    requires Valid(one) && Valid(two)
    ensures Valid(r)
    ensures r.keys == one.keys + NewKeys(two.keys, one.fields)
    ensures r.fields.Keys == one.fields.Keys + two.fields.Keys
    ensures forall k | k in r.fields :: r.fields[k] == SpreadField(Lookup(one, k), Lookup(two, k))
  {
    var s := Spread(one, two);
    Rec(s.keys, map k | k in s.fields :: SpreadField(Lookup(one, k), Lookup(two, k)))
  }

  lemma MergeEmptyLeft(d: SData)
    requires Valid(d)
    ensures Merge(Empty(), d) == d
  {
    var e: SData := Empty();
    var r := Merge(e, d);
    assert r.keys == d.keys by {
      NewKeysOfEmpty(d.keys, e.fields);
    }
    assert r.fields == d.fields by {
      forall k | k in d.fields ensures r.fields[k] == d.fields[k] {
        SpreadOverNothing(d.fields[k]);
      }
    }
  }

  lemma SpreadOverNothing(f: Field)
    ensures SpreadField(None, Some(f)) == f
    ensures SpreadField(Some(f), None) == f
  {
  }

  lemma MergeEmptyRight(d: SData)
    requires Valid(d)
    ensures Merge(d, Empty()) == d
  {
    var r := Merge(d, Empty());
    assert r.fields == d.fields;
  }

  /** A key that only one side has is copied unchanged. */
  lemma MergeCopiesOneSided(one: SData, two: SData, k: string)
    requires Valid(one) && Valid(two)
    ensures k in one.fields && k !in two.fields ==> Merge(one, two).fields[k] == one.fields[k]
    ensures k !in one.fields && k in two.fields ==> Merge(one, two).fields[k] == two.fields[k]
  {
    if k in one.fields && k !in two.fields {
      SpreadOverNothing(one.fields[k]);
    } else if k !in one.fields && k in two.fields {
      SpreadOverNothing(two.fields[k]);
    }
  }

  /** Fields present in `two` take `two`'s value, whatever `one` held. */
  lemma MergeSecondValueWins(one: SData, two: SData, k: string)
    requires Valid(one) && Valid(two)
    requires k in two.fields && two.fields[k].value.Some?
    ensures k in Merge(one, two).fields
    ensures Merge(one, two).fields[k].value == two.fields[k].value
  {
  }

  /** A description survives unless `two` brings its own. */
  lemma MergeKeepsFirstDescription(one: SData, two: SData, k: string)
    requires Valid(one) && Valid(two)
    requires k in one.fields
    requires k !in two.fields || two.fields[k].description.None?
    ensures Merge(one, two).fields[k].description == one.fields[k].description
  {
  }

  /** The error thrown for an input schema that is not a `ZodObject`. */
  const NotAnObject := "input schema deve ser do tipo ZodObject"

  /**
   * inputSchemaToStructuredData: one field per key of the object schema, in
   * shape order, described by the field's description or else by its key,
   * with a present but `undefined` value.
   */
  function Draft(schema: Schema): (r: Result<SData>)
    requires schema.ZObject? ==> Valid(schema.shape)
    ensures r.Err? <==> !schema.ZObject?
    ensures r.Err? ==> r.error == NotAnObject
    ensures r.Ok? ==> Valid(r.value) && r.value.keys == schema.shape.keys
    ensures r.Ok? ==> forall k | k in r.value.fields ::
      r.value.fields[k].value == Some(Undefined)
      && r.value.fields[k].description.Some?
      && (var own := schema.shape.fields[k].description;
          r.value.fields[k].description.value == if own.Some? && own.value != "" then own.value else k)
  {
    match schema
    case ZObject(shape, _) =>
      Ok(Rec(shape.keys, map k | k in shape.fields :: Field(Some(DescriptionOr(shape.fields[k], k)), Some(Undefined))))
    case _ => Err(NotAnObject)
  }

  /** `shape[key]?.description || key` */
  function DescriptionOr(s: Schema, key: string): (d: string)
    ensures key != "" ==> d != ""
    ensures s.description.Some? && s.description.value != "" ==> d == s.description.value
  {
    if s.description.Some? && s.description.value != "" then s.description.value else key
  }

  const ConvertError := "TypeError: Cannot convert undefined or null to object"

  /**
   * rawDataObjectToStructuredData: a string becomes the single field
   * `content`; otherwise every own key becomes a field holding its value.
   */
  function FromRaw(v: Value): (r: Result<SData>)
    ensures r.Err? <==> Nullish(v)
    ensures r.Err? ==> r.error == ConvertError
    ensures v.Str? ==> r == Ok(Single("content", Field(None, Some(v))))
    ensures v.Obj? && Valid(v.rec) ==>
      (Valid(r.value) && r.value.keys == v.rec.keys
       && forall k | k in v.rec.fields :: r.value.fields[k] == Field(None, Some(v.rec.fields[k])))
    ensures v.Arr? ==> Valid(r.value) && r.value.keys == IndexKeys(|v.items|)
    ensures v.Bool? || v.Num? || v.Host? ==> r == Ok(Empty())
  {
    match v
    case Str(_) => Ok(Single("content", Field(None, Some(v))))
    case Undefined => Err(ConvertError)
    case Null => Err(ConvertError)
    case Obj(r) => Ok(FieldsOf(r))
    case Arr(items) => Ok(FieldsOf(IndexRec(items)))
    case _ => Ok(Empty())
  }

  /** Every key of an object becomes a field holding its value, in the same order. */
  function FieldsOf(r: Rec<Value>): (d: SData)
    ensures d.keys == r.keys && d.fields.Keys == r.fields.Keys
    ensures forall k | k in r.fields :: d.fields[k] == Field(None, Some(r.fields[k]))
    ensures Valid(r) ==> Valid(d)
  {
    Rec(r.keys, map k | k in r.fields :: Field(None, Some(r.fields[k])))
  }

  /** True when the record is exactly the one key `content`. */
  predicate IsContentOnly(d: SData)
  {
    |d.keys| == 1 && "content" in d.fields
  }

  /**
   * structuredDataToRawData: the `content` value alone when that is the
   * only key, otherwise an object of the field values (absent ones as
   * `undefined`).
   */
  function ToRaw(d: SData): (v: Value)
    ensures IsContentOnly(d) ==> v == d.fields["content"].value.GetOr(Undefined)
    ensures !IsContentOnly(d) ==>
      (v.Obj? && v.rec.keys == d.keys && v.rec.fields.Keys == d.fields.Keys
       && forall k | k in d.fields :: v.rec.fields[k] == d.fields[k].value.GetOr(Undefined))
  {
    if IsContentOnly(d) then d.fields["content"].value.GetOr(Undefined)
    else Obj(Rec(d.keys, map k | k in d.fields :: d.fields[k].value.GetOr(Undefined)))
  }

  /** A plain object comes back unchanged, unless its only key is `content`. */
  lemma RawObjectRoundTrip(r: Rec<Value>)
    requires Valid(r) && r.keys != ["content"]
    ensures FromRaw(Obj(r)).Ok? && ToRaw(FromRaw(Obj(r)).value) == Obj(r)
  {
  }

  /** A string comes back unchanged. */
  lemma RawStringRoundTrip(s: string)
    ensures ToRaw(FromRaw(Str(s)).value) == Str(s)
  {
  }

  /** ...but an object whose only key is `content` collapses to that value. */
  lemma ContentObjectCollapses(x: Value)
    ensures ToRaw(FromRaw(Obj(Single("content", x))).value) == x
  {
  }

  /** An array comes back as an object keyed by its indices. */
  lemma ArrayComesBackIndexed(items: seq<Value>)
    ensures ToRaw(FromRaw(Arr(items)).value) == Obj(IndexRec(items))
  {
    var ir := IndexRec(items);
    IndexKeysLackContent(|items|);
    assert ir.keys != ["content"];
    RawObjectRoundTrip(ir);
    assert FromRaw(Arr(items)) == FromRaw(Obj(ir));
  }

  lemma IndexKeysLackContent(n: nat)
    ensures "content" !in IndexKeys(n)
  {
    forall i | 0 <= i < n ensures IndexKeys(n)[i] != "content" {
      assert NatToString(i)[0] != 'c';
    }
  }

  /**
   * Structured data without descriptions and with every value present comes
   * back unchanged, unless its only key is `content`.
   */
  lemma StructuredRoundTrip(d: SData)
    requires Valid(d) && !IsContentOnly(d)
    requires forall k | k in d.fields :: d.fields[k].description.None? && d.fields[k].value.Some?
    ensures FromRaw(ToRaw(d)) == Ok(d)
  {
    var r := FromRaw(ToRaw(d)).value;
    assert r.fields == d.fields;
  }
}

