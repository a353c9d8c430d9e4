/**
 * JavaScript values as the workflow code sees them at run time: the JSON
 * shapes plus `undefined` and host objects (schemas, functions) that the
 * code only passes around.
 */
module Values {
  import opened Wrappers
  import opened Records
  import opened Strings

  datatype Value =
    | Undefined
    | Null
    | Bool(b: bool)
    | Num(n: int)
    | Str(s: string)
    | Arr(items: seq<Value>)
    | Obj(rec: Rec<Value>)
    | Host(kind: string)

  /** `!!v` */
  predicate Truthy(v: Value)
    ensures Truthy(v) <==> !(v == Undefined || v == Null || v == Bool(false) || v == Num(0) || v == Str(""))
  {
    match v
    case Undefined => false
    case Null => false
    case Bool(b) => b
    case Num(n) => n != 0
    case Str(s) => s != ""
    case _ => true
  }

  /** `typeof v` */
  function TypeOf(v: Value): (r: string)
    ensures r == "undefined" <==> v == Undefined
    ensures r == "object" <==> v.Null? || v.Arr? || v.Obj? || v.Host?
  {
    match v
    case Undefined => "undefined"
    case Bool(_) => "boolean"
    case Num(_) => "number"
    case Str(_) => "string"
    case _ => "object"
  }

  predicate Nullish(v: Value)
  {
    v == Undefined || v == Null
  }

  /** `Array.isArray(v)` */
  predicate IsArray(v: Value)
  {
    v.Arr?
  }

  /** `typeof v === 'object' && v !== null && !Array.isArray(v)`: a plain object. */
  predicate IsPlainObject(v: Value)
  {
    v.Obj? || v.Host?
  }

  /** The array index a canonical decimal key names, if any. */
  function ParseIndex(k: string): (r: Option<nat>)
    ensures r.Some? ==> k == NatToString(r.value)
  {
    if k == [] || !('0' <= k[|k| - 1] <= '9') || (k[0] == '0' && |k| > 1) then None
    else ParseDigits(k)
  }

  function ParseDigits(k: string): (r: Option<nat>)
    requires k != [] && (k[0] == '0' ==> |k| == 1)
    ensures r.Some? ==> k == NatToString(r.value)
    decreases |k|
  {
    var c := k[|k| - 1];
    if !('0' <= c <= '9') then None
    else
      var d := c as int - '0' as int;
      assert c == Digit(d);
      if |k| == 1 then Some(d)
      else
        var init := k[..|k| - 1];
        assert init[0] == k[0];
        match ParseDigits(init)
        case None => None
        case Some(m) =>
          if m == 0 then None
          else
            AppendDigit(k, m, d);
            Some(10 * m + d)
  }

  /** A canonical number followed by one more digit. */
  lemma AppendDigit(k: string, m: nat, d: nat)
    requires |k| >= 2 && m >= 1 && d < 10
    requires k[..|k| - 1] == NatToString(m) && k[|k| - 1] == Digit(d)
    ensures k == NatToString(10 * m + d)
  {
    NatToStringAppend(m, d);
    assert k == k[..|k| - 1] + [k[|k| - 1]];
  }

  lemma NatToStringAppend(m: nat, d: nat)
    requires m >= 1 && d < 10
    ensures NatToString(10 * m + d) == NatToString(m) + [Digit(d)]
  {
    var n := 10 * m + d;
    assert n / 10 == m && n % 10 == d;
  }

  /** The messages of the TypeError a property read from `undefined` or `null` throws, up to the key. */
  const ReadUndefined := "TypeError: Cannot read properties of undefined (reading '"
  const ReadNull := "TypeError: Cannot read properties of null (reading '"

  /** Property read `v[k]`; reading from `undefined` or `null` throws a TypeError. */
  function Get(v: Value, k: string): (r: Result<Value>)
    ensures r.Err? <==> Nullish(v)
  {
    match v
    case Undefined => Err(ReadUndefined + k + "')")
    case Null => Err(ReadNull + k + "')")
    case Obj(r) => Ok(if k in r.fields then r.fields[k] else Undefined)
    case Arr(items) =>
      if k == "length" then Ok(Num(|items|))
      else
        (match ParseIndex(k)
         case Some(i) => Ok(if i < |items| then items[i] else Undefined)
         case None => Ok(Undefined))
    case Str(s) =>
      if k == "length" then Ok(Num(|s|))
      else
        (match ParseIndex(k)
         case Some(i) => Ok(if i < |s| then Str([s[i]]) else Undefined)
         case None => Ok(Undefined))
    case _ => Ok(Undefined)
  }

  /** Optional chaining `v?.[k]`: `undefined` when `v` is nullish. */
  function Opt(v: Value, k: string): (r: Value)
    ensures Nullish(v) ==> r == Undefined
    ensures !Nullish(v) ==> Get(v, k) == Ok(r)
  {
    match Get(v, k)
    case Ok(x) => x
    case Err(_) => Undefined
  }

  /** Index read `a[i]`. */
  function At(v: Value, i: nat): (r: Result<Value>)
    ensures r.Err? <==> Nullish(v)
  {
    match v
    case Arr(items) => Ok(if i < |items| then items[i] else Undefined)
    case _ => Get(v, NatToString(i))
  }

  /** `k in v` for a value of type object (own properties). */
  predicate Has(v: Value, k: string)
  {
    match v
    case Obj(r) => k in r.fields
    case Arr(items) =>
      k == "length" || (ParseIndex(k).Some? && ParseIndex(k).value < |items|)
    case _ => false
  }

  /** `String(v)`, also what a template literal inserts. */
  function ToText(v: Value): (r: string)
    ensures v.Str? ==> r == v.s
    ensures v.Obj? || v.Host? ==> r == "[object Object]"
    ensures v == Arr([]) ==> r == ""
  {
    match v
    case Undefined => "undefined"
    case Null => "null"
    case Bool(b) => if b then "true" else "false"
    case Num(n) => IntToString(n)
    case Str(s) => s
    case Arr(items) => Join(ItemsText(items), ",")
    case _ => "[object Object]"
  }

  function ItemsText(items: seq<Value>): (r: seq<string>)
    ensures |r| == |items|
  {
    if items == [] then []
    else [if Nullish(items[0]) then "" else ToText(items[0])] + ItemsText(items[1..])
  }

  /** The keys "0", "1", ... of an array or string spread into an object. */
  function IndexKeys(n: nat): (r: seq<string>)
    ensures |r| == n
    ensures forall i | 0 <= i < n :: r[i] == NatToString(i)
  {
    if n == 0 then [] else IndexKeys(n - 1) + [NatToString(n - 1)]
  }

  /** The object whose keys are the indices of `items` in order. */
  function IndexRec(items: seq<Value>): (r: Rec<Value>)
    ensures Valid(r)
    ensures r.keys == IndexKeys(|items|)
    ensures forall i | 0 <= i < |items| :: r.fields[NatToString(i)] == items[i]
  {
    if items == [] then Empty()
    else
      var n := |items| - 1;
      var before := IndexRec(items[..n]);
      IndexIsNew(n);
      Put(before, NatToString(n), items[n])
  }

  /** The next index is not among the earlier ones. */
  lemma IndexIsNew(n: nat)
    ensures NatToString(n) !in IndexKeys(n)
  {
    var ks := IndexKeys(n);
    forall i | 0 <= i < n ensures ks[i] != NatToString(n) {
      if ks[i] == NatToString(n) { NatToStringInjective(i, n); }
    }
  }

  /** The own enumerable properties `{...v}` copies out of `v`. */
  function SpreadSource(v: Value): (r: Rec<Value>)
    ensures Valid(r)
    ensures v.Obj? && Valid(v.rec) ==> r == v.rec
    ensures Nullish(v) ==> r.keys == []
  {
    match v
    case Obj(r) => if Valid(r) then r else Empty()
    case Arr(items) => IndexRec(items)
    case Str(s) => IndexRec(seq(|s|, i requires 0 <= i < |s| => Str([s[i]])))
    case _ => Empty()
  }

  /** Well-formed values: every object in them is a valid record. */
  ghost predicate WellFormed(v: Value)
  {
    match v
    case Arr(items) => forall i | 0 <= i < |items| :: WellFormed(items[i])
    case Obj(r) => Valid(r) && forall k | k in r.fields :: WellFormed(r.fields[k])
    case _ => true
  }
}
