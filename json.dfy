/**
 * `JSON.stringify` (no indentation) over the value model. Lone surrogate
 * escaping is not modelled; host objects serialize as `{}`.
 */
module Json {
  import opened Wrappers
  import opened Records
  import opened Values
  import opened Strings

  function HexDigit(d: nat): char
    requires d < 16
  {
    if d < 10 then ('0' as int + d) as char else ('a' as int + d - 10) as char
  }

  function EscapeChar(c: char): string
  {
    if c == '"' then "\\\""
    else if c == '\\' then "\\\\"
    else if c == '\n' then "\\n"
    else if c == '\r' then "\\r"
    else if c == '\t' then "\\t"
    else if c == '\U{0008}' then "\\b"
    else if c == '\U{000C}' then "\\f"
    else if (c as int) < 0x20 then "\\u00" + [HexDigit(c as int / 16), HexDigit(c as int % 16)]
    else [c]
  }

  function EscapeText(s: string): string
  {
    if s == [] then "" else EscapeChar(s[0]) + EscapeText(s[1..])
  }

  /** A string literal: the text between two double quotes, escaped. */
  function Quote(s: string): (r: string)
    ensures |r| >= 2 && r[0] == '"' && r[|r| - 1] == '"'
  {
    "\"" + EscapeText(s) + "\""
  }

  /** `JSON.stringify(v)`: `undefined` exactly for `undefined`. */
  function Stringify(v: Value): (r: Option<string>)
    ensures r.None? <==> v == Undefined
    decreases v, 0
  {
    match v
    case Undefined => None
    case Null => Some("null")
    case Bool(b) => Some(if b then "true" else "false")
    case Num(n) => Some(IntToString(n))
    case Str(s) => Some(Quote(s))
    case Arr(items) => Some("[" + Join(ItemsJson(items), ",") + "]")
    case Obj(r) => Some("{" + Join(MembersJson(r, r.keys), ",") + "}")
    case Host(_) => Some("{}")
  }

  /** Array elements; an `undefined` element is written as `null`. */
  function ItemsJson(items: seq<Value>): (r: seq<string>)
    ensures |r| == |items|
    decreases items, 1
  {
    if items == [] then []
    else [Stringify(items[0]).GetOr("null")] + ItemsJson(items[1..])
  }

  /** Object members in key order; members whose value is `undefined` are skipped. */
  function MembersJson(r: Rec<Value>, ks: seq<string>): seq<string>
    decreases r, |ks|
  {
    if ks == [] then []
    else
      var rest := MembersJson(r, ks[1..]);
      var t := if ks[0] in r.fields then Stringify(r.fields[ks[0]]) else None;
      match t
      case None => rest
      case Some(t) => [Quote(ks[0]) + ":" + t] + rest
  }

  // ---------------------------------------------------------------- the JSON round trip

  /**
   * `JSON.parse(JSON.stringify(v))` for a value held as an object member:
   * an `undefined` array item comes back as `null`, an `undefined` member
   * is dropped, and a host object comes back as `{}`. A member that is
   * `undefined` itself is not written, so it reads back as `undefined`.
   */
  function Reparse(v: Value): (r: Value)
    ensures r == Undefined <==> v == Undefined
    decreases v, 1
  {
    match v
    case Arr(items) => Arr(ReparseItems(items))
    case Obj(r) => Obj(ReparseRec(r))
    case Host(_) => Obj(Empty())
    case _ => v
  }

  /** The array items after the round trip; none of them is `undefined`. */
  function ReparseItems(items: seq<Value>): (r: seq<Value>)
    ensures |r| == |items|
    ensures forall i | 0 <= i < |r| :: r[i] != Undefined
    decreases items, 0
  {
    if items == [] then []
    else [if items[0] == Undefined then Null else Reparse(items[0])] + ReparseItems(items[1..])
  }

  /** The listed keys that `JSON.stringify` skips: those without a value or whose value is `undefined`. */
  function UnwrittenKeys(r: Rec<Value>): map<string, int>
  {
    map k | k in r.keys && (k !in r.fields || r.fields[k] == Undefined) :: 0
  }

  /** An object after the round trip: the members that are not `undefined`, in their order, each one round-tripped. */
  function ReparseRec(r: Rec<Value>): (r': Rec<Value>)
    ensures forall k | k in r'.fields :: k in r.fields && r.fields[k] != Undefined
    decreases r, 0
  {
    Rec(NewKeys(r.keys, UnwrittenKeys(r)), map k | k in r.fields && r.fields[k] != Undefined :: Reparse(r.fields[k]))
  }

  /** A value `JSON.stringify` writes in full: no `undefined` inside it and no host object. */
  predicate Plain(v: Value)
  {
    match v
    case Arr(items) => forall i | 0 <= i < |items| :: items[i] != Undefined && Plain(items[i])
    case Obj(r) => forall k | k in r.fields :: r.fields[k] != Undefined && Plain(r.fields[k])
    case Host(_) => false
    case _ => true
  }

  /** The round trip gives back a well-formed value plain. */
  lemma {:induction false} ReparsePlain(v: Value)
    requires WellFormed(v) && Plain(v)
    ensures Reparse(v) == v
    decreases v, 1
  {
    match v
    case Arr(items) => ReparseItemsPlain(items);
    case Obj(r) => ReparseRecPlain(r);
    case _ =>
  }

  lemma {:induction false} ReparseItemsPlain(items: seq<Value>)
    requires forall i | 0 <= i < |items| :: items[i] != Undefined && WellFormed(items[i]) && Plain(items[i])
    ensures ReparseItems(items) == items
    decreases items, 0
  {
    if items != [] {
      ReparsePlain(items[0]);
      ReparseItemsPlain(items[1..]);
    }
  }

  lemma {:induction false} ReparseRecPlain(r: Rec<Value>)
    requires Valid(r)
    requires forall k | k in r.fields :: r.fields[k] != Undefined && WellFormed(r.fields[k]) && Plain(r.fields[k])
    ensures ReparseRec(r) == r
    decreases r, 0
  {
    var skip := UnwrittenKeys(r);
    forall k | k in r.keys ensures k !in skip {
      assert k in (set k | k in r.keys);
    }
    NewKeysOfNone(r.keys, skip);
    forall k | k in r.fields ensures Reparse(r.fields[k]) == r.fields[k] {
      ReparsePlain(r.fields[k]);
    }
  }

  /** Filtering out keys none of which is in `m` keeps them all. */
  lemma {:induction false} NewKeysOfNone<V>(ks: seq<string>, m: map<string, V>)
    requires forall k | k in ks :: k !in m
    ensures NewKeys(ks, m) == ks
  {
    if ks != [] {
      NewKeysOfNone(ks[1..], m);
    }
  }

  /** What the round trip gives back is plain: a second round trip changes nothing. */
  lemma {:induction false} ReparseIsPlain(v: Value)
    ensures Plain(Reparse(v))
    decreases v, 1
  {
    match v
    case Arr(items) => ReparseItemsArePlain(items);
    case Obj(r) =>
      var r' := ReparseRec(r);
      forall k | k in r'.fields ensures r'.fields[k] != Undefined && Plain(r'.fields[k]) {
        ReparseIsPlain(r.fields[k]);
      }
    case _ =>
  }

  lemma {:induction false} ReparseItemsArePlain(items: seq<Value>)
    ensures forall i | 0 <= i < |items| :: Plain(ReparseItems(items)[i])
    decreases items, 0
  {
    if items != [] {
      ReparseIsPlain(items[0]);
      ReparseItemsArePlain(items[1..]);
      forall i | 1 <= i < |items| ensures Plain(ReparseItems(items)[i]) {
        assert ReparseItems(items)[i] == ReparseItems(items[1..])[i - 1];
      }
    }
  }

  /** The round trip keeps values well formed. */
  lemma {:induction false} ReparseWellFormed(v: Value)
    requires WellFormed(v)
    ensures WellFormed(Reparse(v))
    decreases v, 1
  {
    match v
    case Arr(items) => ReparseItemsWellFormed(items);
    case Obj(r) =>
      var r' := ReparseRec(r);
      var skip := UnwrittenKeys(r);
      NewKeysDistinct(r.keys, skip);
      assert (set k | k in r'.keys) == r'.fields.Keys by {
        forall k | k in r.fields ensures k in r.keys {
          assert k in (set k | k in r.keys);
        }
      }
      forall k | k in r'.fields ensures WellFormed(r'.fields[k]) {
        ReparseWellFormed(r.fields[k]);
      }
    case _ =>
  }

  lemma {:induction false} ReparseItemsWellFormed(items: seq<Value>)
    requires forall i | 0 <= i < |items| :: WellFormed(items[i])
    ensures forall i | 0 <= i < |items| :: WellFormed(ReparseItems(items)[i])
    decreases items, 0
  {
    if items != [] {
      ReparseWellFormed(items[0]);
      ReparseItemsWellFormed(items[1..]);
      forall i | 1 <= i < |items| ensures WellFormed(ReparseItems(items)[i]) {
        assert ReparseItems(items)[i] == ReparseItems(items[1..])[i - 1];
      }
    }
  }

  /** The round trip is idempotent on well-formed values. */
  lemma ReparseIdempotent(v: Value)
    requires WellFormed(v)
    ensures Reparse(Reparse(v)) == Reparse(v)
  {
    ReparseWellFormed(v);
    ReparseIsPlain(v);
    ReparsePlain(Reparse(v));
  }

  /** The round trip writes the same JSON text as the value it came from. */
  lemma {:induction false} StringifyReparse(v: Value)
    ensures Stringify(Reparse(v)) == Stringify(v)
    decreases v, 1
  {
    match v
    case Arr(items) => ItemsJsonReparse(items);
    case Obj(r) => MembersJsonReparse(r, r.keys);
    case Host(_) =>
      assert MembersJson(Empty<Value>(), []) == [];
      assert "{" + Join([], ",") + "}" == "{}";
    case _ =>
  }

  lemma {:induction false} ItemsJsonReparse(items: seq<Value>)
    ensures ItemsJson(ReparseItems(items)) == ItemsJson(items)
    decreases items, 0
  {
    if items != [] {
      StringifyReparse(items[0]);
      ItemsJsonReparse(items[1..]);
    }
  }

  lemma {:induction false} MembersJsonReparse(r: Rec<Value>, ks: seq<string>)
    requires forall k | k in ks :: k in r.keys
    ensures MembersJson(ReparseRec(r), NewKeys(ks, UnwrittenKeys(r))) == MembersJson(r, ks)
    decreases r, |ks|
  {
    if ks != [] {
      MembersJsonReparse(r, ks[1..]);
      if ks[0] in r.fields && r.fields[ks[0]] != Undefined {
        StringifyReparse(r.fields[ks[0]]);
      }
    }
  }
}
