/** Dynamic payloads: the loosely typed dictionaries that the agents exchange
    and the decoded replies of the language model. */
module Json {
  import opened Base

  datatype Value =
    | Null
    | Bool(b: bool)
    | Int(i: int)
    | Real(r: real)
    | Str(s: string)
    | List(items: seq<Value>)
    | Object(fields: Dict<string, Value>)
      /** A formatted string: the template with each `{}` slot filled by the
          corresponding argument. Rendering is not modelled. */
    | Text(template: string, args: seq<Value>)
      /** A fixed, non-empty document whose prose is not modelled: its kind
          and the values it interpolates. */
    | Doc(kind: string, refs: seq<Value>)

  /** A value decoding a JSON document can yield: no formatted strings and
      no fixed documents, at any depth. */
  predicate IsJson(v: Value)
  {
    match v
    case Text(_, _) => false
    case Doc(_, _) => false
    case List(items) => forall x <- items :: IsJson(x)
    case Object(fields) => forall p <- fields :: IsJson(p.1)
    case _ => true
  }

  /** `v.get(key)` on an object; `Null` when the key is absent. */
  function Field(v: Value, key: string): Value
  {
    if v.Object? then GetOr(v.fields, key, Null) else Null
  }

  /** `v.get(key, default)` on an object. */
  function FieldOr(v: Value, key: string, default: Value): Value
  {
    if v.Object? then GetOr(v.fields, key, default) else default
  }

  /** The host language's name for the type of `v`. */
  function TypeName(v: Value): string
  {
    match v
    case Null => "NoneType"
    case Bool(_) => "bool"
    case Int(_) => "int"
    case Real(_) => "float"
    case Str(_) => "str"
    case List(_) => "list"
    case Object(_) => "dict"
    case Text(_, _) => "str"
    case Doc(_, _) => "dict"
  }

  /** `v.get(key, default)` where `v` may be any value: a dictionary answers,
      anything else has no `get` and the call raises (`Err` with the
      message of the `AttributeError`). */
  function DictGet(v: Value, key: string, default: Value): (r: Result<Value, string>)
    ensures r.Ok? <==> v.Object?
    ensures r.Ok? && HasField(v, key) ==> Get(v.fields, key) == Some(r.value)
    ensures r.Ok? && !HasField(v, key) ==> r.value == default
  {
    if v.Object? then Ok(GetOr(v.fields, key, default))
    else Err("'" + TypeName(v) + "' object has no attribute 'get'")
  }

  /** `key in v` on an object. */
  predicate HasField(v: Value, key: string)
  {
    v.Object? && key in Keys(v.fields)
  }

  /** Truthiness of the host language: empty collections, zero, the empty
      string, `False` and `None` are false. A formatted string and a fixed
      document are never empty in this model. */
  predicate Truthy(v: Value)
  {
    match v
    case Null => false
    case Bool(b) => b
    case Int(i) => i != 0
    case Real(r) => r != 0.0
    case Str(s) => s != ""
    case List(items) => items != []
    case Object(fields) => fields != []
    case Text(_, _) => true
    case Doc(_, _) => true
  }

  /** The first `n` items of a list value, `v[:n]`; a value that is not a
      list yields no items. */
  function FirstItems(v: Value, n: nat): (r: seq<Value>)
    ensures |r| <= n
  {
    if v.List? then (if |v.items| <= n then v.items else v.items[..n]) else []
  }

  const ListIndexError := "list indices must be integers or slices, not str"
  const StringIndexError := "string indices must be integers, not 'str'"
  const SliceKeyError := "unhashable type: 'slice'"

  /** The value has the shape of decoded JSON where `key in v` and
      `v[key][:n]` look: the value itself, its items, and what it holds
      under `key`. */
  predicate ListedShape(v: Value, key: string)
  {
    && !v.Text? && !v.Doc?
    && (v.List? ==> forall x <- v.items :: !x.Text?)
    && (v.Object? ==> forall p <- v.fields :: p.0 == key ==> !p.1.Text? && !p.1.Doc?)
  }

  /** Decoded JSON has that shape under every key. */
  lemma JsonListedShape(v: Value, key: string)
    requires IsJson(v)
    ensures ListedShape(v, key)
  {
    if v.List? {
      forall x <- v.items
        ensures !x.Text?
      {
        assert IsJson(x);
      }
    } else if v.Object? {
      forall p <- v.fields
        ensures !p.1.Text? && !p.1.Doc?
      {
        assert IsJson(p.1);
      }
    }
  }

  /** The one-character strings of `s`, in order. */
  function Chars(s: string): (r: seq<Value>)
    ensures |r| == |s|
  {
    seq(|s|, i requires 0 <= i < |s| => Str([s[i]]))
  }

  /** `v[:n]`: a list or a string can be sliced, anything else raises. */
  function Prefix(v: Value, n: nat): (r: Result<seq<Value>, string>)
    requires !v.Text? && !v.Doc?
    ensures r.Ok? <==> v.List? || v.Str?
    ensures r.Ok? ==> |r.value| <= n
    ensures v.List? ==> r.value == if |v.items| <= n then v.items else v.items[..n]
  {
    match v
    case List(items) => Ok(if |items| <= n then items else items[..n])
    case Str(s) => Ok(Chars(if |s| <= n then s else s[..n]))
    case Object(_) => Err(SliceKeyError)
    case _ => Err("'" + TypeName(v) + "' object is not subscriptable")
  }

  /** `v and key in v`, then `v[key][:n]`: at most `n` items listed under
      `key`, none when `v` is falsy or lacks the key, or the message of the
      `TypeError` raised on the way. */
  function ItemsUnder(v: Value, key: string, n: nat): (r: Result<seq<Value>, string>)
    requires ListedShape(v, key)
    ensures r.Ok? ==> |r.value| <= n
  {
    if !Truthy(v) then Ok([])
    else match v
      case Object(fields) =>
        (match Get(fields, key)
         case Some(x) => Prefix(x, n)
         case None => Ok([]))
      case List(items) => if Str(key) in items then Err(ListIndexError) else Ok([])
      case Str(s) => if Contains(s, key) then Err(StringIndexError) else Ok([])
      case _ => Err("argument of type '" + TypeName(v) + "' is not iterable")
  }

  function StrList(xs: seq<string>): (r: Value)
    ensures r.List? && |r.items| == |xs|
  {
    List(Strs(xs))
  }

  /** The strings as values, in order. */
  function Strs(xs: seq<string>): (r: seq<Value>)
    ensures |r| == |xs|
    ensures forall i :: 0 <= i < |xs| ==> r[i] == Str(xs[i])
  {
    if xs == [] then [] else [Str(xs[0])] + Strs(xs[1..])
  }
}
