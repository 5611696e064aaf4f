/** The slice of Python's runtime that the validation code relies on: the
    dynamically typed values of a deserialized document, truthiness, the `in`
    operator, `dict.get`, iteration, and the exceptions raised along the way. */
module Python {

  datatype Option<+T> = None | Some(value: T)

  datatype Result<+T, +E> = Ok(value: T) | Err(error: E)

  /** A deserialized document value. A dict keeps its entries in insertion
      order, as Python's `dict` does; a dict built by a deserializer has
      distinct keys, and lookup returns the first entry with the key. */
  datatype Value =
    | Null
    | Bool(b: bool)
    | Int(i: int)
    | Str(s: string)
    | List(items: seq<Value>)
    | Dict(entries: seq<(string, Value)>)

  /** The exceptions the modelled code raises or lets through. */
  datatype Exception =
    | ValueError(message: string)
    | KeyError(key: string)
    | TypeError(message: string)
    | AttributeError(message: string)
    | IndexError(message: string)
    | RuntimeError(message: string)

  /** `type(v).__name__` */
  function TypeName(v: Value): string
  {
    match v
    case Null => "NoneType"
    case Bool(_) => "bool"
    case Int(_) => "int"
    case Str(_) => "str"
    case List(_) => "list"
    case Dict(_) => "dict"
  }

  /** `bool(v)`: None, False, 0 and empty containers are falsy. */
  predicate Truthy(v: Value)
  {
    match v
    case Null => false
    case Bool(b) => b
    case Int(i) => i != 0
    case Str(s) => s != ""
    case List(items) => items != []
    case Dict(entries) => entries != []
  }

  /** `d[key]` without the KeyError: the value of the first entry with the
      key, if any. */
  function Lookup(entries: seq<(string, Value)>, key: string): Option<Value>
  {
    if entries == [] then None
    else if entries[0].0 == key then Some(entries[0].1)
    else
      Lookup(entries[1..], key)
  }

  predicate Has(entries: seq<(string, Value)>, key: string)
  {
    Lookup(entries, key).Some?
  }

  /** `d.get(key)`: the value under `key`, or None when the key is absent. */
  function GetOrNone(entries: seq<(string, Value)>, key: string): Value
  {
    match Lookup(entries, key)
    case Some(v) => v
    case None => Null
  }

  /** `sub in s` on two strings: substring containment. */
  predicate IsSubstring(sub: string, s: string)
    decreases |s|
  {
    (|sub| <= |s| && s[..|sub|] == sub) || (|s| > 0 && IsSubstring(sub, s[1..]))
  }

  /** `key in container` for a string key: dict membership, list membership,
      substring test, or a TypeError for a value that is not a container. */
  function Contains(container: Value, key: string): (r: Result<bool, Exception>)
    ensures r.Err? <==> container.Null? || container.Bool? || container.Int?
    ensures r.Err? ==> r.error.TypeError?
    ensures container.Dict? ==> r == Ok(Has(container.entries, key))
  {
    match container
    case Dict(entries) => Ok(Has(entries, key))
    case List(items) => Ok(Str(key) in items)
    case Str(s) => Ok(IsSubstring(key, s))
    case _ => Err(TypeError("argument of type '" + TypeName(container) + "' is not iterable"))
  }

  /** `iter(v)`: a list yields its items, a dict its keys, a string its
      one-character strings; anything else is not iterable. */
  function Iterate(v: Value): (r: Result<seq<Value>, Exception>)
    ensures v.List? ==> r == Ok(v.items)
    ensures r.Ok? <==> v.List? || v.Dict? || v.Str?
    ensures r.Err? ==> r.error.TypeError?
  {
    match v
    case List(items) => Ok(items)
    case Dict(entries) => Ok(seq(|entries|, i requires 0 <= i < |entries| => Str(entries[i].0)))
    case Str(s) => Ok(seq(|s|, i requires 0 <= i < |s| => Str([s[i]])))
    case _ => Err(TypeError("'" + TypeName(v) + "' object is not iterable"))
  }

  function NoAttribute(v: Value, attribute: string): string
  {
    "'" + TypeName(v) + "' object has no attribute '" + attribute + "'"
  }

  function Digit(d: nat): (c: char)
    requires d < 10
    ensures '0' <= c <= '9' && c as int - '0' as int == d
  {
    "0123456789"[d]
  }

  /** `str(n)` for a natural number. */
  function NatToString(n: nat): (s: string)
    ensures |s| > 0
    ensures forall i :: 0 <= i < |s| ==> '0' <= s[i] <= '9'
    ensures |s| == 1 || s[0] != '0'
    ensures DecimalValue(s) == n
  {
    if n < 10 then [Digit(n)]
    else
      var prefix := NatToString(n / 10);
      DecimalValueSnoc(prefix, Digit(n % 10));
      assert |prefix| == 1 ==> prefix[..0] == [] && DecimalValue(prefix) == prefix[0] as int - '0' as int;
      prefix + [Digit(n % 10)]
  }

  /** `int(s)` for a string of decimal digits. */
  function DecimalValue(s: string): nat
  {
    if s == [] then 0
    else
      var d := s[|s| - 1] as int - '0' as int;
      DecimalValue(s[..|s| - 1]) * 10 + (if 0 <= d then d else 0)
  }

  lemma DecimalValueSnoc(s: string, c: char)
    requires '0' <= c <= '9'
    ensures DecimalValue(s + [c]) == DecimalValue(s) * 10 + (c as int - '0' as int)
  {
    assert (s + [c])[..|s|] == s;
  }
}
