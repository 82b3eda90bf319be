/** Python values as the relay passes them around: parsed socket events, tool
 *  arguments, backend results and the dictionaries built from them, with the
 *  few Python built-ins the core applies to them (`d[k]`, `d.get(k, default)`,
 *  truthiness, `json.dumps`, `str`). */
module Values {

  datatype Option<+T> = None | Some(value: T)

  /** The outcome of a call into code outside the model: the value it returns,
   *  or the exception it raises, kept as the text `str(e)` gives. */
  datatype Outcome<+T> = Returned(value: T) | Raised(message: string)

  /** A JSON-compatible Python value. A dictionary keeps its keys in insertion
   *  order, as Python dictionaries do. A float is only ever copied, so it is
   *  kept as the text Python prints for it. */
  datatype Value =
    | Null
    | Bool(b: bool)
    | Int(i: int)
    | Float(text: string)
    | Str(s: string)
    | Arr(elems: seq<Value>)
    | Obj(fields: seq<(string, Value)>)

  /** The entry of `key` in a dictionary's fields (the first one, should a key
   *  be listed twice, which no dictionary built here does). */
  function Lookup(fields: seq<(string, Value)>, key: string): Option<Value> {
    if fields == [] then None
    else if fields[0].0 == key then Some(fields[0].1)
    else Lookup(fields[1..], key)
  }

  /** A key is found exactly when some entry has it, and what is found is an
   *  entry's value. */
  lemma {:induction false} LookupFinds(fields: seq<(string, Value)>, key: string)
    ensures Lookup(fields, key).None? <==> forall i | 0 <= i < |fields| :: fields[i].0 != key
    ensures Lookup(fields, key).Some? ==> exists i | 0 <= i < |fields| :: fields[i] == (key, Lookup(fields, key).value)
  {
    if fields != [] && fields[0].0 != key {
      LookupFinds(fields[1..], key);
      assert forall i | 1 <= i < |fields| :: fields[i] == fields[1..][i - 1];
      if Lookup(fields, key).Some? {
        var i :| 0 <= i < |fields[1..]| && fields[1..][i] == (key, Lookup(fields, key).value);
        assert fields[i + 1] == fields[1..][i];
      }
    }
  }

  /** Looking up a key in a dictionary written out entry by entry. */
  lemma LookupCons(k: string, v: Value, rest: seq<(string, Value)>, key: string)
    ensures Lookup([(k, v)] + rest, key) == if k == key then Some(v) else Lookup(rest, key)
  {
    assert ([(k, v)] + rest)[1..] == rest;
  }

  /** `v[key]`; None where Python raises (v is not a dictionary, or lacks the key). */
  function Index(v: Value, key: string): Option<Value> {
    if v.Obj? then Lookup(v.fields, key) else None
  }

  /** `v[key]` with a string key, or what Python raises: a KeyError naming the
   *  key for a dictionary that lacks it, a TypeError for anything else. */
  function Subscript(v: Value, key: string): (r: Outcome<Value>)
    ensures r.Returned? <==> Index(v, key).Some?
    ensures r.Returned? ==> r.value == Index(v, key).value
    ensures v.Obj? && r.Raised? ==> r.message == "'" + key + "'"
  {
    match Index(v, key)
    case Some(x) => Returned(x)
    case None =>
      Raised(if v.Obj? then "'" + key + "'"
             else if v.Arr? then "list indices must be integers or slices, not str"
             else if v.Str? then "string indices must be integers, not 'str'"
             else "'" + TypeName(v) + "' object is not subscriptable")
  }

  /** `d.get(key, default)` on a dictionary. */
  function GetOr(fields: seq<(string, Value)>, key: string, default: Value): Value {
    match Lookup(fields, key)
    case Some(x) => x
    case None => default
  }

  /** `bool(v)`. */
  predicate Truthy(v: Value) {
    match v
    case Null => false
    case Bool(b) => b
    case Int(i) => i != 0
    case Float(t) => t != "0.0" && t != "-0.0"
    case Str(s) => s != []
    case Arr(es) => es != []
    case Obj(fs) => fs != []
  }

  /** `type(v).__name__`. */
  function TypeName(v: Value): string {
    match v
    case Null => "NoneType"
    case Bool(_) => "bool"
    case Int(_) => "int"
    case Float(_) => "float"
    case Str(_) => "str"
    case Arr(_) => "list"
    case Obj(_) => "dict"
  }

  /** The message of the AttributeError raised by `v.get(...)` on a non-dictionary. */
  function NoGetMessage(v: Value): string {
    "'" + TypeName(v) + "' object has no attribute 'get'"
  }

  function DigitChar(d: nat): char
    requires d < 10
  {
    "0123456789"[d]
  }

  function NatToString(n: nat): (r: string)
    ensures |r| >= 1
    decreases n
  {
    if n < 10 then [DigitChar(n)] else NatToString(n / 10) + [DigitChar(n % 10)]
  }

  function IntToString(i: int): string {
    if i < 0 then "-" + NatToString(-i) else NatToString(i)
  }

  function Join(parts: seq<string>, sep: string): string
    decreases |parts|
  {
    if parts == [] then ""
    else if |parts| == 1 then parts[0]
    else parts[0] + sep + Join(parts[1..], sep)
  }

  /** `json.dumps` and Python's `repr` lay values out alike (", " between items,
   *  ": " after keys) and differ only in quotes and constants. */
  datatype Style = Json | Python

  function Quote(style: Style): string {
    if style == Json then "\"" else "'"
  }

  /** The text of a value in either style; string contents are not escaped. */
  function Render(v: Value, style: Style): string
    decreases v
  {
    match v
    case Null => if style == Json then "null" else "None"
    case Bool(b) =>
      if style == Json then (if b then "true" else "false") else (if b then "True" else "False")
    case Int(i) => IntToString(i)
    case Float(t) => t
    case Str(s) => Quote(style) + s + Quote(style)
    case Arr(es) =>
      "[" + Join(seq(|es|, k requires 0 <= k < |es| => Render(es[k], style)), ", ") + "]"
    case Obj(fs) =>
      "{" + Join(seq(|fs|, k requires 0 <= k < |fs| =>
                   Quote(style) + fs[k].0 + Quote(style) + ": " + Render(fs[k].1, style)), ", ") + "}"
  }

  /** `json.dumps(v)`. */
  function JsonDumps(v: Value): string {
    Render(v, Json)
  }

  /** `str(v)`: a string is itself, anything else its repr. */
  function PyStr(v: Value): string {
    if v.Str? then v.s else Render(v, Python)
  }

  /** `json.loads` on text, outside the model: the value, or the decode error. */
  type Parser = string -> Outcome<Value>

  /** `json.loads(v)`: text goes to the parser; anything else raises TypeError. */
  function Loads(parse: Parser, v: Value): (r: Outcome<Value>)
    ensures v.Str? ==> r == parse(v.s)
    ensures !v.Str? ==> r.Raised?
  {
    if v.Str? then parse(v.s)
    else Raised("the JSON object must be str, bytes or bytearray, not " + TypeName(v))
  }

  /** `{"error": message}`, the error shape every router and handler returns. */
  function ErrorDict(message: string): Value {
    Obj([("error", Str(message))])
  }
}
