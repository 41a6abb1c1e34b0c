/** Decoded JSON values as Python's `json.loads` hands them to the agent.
    Objects are kept as ordered sequences of entries because Python dictionaries
    remember insertion order, and the ID rescue in telegram_bot.py depends on it.
    Parsing and printing themselves are not modelled: they are the `Parser` and
    `Printer` oracles that the operations receive as parameters. */
module Json {
  import opened Wrappers

  datatype Value =
    | Null
    | Bool(b: bool)
    | Int(i: int)
    | Float(f: real)
    | Str(s: string)
    | Array(items: seq<Value>)
    | Object(entries: seq<Entry>)

  datatype Entry = Entry(key: string, val: Value)

  /** `json.loads`: a decoded value, or the message of the JSONDecodeError it raises. */
  type Parser = string -> Result<Value, string>

  /** `json.dumps` with the serializer's default hook (and a fixed indent). */
  type Printer = Value -> string

  /** Python truthiness of a decoded value (`if v:`). */
  predicate Truthy(v: Value) {
    match v
    case Null => false
    case Bool(b) => b
    case Int(i) => i != 0
    case Float(f) => f != 0.0
    case Str(s) => s != ""
    case Array(items) => items != []
    case Object(entries) => entries != []
  }

  /** `isinstance(v, int)`: in Python a bool is an int too. */
  predicate IsIntLike(v: Value) {
    v.Int? || v.Bool?
  }

  /** `type(v).__name__` of the Python object a value decodes to. */
  function TypeName(v: Value): string {
    match v
    case Null => "NoneType"
    case Bool(_) => "bool"
    case Int(_) => "int"
    case Float(_) => "float"
    case Str(_) => "str"
    case Array(_) => "list"
    case Object(_) => "dict"
  }

  /** The text of the AttributeError raised by `.get` on something that is not a dict. */
  function NoGet(x: Value): string {
    "'" + TypeName(x) + "' object has no attribute 'get'"
  }

  /** The text of the AttributeError raised by `.items()` on something that is not a dict. */
  function NoItems(x: Value): string {
    "'" + TypeName(x) + "' object has no attribute 'items'"
  }

  predicate HasKey(es: seq<Entry>, k: string) {
    exists i :: 0 <= i < |es| && es[i].key == k
  }

  /** `d.get(k)`: the value stored under `k`, if any. */
  function Get(es: seq<Entry>, k: string): (r: Option<Value>)
    ensures r.Some? <==> HasKey(es, k)
    ensures r.Some? ==> Entry(k, r.value) in es
  {
    if es == [] then None
    else if es[0].key == k then Some(es[0].val)
    else
      var r := Get(es[1..], k);
      assert HasKey(es, k) ==> es[0].key == k || HasKey(es[1..], k) by {
        if HasKey(es, k) {
          var i :| 0 <= i < |es| && es[i].key == k;
          if i > 0 { assert es[1..][i - 1].key == k; }
        }
      }
      assert HasKey(es[1..], k) ==> HasKey(es, k) by {
        if HasKey(es[1..], k) {
          var i :| 0 <= i < |es[1..]| && es[1..][i].key == k;
          assert es[i + 1].key == k;
        }
      }
      r
  }

  function Values(es: seq<Entry>): (r: seq<Value>)
    ensures |r| == |es| && forall i :: 0 <= i < |es| ==> r[i] == es[i].val
  {
    seq(|es|, i requires 0 <= i < |es| => es[i].val)
  }
}
