/**
 * Python-level values and exceptions that the scripts and Ansible modules
 * exchange with each other and with the vendor APIs they call.
 */
module Py {

  datatype Option<T> = None | Some(value: T)

  /** The exceptions the modelled code raises, catches or lets escape. */
  datatype Exc =
    | ValueError(detail: string)        // int() of a non-integer, tuple unpacking of the wrong size
    | IndexError                        // list index out of range
    | KeyError(key: string)             // dict lookup of a missing key
    | TypeError(detail: string)         // subscripting or iterating a value of the wrong shape
    | AttributeError(detail: string)    // `.group(1)` on a regex search that found nothing
    | UnboundLocalError(name: string)   // a local read before any assignment
    | ZeroDivisionError                 // integer division by zero
    | OperationFailed(message: string)  // bigsuds.OperationFailed raised by the F5 iControl API
    | ZenossException(message: string)  // the Zenoss client's own exception class
    | Exception(message: string)        // a plain Exception('...') raised by the Zenoss client
    | TransportError(message: string)   // a failure inside a library the model does not contain

  /** `str(e)`: the text a handler sees when it formats the exception. */
  function Text(e: Exc): (t: string)
    ensures e.IndexError? ==> t == "list index out of range"
  {
    match e
    case ValueError(d) => d
    case IndexError => "list index out of range"
    case KeyError(k) => "'" + k + "'"
    case TypeError(d) => d
    case AttributeError(d) => d
    case UnboundLocalError(n) => "local variable '" + n + "' referenced before assignment"
    case ZeroDivisionError => "integer division or modulo by zero"
    case OperationFailed(m) => m
    case ZenossException(m) => m
    case Exception(m) => m
    case TransportError(m) => m
  }

  /** A computation that either returns a value or raises. */
  datatype Result<T> = Ok(value: T) | Err(error: Exc) {
    predicate IsFailure() { Err? }
    function PropagateFailure<U>(): Result<U>
      requires Err?
    {
      Err(error)
    }
    function Extract(): T
      requires Ok?
    {
      value
    }
  }

  /** A JSON-shaped Python value, as returned by a vendor API. */
  datatype Value =
    | Null
    | Bool(b: bool)
    | Int(i: int)
    | Str(s: string)
    | List(items: seq<Value>)
    | Dict(fields: map<string, Value>)

  /** `v[key]` */
  function Get(v: Value, key: string): (r: Result<Value>)
    ensures r.Ok? <==> v.Dict? && key in v.fields
    ensures r.Ok? ==> r.value == v.fields[key]
  {
    match v
    case Dict(f) => if key in f then Ok(f[key]) else Err(KeyError(key))
    case _ => Err(TypeError("value is not a dict"))
  }

  /** `v[i]` for a non-negative index. */
  function At(v: Value, i: nat): (r: Result<Value>)
    ensures r.Ok? <==> v.List? && i < |v.items|
    ensures r.Ok? ==> r.value == v.items[i]
  {
    match v
    case List(xs) => if i < |xs| then Ok(xs[i]) else Err(IndexError)
    case _ => Err(TypeError("value is not a list"))
  }

  /** `for x in v`: the elements a loop over `v` visits. */
  function Items(v: Value): (r: Result<seq<Value>>)
    ensures r.Ok? <==> v.List?
  {
    match v
    case List(xs) => Ok(xs)
    case _ => Err(TypeError("value is not iterable as a list"))
  }

  /**
   * Python's `==` between two values: a bool compares equal to the integer
   * it stands for (True == 1), everything else by structure.
   */
  predicate Equal(a: Value, b: Value) {
    match (a, b)
    case (Bool(x), Int(n)) => n == (if x then 1 else 0)
    case (Int(n), Bool(x)) => n == (if x then 1 else 0)
    case _ => a == b
  }

  /** `keys` lists every element of `s` exactly once. */
  ghost predicate IsEnumeration(keys: seq<string>, s: set<string>) {
    && (forall i :: 0 <= i < |keys| ==> keys[i] in s)
    && multiset(keys) == multiset(s)
  }

  /** The keys of a dict in the order iterating over it visits them, which Python 2 leaves unspecified. */
  method DictKeys<V>(m: map<string, V>) returns (keys: seq<string>)
    ensures IsEnumeration(keys, m.Keys)
    ensures forall i :: 0 <= i < |keys| ==> keys[i] in m
    ensures |keys| == |m|
  {
    keys := [];
    var remaining := m.Keys;
    while remaining != {}
      invariant remaining <= m.Keys
      invariant multiset(keys) + multiset(remaining) == multiset(m.Keys)
      decreases remaining
    {
      var k :| k in remaining;
      assert multiset(remaining) == multiset(remaining - {k}) + multiset{k};
      keys := keys + [k];
      remaining := remaining - {k};
    }
    assert multiset(remaining) == multiset{};
    assert multiset(keys) == multiset(m.Keys);
    assert |keys| == |multiset(keys)| == |multiset(m.Keys)| == |m.Keys|;
    forall i | 0 <= i < |keys|
      ensures keys[i] in m
    {
      assert keys[i] in multiset(keys);
      assert keys[i] in multiset(m.Keys);
    }
  }

  /** The keys of a list of key-value pairs. */
  function KeysOf<V>(items: seq<(string, V)>): (keys: seq<string>)
    ensures |keys| == |items| && forall i :: 0 <= i < |items| ==> keys[i] == items[i].0
  {
    seq(|items|, i requires 0 <= i < |items| => items[i].0)
  }

  /** `m.items()`: the key-value pairs of a dict, in its unspecified iteration order. */
  method DictItems<V>(m: map<string, V>) returns (items: seq<(string, V)>)
    ensures IsEnumeration(KeysOf(items), m.Keys)
    ensures forall i :: 0 <= i < |items| ==> items[i].0 in m && items[i].1 == m[items[i].0]
    ensures |items| == |m|
  {
    var keys := DictKeys(m);
    items := seq(|keys|, i requires 0 <= i < |keys| => (keys[i], m[keys[i]]));
    assert KeysOf(items) == keys;
  }
}
