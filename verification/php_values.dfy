/**
 * The PHP values a Pipe holds and passes around.
 *
 * Only what the pipe and its callers use is modelled: null, booleans,
 * integers, strings, list-shaped arrays (keys 0..n-1) and closure objects.
 * Dafny's `==` on `Value` is PHP's strict comparison `===` on these kinds:
 * same kind and same contents, element by element and in order for arrays,
 * and object identity for closures (a closure is known by its handle).
 */
module PhpValues {

  datatype Value =
    | Null
    | Bool(b: bool)
    | Int(i: int)
    | Str(s: string)
    | List(items: seq<Value>)
    | Closure(id: nat)

  /** A PHP callable, seen as a total function of its argument list. */
  type Callable = seq<Value> -> Value

  /** The closure objects a program has created, by handle. */
  type Closures = map<nat, Value -> Value>

  /** PHP's conversion of a value to bool, as `array_filter` applies it. */
  predicate Truthy(v: Value)
  {
    match v
    case Null => false
    case Bool(b) => b
    case Int(i) => i != 0
    case Str(s) => s != "" && s != "0"
    case List(items) => items != []
    case Closure(_) => true
  }
}
