/**
 * The `Pipe` value holder: a current value that each `pipe` call replaces
 * with the callable's result, and a placeholder fixed at construction.
 */
module Pipes {
  import opened PhpValues
  import opened Arguments

  /** The placeholder used when none is given. */
  const DefaultPlaceholder: string := "$$"

  /** The public methods of the class: a call by one of these names is never forwarded. */
  predicate IsPublicMethod(name: string)
  {
    name in {"__construct", "take", "pipe", "get", "__call"}
  }

  class Pipe {
    /** The value being transformed. */
    var value: Value
    /** The token whose (strict) occurrences in an argument list stand for the value. */
    const placeholder: string

    constructor (value: Value, placeholder: string := DefaultPlaceholder)
      ensures this.value == value && this.placeholder == placeholder
    {
      this.value := value;
      this.placeholder := placeholder;
    }

    /** The static constructor: a new Pipe in the same state the constructor gives. */
    static method Take(value: Value, placeholder: string := DefaultPlaceholder) returns (p: Pipe)
      ensures fresh(p)
      ensures p.value == value && p.placeholder == placeholder
    {
      p := new Pipe(value, placeholder);
    }

    /**
     * Calls `callable` with the prepared arguments, keeps its result as the
     * new value and returns this same Pipe, so that calls can be chained.
     */
    method Pipe(callable: Callable, args: seq<Value>) returns (self: Pipe)
      modifies this
      ensures self == this
      ensures value == callable(PrepareArgs(args, placeholder, old(value)))
    {
      value := callable(PrepareArgs(args, placeholder, value));
      self := this;
    }

    /** The current value; nothing changes. */
    method Get() returns (v: Value)
      ensures v == value
    {
      v := value;
    }

    /**
     * A call of a method the class does not make public: the method's name is
     * looked up among the functions the program knows, and the call is the
     * same as `Pipe` with that function and the call's arguments.
     */
    method Call(functions: map<string, Callable>, name: string, args: seq<Value>) returns (self: Pipe)
      requires name in functions && !IsPublicMethod(name)
      modifies this
      ensures self == this
      ensures value == functions[name](PrepareArgs(args, placeholder, old(value)))
    {
      self := Pipe(functions[name], args);
    }
  }

  /** A fresh Pipe gives back the value it was created with. */
  method TakeThenGet(value: Value, placeholder: string) returns (r: Value)
    ensures r == value
  {
    var p := Pipe.Take(value, placeholder);
    r := p.Get();
  }

  /**
   * Chaining composes: with no arguments the value is the sole argument of
   * each call, so two calls in a row apply `f`, then `g`.
   */
  method ChainComposes(x: Value, f: Callable, g: Callable) returns (r: Value)
    ensures r == g([f([x])])
  {
    var p := Pipe.Take(x);
    assert PrepareArgs([], DefaultPlaceholder, x) == [x];
    p := p.Pipe(f, []);
    assert PrepareArgs([], DefaultPlaceholder, f([x])) == [f([x])];
    p := p.Pipe(g, []);
    r := p.Get();
  }

  /**
   * With the default placeholder, a call none of whose arguments is the
   * placeholder receives the value first and those arguments after it, in order.
   */
  method ChainPrepends(x: Value, f: Callable, args: seq<Value>) returns (r: Value)
    requires Str(DefaultPlaceholder) !in args
    ensures r == f([x] + args)
  {
    var p := Pipe.Take(x);
    p := p.Pipe(f, args);
    r := p.Get();
  }

  /** A call by name gives the same value as the explicit `Pipe` call. */
  method CallIsPipe(functions: map<string, Callable>, name: string, x: Value, args: seq<Value>)
    returns (viaCall: Value, viaPipe: Value)
    requires name in functions && !IsPublicMethod(name)
    ensures viaCall == viaPipe
    ensures viaPipe == functions[name](PrepareArgs(args, DefaultPlaceholder, x))
  {
    var p := Pipe.Take(x);
    p := p.Call(functions, name, args);
    viaCall := p.Get();
    var q := Pipe.Take(x);
    q := q.Pipe(functions[name], args);
    viaPipe := q.Get();
  }
}
