/**
 * Stand-ins for the PHP library functions that the pipe's callers pass as
 * callables (`strtoupper`, `trim`, `explode`, `implode`, `array_map`,
 * `str_repeat`, `array_filter`). Each takes the argument list as the pipe
 * builds it; an argument list PHP would reject (wrong count or kind) gives
 * `Null` here, where PHP would throw.
 */
module Builtins {
  import opened PhpValues

  /** ASCII upper-casing of one character. */
  function UpperChar(c: char): char
  {
    if 'a' <= c <= 'z' then (c as int - 32) as char else c
  }

  function ToUpper(s: string): (r: string)
    ensures |r| == |s|
  {
    if s == [] then [] else [UpperChar(s[0])] + ToUpper(s[1..])
  }

  /** Upper-casing goes piece by piece. */
  lemma {:induction false} ToUpperConcat(a: string, b: string)
    ensures ToUpper(a + b) == ToUpper(a) + ToUpper(b)
  {
    if a == [] {
      assert a + b == b;
    } else {
      ToUpperConcat(a[1..], b);
      assert (a + b)[1..] == a[1..] + b;
      assert (a + b)[0] == a[0];
    }
  }

  /** The characters `trim` strips by default. */
  predicate IsTrimmed(c: char)
  {
    c == ' ' || c == '\t' || c == '\n' || c == '\r' || c == '\0' || c == '\U{0B}'
  }

  function TrimStart(s: string): (r: string)
    ensures |r| <= |s| && r == s[|s| - |r|..]
    ensures r == [] || !IsTrimmed(r[0])
  {
    if s != [] && IsTrimmed(s[0]) then TrimStart(s[1..]) else s
  }

  /** Leading characters that `trim` strips make no difference to `TrimStart`. */
  lemma {:induction false} TrimStartSkips(pad: string, s: string)
    requires forall i :: 0 <= i < |pad| ==> IsTrimmed(pad[i])
    ensures TrimStart(pad + s) == TrimStart(s)
  {
    if pad != [] {
      assert (pad + s)[0] == pad[0];
      assert (pad + s)[1..] == pad[1..] + s;
      TrimStartSkips(pad[1..], s);
    } else {
      assert pad + s == s;
    }
  }

  function TrimEnd(s: string): (r: string)
    ensures |r| <= |s| && r == s[..|r|]
    ensures r == [] || !IsTrimmed(r[|r| - 1])
  {
    if s != [] && IsTrimmed(s[|s| - 1]) then TrimEnd(s[..|s| - 1]) else s
  }

  /** The pieces of `s` between occurrences of the non-empty delimiter `d`, left to right. */
  function Split(d: string, s: string): (parts: seq<string>)
    requires d != []
    ensures |parts| >= 1
    decreases |s|
  {
    if |s| < |d| then [s]
    else if s[..|d|] == d then [""] + Split(d, s[|d|..])
    else
      var rest := Split(d, s[1..]);
      [[s[0]] + rest[0]] + rest[1..]
  }

  /** The pieces joined with `sep` between each two. */
  function Join(sep: string, parts: seq<string>): string
  {
    if parts == [] then ""
    else if |parts| == 1 then parts[0]
    else parts[0] + sep + Join(sep, parts[1..])
  }

  /** A string without a (one-character) delimiter is a single piece. */
  lemma {:induction false} SplitNone(d: string, a: string)
    requires |d| == 1 && d[0] !in a
    ensures Split(d, a) == [a]
    decreases |a|
  {
    if |a| >= 1 {
      assert a[..1] != d by { assert a[..1][0] == a[0]; }
      assert d[0] !in a[1..];
      SplitNone(d, a[1..]);
      assert [a[0]] + a[1..] == a;
    }
  }

  /** A first piece ends at the first (one-character) delimiter. */
  lemma {:induction false} SplitFirst(d: string, a: string, b: string)
    requires |d| == 1 && d[0] !in a
    ensures Split(d, a + d + b) == [a] + Split(d, b)
    decreases |a|
  {
    var s := a + d + b;
    if a == [] {
      assert s[..1] == d;
      assert s[1..] == b;
    } else {
      assert s[..1] != d by { assert s[..1][0] == a[0]; }
      assert d[0] !in a[1..];
      SplitFirst(d, a[1..], b);
      assert s[1..] == a[1..] + d + b;
      assert [a[0]] + a[1..] == a;
    }
  }

  function Repeat(s: string, n: nat): (r: string)
    ensures |r| == |s| * n
  {
    if n == 0 then "" else s + Repeat(s, n - 1)
  }

  predicate AllStrings(items: seq<Value>)
  {
    forall i :: 0 <= i < |items| ==> items[i].Str?
  }

  function Texts(items: seq<Value>): (r: seq<string>)
    requires AllStrings(items)
    ensures |r| == |items| && forall i :: 0 <= i < |items| ==> items[i] == Str(r[i])
  {
    if items == [] then [] else [items[0].s] + Texts(items[1..])
  }

  function Strs(texts: seq<string>): (r: seq<Value>)
    ensures AllStrings(r) && Texts(r) == texts
  {
    if texts == [] then [] else [Str(texts[0])] + Strs(texts[1..])
  }

  /** `array_filter`: the items, in order, for which `keep` gives a truthy value. */
  function Filter(items: seq<Value>, keep: Value -> Value): (r: seq<Value>)
    ensures |r| <= |items|
    ensures forall v :: v in r ==> v in items && Truthy(keep(v))
  {
    if items == [] then []
    else (if Truthy(keep(items[0])) then [items[0]] else []) + Filter(items[1..], keep)
  }

  /** `array_map` with one array: `f` applied to each item, in order. */
  function Map(items: seq<Value>, f: Value -> Value): (r: seq<Value>)
    ensures |r| == |items| && forall i :: 0 <= i < |items| ==> r[i] == f(items[i])
  {
    if items == [] then [] else [f(items[0])] + Map(items[1..], f)
  }

  // The callables, on argument lists.

  function StrToUpper(args: seq<Value>): Value
  {
    if |args| == 1 && args[0].Str? then Str(ToUpper(args[0].s)) else Null
  }

  function Trim(args: seq<Value>): Value
  {
    if |args| == 1 && args[0].Str? then Str(TrimEnd(TrimStart(args[0].s))) else Null
  }

  /** `explode($separator, $string)`; an empty separator is an error in PHP. */
  function Explode(args: seq<Value>): Value
  {
    if |args| == 2 && args[0].Str? && args[1].Str? && args[0].s != ""
    then List(Strs(Split(args[0].s, args[1].s)))
    else Null
  }

  /** `implode($separator, $array)`, or the legacy order `implode($array, $separator)`. */
  function Implode(args: seq<Value>): Value
  {
    if |args| == 2 && args[0].Str? && args[1].List? && AllStrings(args[1].items)
    then Str(Join(args[0].s, Texts(args[1].items)))
    else if |args| == 2 && args[0].List? && args[1].Str? && AllStrings(args[0].items)
    then Str(Join(args[1].s, Texts(args[0].items)))
    else Null
  }

  function StrRepeat(args: seq<Value>): Value
  {
    if |args| == 2 && args[0].Str? && args[1].Int? && args[1].i >= 0
    then Str(Repeat(args[0].s, args[1].i))
    else Null
  }

  /** `array_map($callback, $array)` with a closure as the callback. */
  function ArrayMap(closures: Closures, args: seq<Value>): Value
  {
    if |args| == 2 && args[0].Closure? && args[0].id in closures && args[1].List?
    then List(Map(args[1].items, closures[args[0].id]))
    else Null
  }

  /** `array_filter($array, $callback)` with a closure as the callback; keys are not modelled. */
  function ArrayFilter(closures: Closures, args: seq<Value>): Value
  {
    if |args| == 2 && args[0].List? && args[1].Closure? && args[1].id in closures
    then List(Filter(args[0].items, closures[args[1].id]))
    else Null
  }

  /** The functions a program can name, as a method name of a Pipe or a callable string. */
  function Functions(closures: Closures): map<string, Callable>
  {
    map[
      "strtoupper" := StrToUpper,
      "trim" := Trim,
      "explode" := Explode,
      "implode" := Implode,
      "str_repeat" := StrRepeat,
      "array_map" := (args => ArrayMap(closures, args)),
      "array_filter" := (args => ArrayFilter(closures, args))
    ]
  }
}
