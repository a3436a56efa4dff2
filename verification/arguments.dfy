/**
 * The argument-preparation rule of `Pipe::pipe`: the held value is put in
 * the place of every argument that is strictly the placeholder, or, when
 * there is none, in front of the arguments.
 *
 * In the source these are protected methods that read `$this->placeholder`
 * and `$this->value`; here both are parameters, so the rule is a pure
 * function of the arguments and the pipe's two fields.
 */
module Arguments {
  import opened PhpValues

  /** `hasPlaceholder`: a strict (`in_array(..., true)`) search for the placeholder. */
  function HasPlaceholder(args: seq<Value>, placeholder: string): (found: bool)
    ensures found <==> Str(placeholder) in args
  {
    if args == [] then false
    else args[0] == Str(placeholder) || HasPlaceholder(args[1..], placeholder)
  }

  /** `addValueAsFirstArg`: `array_unshift` on a copy of the arguments. */
  function AddValueAsFirstArg(args: seq<Value>, value: Value): (r: seq<Value>)
    ensures |r| == |args| + 1
    ensures r[0] == value && r[1..] == args
  {
    [value] + args
  }

  /**
   * `replacePlaceholderWithValue`: `array_map` over the arguments; every
   * argument strictly equal to the placeholder becomes the same value.
   */
  function ReplacePlaceholderWithValue(args: seq<Value>, placeholder: string, value: Value): (r: seq<Value>)
    ensures |r| == |args|
    ensures forall i :: 0 <= i < |args| && args[i] == Str(placeholder) ==> r[i] == value
    ensures forall i :: 0 <= i < |args| && args[i] != Str(placeholder) ==> r[i] == args[i]
  {
    if args == [] then []
    else
      [if args[0] == Str(placeholder) then value else args[0]]
      + ReplacePlaceholderWithValue(args[1..], placeholder, value)
  }

  /** `prepareArgs`: the argument list the callable receives. */
  function PrepareArgs(args: seq<Value>, placeholder: string, value: Value): (r: seq<Value>)
    ensures Str(placeholder) !in args ==>
      |r| == |args| + 1 && r[0] == value && r[1..] == args
    ensures Str(placeholder) in args ==>
      |r| == |args| &&
      (forall i :: 0 <= i < |args| && args[i] == Str(placeholder) ==> r[i] == value) &&
      (forall i :: 0 <= i < |args| && args[i] != Str(placeholder) ==> r[i] == args[i])
  {
    if HasPlaceholder(args, placeholder) then ReplacePlaceholderWithValue(args, placeholder, value)
    else AddValueAsFirstArg(args, value)
  }

  /** The held value always reaches the callable, whichever branch is taken. */
  lemma ValueIsPassed(args: seq<Value>, placeholder: string, value: Value)
    ensures value in PrepareArgs(args, placeholder, value)
  {
    var r := PrepareArgs(args, placeholder, value);
    if Str(placeholder) in args {
      var i :| 0 <= i < |args| && args[i] == Str(placeholder);
      assert r[i] == value;
    } else {
      assert r[0] == value;
    }
  }

  /**
   * The placeholder is consumed: the prepared list holds it exactly when the
   * value itself is the placeholder string.
   */
  lemma PlaceholderConsumed(args: seq<Value>, placeholder: string, value: Value)
    ensures Str(placeholder) in PrepareArgs(args, placeholder, value) <==> value == Str(placeholder)
  {
    ValueIsPassed(args, placeholder, value);
  }

  /**
   * A placeholder written once, last, takes the value there: the idiom
   * `->pipe('implode', '/', '$$')`.
   */
  lemma PlaceholderLast(front: seq<Value>, placeholder: string, value: Value)
    requires Str(placeholder) !in front
    ensures PrepareArgs(front + [Str(placeholder)], placeholder, value) == front + [value]
  {
    var args := front + [Str(placeholder)];
    assert args[|front|] == Str(placeholder);
    var r := PrepareArgs(args, placeholder, value);
    forall i | 0 <= i < |front|
      ensures r[i] == front[i]
    {
      assert args[i] == front[i];
    }
  }

  /** Without the placeholder, replacing is the identity: hence the prepend branch. */
  lemma {:induction false} ReplaceWithoutPlaceholder(args: seq<Value>, placeholder: string, value: Value)
    requires Str(placeholder) !in args
    ensures ReplacePlaceholderWithValue(args, placeholder, value) == args
  {
    if args != [] {
      assert args[0] != Str(placeholder);
      assert Str(placeholder) !in args[1..];
      ReplaceWithoutPlaceholder(args[1..], placeholder, value);
      assert args == [args[0]] + args[1..];
    }
  }

  /** Replacing twice replaces nothing more. */
  lemma ReplaceIdempotent(args: seq<Value>, placeholder: string, value: Value)
    ensures var once := ReplacePlaceholderWithValue(args, placeholder, value);
            ReplacePlaceholderWithValue(once, placeholder, value) == once
  {
  }

  /** How many arguments are strictly equal to `x`. */
  function Occurrences(args: seq<Value>, x: Value): nat
  {
    if args == [] then 0 else (if args[0] == x then 1 else 0) + Occurrences(args[1..], x)
  }

  /**
   * Counting: every placeholder occurrence turns into one copy of the value,
   * and every other argument keeps its number of occurrences. When the value
   * is itself the placeholder string, the placeholders stay where they are.
   */
  lemma {:induction false} ReplaceCounts(args: seq<Value>, placeholder: string, value: Value, x: Value)
    ensures Occurrences(ReplacePlaceholderWithValue(args, placeholder, value), x)
              == (if x == Str(placeholder) then 0 else Occurrences(args, x))
                 + (if x == value then Occurrences(args, Str(placeholder)) else 0)
  {
    if args != [] {
      var rest := ReplacePlaceholderWithValue(args[1..], placeholder, value);
      var head := if args[0] == Str(placeholder) then value else args[0];
      ReplaceCounts(args[1..], placeholder, value, x);
      var r := ReplacePlaceholderWithValue(args, placeholder, value);
      assert r == [head] + rest;
      assert r[1..] == rest;
    }
  }

  /**
   * What the callable receives, counted: one more copy of the value in
   * front, or the placeholders traded for copies of the value.
   */
  lemma PrepareCounts(args: seq<Value>, placeholder: string, value: Value, x: Value)
    ensures Occurrences(PrepareArgs(args, placeholder, value), x)
              == (if x == Str(placeholder) then 0 else Occurrences(args, x))
                 + (if x == value then (if Str(placeholder) in args then Occurrences(args, Str(placeholder)) else 1) else 0)
  {
    if Str(placeholder) in args {
      ReplaceCounts(args, placeholder, value, x);
    } else {
      var r := PrepareArgs(args, placeholder, value);
      assert r == [value] + args && r[1..] == args;
      assert Occurrences(args, Str(placeholder)) == 0 by { OccurrencesAbsent(args, Str(placeholder)); }
    }
  }

  /** An argument that is absent occurs zero times. */
  lemma {:induction false} OccurrencesAbsent(args: seq<Value>, x: Value)
    requires x !in args
    ensures Occurrences(args, x) == 0
  {
    if args != [] {
      assert x !in args[1..];
      OccurrencesAbsent(args[1..], x);
    }
  }

  /**
   * Matching is strict: an argument that is not a string (an integer 0,
   * `true`, `null`, which PHP's loose `==` could equate with a string) never
   * takes the value's place.
   */
  lemma NonStringsNeverMatch(args: seq<Value>, placeholder: string, value: Value)
    requires forall i :: 0 <= i < |args| ==> !args[i].Str?
    ensures PrepareArgs(args, placeholder, value) == [value] + args
  {
    assert Str(placeholder) !in args;
  }
}
