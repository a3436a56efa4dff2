/**
 * The call chains of the repository's test suite, written against the
 * model: each method builds a Pipe, chains the same calls and states the
 * value the test expects. Each call's result is stated once, in a lemma
 * about the callable and the prepared arguments; the methods only chain.
 */
module PipeExamples {
  import opened PhpValues
  import opened Arguments
  import opened Builtins
  import opened Pipes

  /** The closures the chains create: `$item . '-test'`, `$item . '-postfixed'`, `$item === 'SOME'`. */
  const AddTest := 0
  const AddPostfixed := 1
  const IsSome := 2

  function Suffix(suffix: string): Value -> Value
  {
    (v: Value) => if v.Str? then Str(v.s + suffix) else Null
  }

  function TestClosures(): Closures
  {
    map[
      AddTest := Suffix("-test"),
      AddPostfixed := Suffix("-postfixed"),
      IsSome := ((v: Value) => Bool(v == Str("SOME")))
    ]
  }

  /** A closure used as the callable itself: PHP passes it the first argument and ignores the rest. */
  function Invoke(closures: Closures, id: nat): Callable
  {
    args => if |args| >= 1 && id in closures then closures[id](args[0]) else Null
  }

  /** None of the names the chains call as methods is a public method of `Pipe`, so each is forwarded. */
  lemma ForwardedNames()
    ensures !IsPublicMethod("strtoupper") && !IsPublicMethod("trim") && !IsPublicMethod("explode")
    ensures !IsPublicMethod("implode") && !IsPublicMethod("str_repeat")
    ensures !IsPublicMethod("array_map") && !IsPublicMethod("array_filter")
  {
  }

  /** The names the chains call as methods of a Pipe resolve to the stand-ins. */
  lemma NamedFunctions(closures: Closures)
    ensures var functions := Functions(closures);
      "strtoupper" in functions && functions["strtoupper"] == StrToUpper &&
      "trim" in functions && functions["trim"] == Trim &&
      "explode" in functions && functions["explode"] == Explode &&
      "implode" in functions && functions["implode"] == Implode &&
      "str_repeat" in functions && functions["str_repeat"] == StrRepeat &&
      "array_map" in functions && (forall args :: functions["array_map"](args) == ArrayMap(closures, args)) &&
      "array_filter" in functions && (forall args :: functions["array_filter"](args) == ArrayFilter(closures, args))
  {
  }

  // The values the chains go through.

  const Word := Str("string")
  const UpperWord := Str("STRING")
  const Subject := Str("some.test.values")
  const Words := List(Strs(["some", "test", "values"]))
  const Dot := List(Strs(["."]))
  const Suffixed := List(Strs(["some-test", "test-test", "values-test"]))
  const Slashed := Str("some-test/test-test/values-test")
  const SomeValueParts := List(Strs(["some", "value"]))
  const PaddedValue := Str("    value")
  const Value5 := Str("value")
  const UpperValue := Str("VALUE")
  const Repeated := Str("valuevaluevalue")
  const UpperRepeated := Str("VALUEVALUEVALUE")
  const SomeArray := List(Strs(["some", "array"]))
  const PaddedSomeValue := Str("    some-value")
  const SomeValue := Str("some-value")
  const UpperSomeValue := Str("SOME-VALUE")
  const UpperParts := List(Strs(["SOME", "VALUE"]))
  const OnlySome := List(Strs(["SOME"]))

  // Small facts the steps below are built from.

  lemma StrsOne(a: string)
    ensures Strs([a]) == [Str(a)]
  {
  }

  lemma StrsTwo(a: string, b: string)
    ensures Strs([a, b]) == [Str(a), Str(b)]
  {
    var r := Strs([a, b]);
    assert |r| == 2 && r[0] == Str(a) && r[1] == Str(b);
  }

  lemma StrsThree(a: string, b: string, c: string)
    ensures Strs([a, b, c]) == [Str(a), Str(b), Str(c)]
  {
    var r := Strs([a, b, c]);
    assert |r| == 3 && r[0] == Str(a) && r[1] == Str(b) && r[2] == Str(c);
  }

  lemma JoinTwo(sep: string, a: string, b: string)
    ensures Join(sep, [a, b]) == a + sep + b
  {
    assert [a, b][1..] == [b];
  }

  lemma JoinThree(sep: string, a: string, b: string, c: string)
    ensures Join(sep, [a, b, c]) == a + sep + b + sep + c
  {
    assert [a, b, c][1..] == [b, c];
    JoinTwo(sep, b, c);
    assert a + sep + (b + sep + c) == a + sep + b + sep + c;
  }

  /** `->explode(sep, '$$')` on a string: the string is split on `sep`. */
  lemma ExplodeLast(sep: string, s: string, parts: seq<string>)
    requires sep != "" && sep != DefaultPlaceholder && Split(sep, s) == parts
    ensures Explode(PrepareArgs([Str(sep), Str(DefaultPlaceholder)], DefaultPlaceholder, Str(s))) == List(Strs(parts))
  {
    PlaceholderLast([Str(sep)], DefaultPlaceholder, Str(s));
    assert [Str(sep)] + [Str(DefaultPlaceholder)] == [Str(sep), Str(DefaultPlaceholder)];
  }

  /** `->implode(sep, '$$')` on an array of strings: the strings are joined with `sep`. */
  lemma ImplodeLast(sep: string, texts: seq<string>, joined: string)
    requires sep != DefaultPlaceholder && Join(sep, texts) == joined
    ensures Implode(PrepareArgs([Str(sep), Str(DefaultPlaceholder)], DefaultPlaceholder, List(Strs(texts)))) == Str(joined)
  {
    PlaceholderLast([Str(sep)], DefaultPlaceholder, List(Strs(texts)));
    assert [Str(sep)] + [Str(DefaultPlaceholder)] == [Str(sep), Str(DefaultPlaceholder)];
  }

  /** `trim` on a word padded with four spaces on the left gives the word. */
  lemma TrimPadded(padded: string, word: string)
    requires word != [] && !IsTrimmed(word[0]) && !IsTrimmed(word[|word| - 1])
    requires padded == "    " + word
    ensures Trim(PrepareArgs([], DefaultPlaceholder, Str(padded))) == Str(word)
  {
    assert PrepareArgs([], DefaultPlaceholder, Str(padded)) == [Str(padded)];
    TrimStartSkips("    ", word);
    assert TrimStart(word) == word;
    assert TrimEnd(word) == word;
  }

  lemma UpperStep(s: string, upper: string)
    requires ToUpper(s) == upper
    ensures StrToUpper(PrepareArgs([], DefaultPlaceholder, Str(s))) == Str(upper)
  {
    assert PrepareArgs([], DefaultPlaceholder, Str(s)) == [Str(s)];
  }

  /** Three pieces without the (one-character) delimiter, joined by it, split back into the three. */
  lemma SplitThree(d: string, a: string, b: string, c: string)
    requires |d| == 1 && d[0] !in a && d[0] !in b && d[0] !in c
    ensures Split(d, a + d + b + d + c) == [a, b, c]
  {
    SplitNone(d, c);
    SplitFirst(d, b, c);
    SplitFirst(d, a, b + d + c);
    assert a + d + b + d + c == a + d + (b + d + c);
  }

  lemma SplitSubject()
    ensures Split(".", Subject.s) == ["some", "test", "values"]
  {
    SplitThree(".", "some", "test", "values");
    assert "some" + "." + "test" + "." + "values" == Subject.s;
  }

  lemma SplitSomeValue()
    ensures Split(".", "some.value") == ["some", "value"]
  {
    SplitFirst(".", "some", "value");
    SplitNone(".", "value");
    assert "some" + "." + "value" == "some.value";
  }

  lemma SplitUpper()
    ensures Split("-", "SOME-VALUE") == ["SOME", "VALUE"]
  {
    SplitFirst("-", "SOME", "VALUE");
    SplitNone("-", "VALUE");
    assert "SOME" + "-" + "VALUE" == "SOME-VALUE";
  }

  lemma ToUpperRepeated()
    ensures ToUpper("valuevaluevalue") == "VALUEVALUEVALUE"
  {
    var v := "value";
    assert ToUpper(v) == "VALUE";
    ToUpperConcat(v, v);
    ToUpperConcat(v + v, v);
    assert v + v + v == "valuevaluevalue";
    assert "VALUE" + "VALUE" + "VALUE" == "VALUEVALUEVALUE";
  }

  lemma ToUpperSomeValue()
    ensures ToUpper("some-value") == "SOME-VALUE"
  {
    var some, value := "some", "-value";
    assert ToUpper(some) == "SOME";
    assert ToUpper(value) == "-VALUE";
    ToUpperConcat(some, value);
    assert some + value == "some-value";
    assert "SOME" + "-VALUE" == "SOME-VALUE";
  }

  // One lemma per call: the callable applied to the prepared arguments.

  lemma UpperWordStep()
    ensures StrToUpper(PrepareArgs([], DefaultPlaceholder, Word)) == UpperWord
  {
    assert ToUpper("string") == "STRING";
    UpperStep("string", "STRING");
  }

  /** `->pipe('explode', '.', '$$')` on the subject gives its words. */
  lemma ExplodeStep()
    ensures Explode(PrepareArgs([Str("."), Str("$$")], DefaultPlaceholder, Subject)) == Words
  {
    SplitSubject();
    ExplodeLast(".", Subject.s, ["some", "test", "values"]);
  }

  /** `->pipe('explode', '.')` on the subject: the subject is the separator, '.' the string. */
  lemma ExplodeReversedStep()
    ensures Explode(PrepareArgs([Str(".")], DefaultPlaceholder, Subject)) == Dot
  {
    assert PrepareArgs([Str(".")], DefaultPlaceholder, Subject) == [Subject, Str(".")];
    assert Split("some.test.values", ".") == ["."];
  }

  /** Mapping a suffixing closure over three strings. */
  lemma MapSuffix(a: string, b: string, c: string, suffix: string)
    ensures Map(Strs([a, b, c]), Suffix(suffix)) == Strs([a + suffix, b + suffix, c + suffix])
  {
    StrsThree(a, b, c);
    StrsThree(a + suffix, b + suffix, c + suffix);
    var r := Map([Str(a), Str(b), Str(c)], Suffix(suffix));
    assert |r| == 3;
    assert r[0] == Str(a + suffix) && r[1] == Str(b + suffix) && r[2] == Str(c + suffix);
  }

  /** `->array_map($closure, '$$')` on an array: the closure is applied to each item. */
  lemma ArrayMapLast(closures: Closures, id: nat, items: seq<Value>)
    requires id in closures
    ensures ArrayMap(closures, PrepareArgs([Closure(id), Str(DefaultPlaceholder)], DefaultPlaceholder, List(items)))
      == List(Map(items, closures[id]))
  {
    PlaceholderLast([Closure(id)], DefaultPlaceholder, List(items));
    assert [Closure(id)] + [Str(DefaultPlaceholder)] == [Closure(id), Str(DefaultPlaceholder)];
  }

  lemma SuffixWords()
    ensures Map(Words.items, Suffix("-test")) == Suffixed.items
  {
    MapSuffix("some", "test", "values", "-test");
    assert "some" + "-test" == "some-test";
    assert "test" + "-test" == "test-test";
    assert "values" + "-test" == "values-test";
  }

  /** `->pipe('array_map', $closure, '$$')` on the words suffixes each. */
  lemma MapStep()
    ensures ArrayMap(TestClosures(), PrepareArgs([Closure(AddTest), Str("$$")], DefaultPlaceholder, Words)) == Suffixed
  {
    var addTest := TestClosures()[AddTest];
    assert addTest == Suffix("-test");
    ArrayMapLast(TestClosures(), AddTest, Words.items);
    SuffixWords();
  }

  /** `->pipe('implode', '/', '$$')` on the suffixed words joins them. */
  lemma ImplodeStep()
    ensures Implode(PrepareArgs([Str("/"), Str("$$")], DefaultPlaceholder, Suffixed)) == Slashed
  {
    JoinThree("/", "some-test", "test-test", "values-test");
    assert "some-test" + "/" + "test-test" + "/" + "values-test" == "some-test/test-test/values-test";
    ImplodeLast("/", ["some-test", "test-test", "values-test"], "some-test/test-test/values-test");
  }

  /** `->pipe('implode', '.')` on the words: the array goes first, the legacy order. */
  lemma ImplodeLegacyStep()
    ensures Implode(PrepareArgs([Str(".")], DefaultPlaceholder, Words)) == Subject
  {
    assert PrepareArgs([Str(".")], DefaultPlaceholder, Words) == [Words, Str(".")];
    JoinThree(".", "some", "test", "values");
    assert "some" + "." + "test" + "." + "values" == "some.test.values";
  }

  lemma ExplodeSomeValueStep()
    ensures Explode(PrepareArgs([Str("."), Str("$$")], DefaultPlaceholder, Str("some.value"))) == SomeValueParts
  {
    SplitSomeValue();
    ExplodeLast(".", "some.value", ["some", "value"]);
  }

  lemma TrimValueStep()
    ensures Trim(PrepareArgs([], DefaultPlaceholder, PaddedValue)) == Value5
  {
    TrimPadded("    value", "value");
  }

  lemma UpperValueStep()
    ensures StrToUpper(PrepareArgs([], DefaultPlaceholder, Value5)) == UpperValue
  {
    assert ToUpper("value") == "VALUE";
    UpperStep("value", "VALUE");
  }

  lemma RepeatStep()
    ensures StrRepeat(PrepareArgs([Int(3)], DefaultPlaceholder, Value5)) == Repeated
  {
    assert PrepareArgs([Int(3)], DefaultPlaceholder, Value5) == [Value5, Int(3)];
    assert Repeat("value", 0) == "";
    assert Repeat("value", 1) == "value";
    assert Repeat("value", 2) == "valuevalue";
    assert Repeat("value", 3) == "valuevaluevalue";
  }

  lemma UpperRepeatedStep()
    ensures StrToUpper(PrepareArgs([], DefaultPlaceholder, Repeated)) == UpperRepeated
  {
    ToUpperRepeated();
    UpperStep("valuevaluevalue", "VALUEVALUEVALUE");
  }

  lemma ImplodeArrayStep()
    ensures Implode(PrepareArgs([Str("."), Str("$$")], DefaultPlaceholder, SomeArray)) == Str("some.array")
  {
    JoinTwo(".", "some", "array");
    ImplodeLast(".", ["some", "array"], "some.array");
  }

  lemma PostfixStep()
    ensures Invoke(TestClosures(), AddPostfixed)(PrepareArgs([], DefaultPlaceholder, Value5)) == Str("value-postfixed")
  {
    assert PrepareArgs([], DefaultPlaceholder, Value5) == [Value5];
    assert TestClosures()[AddPostfixed] == Suffix("-postfixed");
  }

  lemma TrimSomeValueStep()
    ensures Trim(PrepareArgs([], DefaultPlaceholder, PaddedSomeValue)) == SomeValue
  {
    TrimPadded("    some-value", "some-value");
  }

  lemma UpperSomeValueStep()
    ensures StrToUpper(PrepareArgs([], DefaultPlaceholder, SomeValue)) == UpperSomeValue
  {
    ToUpperSomeValue();
    UpperStep("some-value", "SOME-VALUE");
  }

  lemma ExplodeUpperStep()
    ensures Explode(PrepareArgs([Str("-"), Str("$$")], DefaultPlaceholder, UpperSomeValue)) == UpperParts
  {
    SplitUpper();
    ExplodeLast("-", "SOME-VALUE", ["SOME", "VALUE"]);
  }

  /** `->array_filter($filter)`: no placeholder, so the array comes first and the closure second. */
  lemma FilterStep()
    ensures ArrayFilter(TestClosures(), PrepareArgs([Closure(IsSome)], DefaultPlaceholder, UpperParts)) == OnlySome
  {
    assert PrepareArgs([Closure(IsSome)], DefaultPlaceholder, UpperParts) == [UpperParts, Closure(IsSome)];
    StrsTwo("SOME", "VALUE");
    StrsOne("SOME");
    var isSome := TestClosures()[IsSome];
    assert Truthy(isSome(Str("SOME")));
    assert !Truthy(isSome(Str("VALUE")));
    assert Filter([Str("VALUE")], isSome) == [];
    assert [Str("SOME"), Str("VALUE")][1..] == [Str("VALUE")];
  }

  lemma ImplodeSomeStep()
    ensures Implode(PrepareArgs([Str("."), Str("$$")], DefaultPlaceholder, OnlySome)) == Str("SOME")
  {
    ImplodeLast(".", ["SOME"], "SOME");
  }

  // The chains.

  /** `new Pipe(...)` and `Pipe::take(...)` hold the same value and the default placeholder. */
  method CreationMethodsAgree() returns (viaNew: Value, viaTake: Value)
    ensures viaNew == viaTake == Word
  {
    var p1 := new Pipe(Word);
    var p2 := Pipe.Take(Word);
    assert p1.placeholder == p2.placeholder == "$$";
    viaNew := p1.Get();
    viaTake := p2.Get();
  }

  /** `->pipe('strtoupper')`. */
  method UpperCaseExample() returns (r: Value)
    ensures r == UpperWord
  {
    var p := Pipe.Take(Word);
    p := p.Pipe(StrToUpper, []);
    UpperWordStep();
    r := p.Get();
  }

  /** `->pipe(function (string $value) { return 'prefixed-' . $value; })`. */
  method ClosureExample() returns (r: Value)
    ensures r == Str("prefixed-string")
  {
    var p := Pipe.Take(Word);
    p := p.Pipe((args: seq<Value>) => if |args| == 1 && args[0].Str? then Str("prefixed-" + args[0].s) else Null, []);
    assert PrepareArgs([], DefaultPlaceholder, Word) == [Word];
    r := p.Get();
  }

  /** `->pipe('implode', '.')` on an array. */
  method ImplodeExample() returns (r: Value)
    ensures r == Subject
  {
    var p := Pipe.Take(Words);
    p := p.Pipe(Implode, [Str(".")]);
    ImplodeLegacyStep();
    r := p.Get();
  }

  /**
   * The placeholder decides the argument order: prepended, the subject is
   * `explode`'s separator; substituted, it is `explode`'s string.
   */
  method PlaceholderExample() returns (without: Value, with: Value)
    ensures without == Dot
    ensures with == Words
  {
    var p := Pipe.Take(Subject);
    p := p.Pipe(Explode, [Str(".")]);
    ExplodeReversedStep();
    without := p.Get();

    var q := Pipe.Take(Subject);
    q := q.Pipe(Explode, [Str("."), Str("$$")]);
    ExplodeStep();
    with := q.Get();
  }

  /** `->strtoupper()` and `->explode('.', '$$')` called as methods. */
  method DispatchExample() returns (upper: Value, parts: Value)
    ensures upper == UpperWord
    ensures parts == SomeValueParts
  {
    var functions := Functions(TestClosures());
    NamedFunctions(TestClosures());
    ForwardedNames();
    var p := Pipe.Take(Word);
    p := p.Call(functions, "strtoupper", []);
    UpperWordStep();
    upper := p.Get();

    var q := Pipe.Take(Str("some.value"));
    q := q.Call(functions, "explode", [Str("."), Str("$$")]);
    ExplodeSomeValueStep();
    parts := q.Get();
  }

  /** The three-step chain: explode, map each word, implode with '/'. */
  method MultiStepExample() returns (r: Value)
    ensures r == Slashed
  {
    var p := Pipe.Take(Subject);
    p := p.Pipe(Explode, [Str("."), Str("$$")]);
    ExplodeStep();
    p := p.Pipe(args => ArrayMap(TestClosures(), args), [Closure(AddTest), Str("$$")]);
    MapStep();
    p := p.Pipe(Implode, [Str("/"), Str("$$")]);
    ImplodeStep();
    r := p.Get();
  }

  /** The three-step chain written with method-name calls gives the same value. */
  method MultiStepByName() returns (r: Value)
    ensures r == Slashed
  {
    var functions := Functions(TestClosures());
    NamedFunctions(TestClosures());
    ForwardedNames();
    var p := Pipe.Take(Subject);
    p := p.Call(functions, "explode", [Str("."), Str("$$")]);
    ExplodeStep();
    p := p.Call(functions, "array_map", [Closure(AddTest), Str("$$")]);
    MapStep();
    p := p.Call(functions, "implode", [Str("/"), Str("$$")]);
    ImplodeStep();
    r := p.Get();
  }

  /** `->pipe('trim')->pipe('strtoupper')`, and the same by method names. */
  method TrimUpperExample() returns (piped: Value, called: Value)
    ensures piped == called == UpperValue
  {
    var p := Pipe.Take(PaddedValue);
    p := p.Pipe(Trim, []);
    TrimValueStep();
    p := p.Pipe(StrToUpper, []);
    UpperValueStep();
    piped := p.Get();

    var functions := Functions(TestClosures());
    NamedFunctions(TestClosures());
    ForwardedNames();
    var q := Pipe.Take(PaddedValue);
    q := q.Call(functions, "trim", []);
    q := q.Call(functions, "strtoupper", []);
    called := q.Get();
  }

  /** `->str_repeat(3)->strtoupper()`: a non-placeholder argument follows the value. */
  method RepeatExample() returns (r: Value)
    ensures r == UpperRepeated
  {
    var functions := Functions(TestClosures());
    NamedFunctions(TestClosures());
    ForwardedNames();
    var p := Pipe.Take(Value5);
    p := p.Call(functions, "str_repeat", [Int(3)]);
    RepeatStep();
    p := p.Call(functions, "strtoupper", []);
    UpperRepeatedStep();
    r := p.Get();
  }

  /** `->implode('.', '$$')` on an array. */
  method ImplodeByNameExample() returns (r: Value)
    ensures r == Str("some.array")
  {
    var functions := Functions(TestClosures());
    NamedFunctions(TestClosures());
    ForwardedNames();
    var p := Pipe.Take(SomeArray);
    p := p.Call(functions, "implode", [Str("."), Str("$$")]);
    ImplodeArrayStep();
    r := p.Get();
  }

  /** `->pipe($closure)`: a closure as the callable receives the value. */
  method ClosureCallableExample() returns (r: Value)
    ensures r == Str("value-postfixed")
  {
    var p := Pipe.Take(Value5);
    p := p.Pipe(Invoke(TestClosures(), AddPostfixed), []);
    PostfixStep();
    r := p.Get();
  }

  /** trim, strtoupper, explode on '-', array_filter, implode on '.', all by method names. */
  method FilterChainExample() returns (r: Value)
    ensures r == Str("SOME")
  {
    var functions := Functions(TestClosures());
    NamedFunctions(TestClosures());
    ForwardedNames();
    var p := Pipe.Take(PaddedSomeValue);
    p := p.Call(functions, "trim", []);
    TrimSomeValueStep();
    p := p.Call(functions, "strtoupper", []);
    UpperSomeValueStep();
    p := p.Call(functions, "explode", [Str("-"), Str("$$")]);
    ExplodeUpperStep();
    p := p.Call(functions, "array_filter", [Closure(IsSome)]);
    FilterStep();
    p := p.Call(functions, "implode", [Str("."), Str("$$")]);
    ImplodeSomeStep();
    r := p.Get();
  }
}
