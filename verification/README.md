# Pipe, modelled in Dafny

A model of the `Aviator\Pipe\Pipe` class, a PHP value holder for chaining
function calls. A `Pipe` holds a current value and a placeholder string
(`$$` unless another is given). Each `pipe($callable, ...$args)` calls the
callable and keeps the result as the new value. The value goes in the
place of every argument that is strictly (`===`) the placeholder. When no
argument is the placeholder, the value goes in front of the arguments.
`get()` returns the value. A call of a method the class does not make public,
such as `->strtoupper()`, is handled by `__call` as `pipe` with the
method's name as the callable.

Files:

- `php_values.dfy` (`PhpValues`): the PHP values the pipe passes around.
  Dafny's `==` on `Value` plays the part of PHP's `===`. A closure is a
  handle into a table of Dafny functions.
- `arguments.dfy` (`Arguments`): the argument-preparation rule
  (`prepareArgs`, `hasPlaceholder`, `addValueAsFirstArg`,
  `replacePlaceholderWithValue`) as pure functions of the arguments, the
  placeholder and the value, with lemmas about them.
- `pipe.dfy` (`Pipes`): the `Pipe` class, with a mutable `value` field and
  the placeholder fixed at construction, its methods, and methods stating
  how chained calls behave.
- `builtins.dfy` (`Builtins`): stand-ins for the PHP library functions
  that the repository's tests pass as callables (`strtoupper`, `trim`,
  `explode`, `implode`, `str_repeat`, `array_map`, `array_filter`), on
  argument lists. They are helpers for the examples, not part of the
  repository's code.
- `pipe_examples.dfy` (`PipeExamples`): the chains of the repository's
  tests, each a method whose postcondition is the value the test expects.

## Model

| member | source | states |
|---|---|---|
| Arguments.HasPlaceholder | src/Pipe.php:81-84 | The search is strict: true exactly when some argument is the placeholder string itself. |
| Arguments.AddValueAsFirstArg | src/Pipe.php:91-96 | The result is one longer than the arguments, starts with the value and continues with the arguments unchanged. |
| Arguments.ReplacePlaceholderWithValue | src/Pipe.php:103-110 | Same length as the arguments; every placeholder position holds the value and every other position keeps its argument. |
| Arguments.PrepareArgs | src/Pipe.php:69-74 | Without a placeholder, the value is prepended to the unchanged arguments; with one, the list keeps its length and each placeholder is replaced by the value. |
| Arguments.ValueIsPassed | src/Pipe.php:69-74 | The held value is always among the arguments the callable receives, whichever branch is taken. |
| Arguments.PlaceholderConsumed | src/Pipe.php:103-110 | The prepared list still contains the placeholder exactly when the value is itself the placeholder string. |
| Arguments.PlaceholderLast | src/Pipe.php:69-74 | Arguments ending in a single placeholder, as in `->pipe('implode', '/', '$$')`, reach the callable with the value in the last position and the rest unchanged. |
| Arguments.ReplaceWithoutPlaceholder | src/Pipe.php:103-110 | Without a placeholder, replacing changes nothing, which is why the prepend branch is needed to pass the value at all. |
| Arguments.ReplaceIdempotent | src/Pipe.php:103-110 | Replacing a second time with the same value changes nothing more. |
| Arguments.ReplaceCounts | src/Pipe.php:103-110 | Counted per value, for every input: each placeholder is traded for one copy of the value, and every other argument keeps its count; when the value is itself the placeholder string, the placeholders stay. |
| Arguments.PrepareCounts | src/Pipe.php:69-110 | Counted per value, for every input: the callable receives the value once per placeholder, or once in front when there is none; the placeholders are traded for the value, and nothing else changes count. |
| Arguments.NonStringsNeverMatch | src/Pipe.php:81-84 | Matching is strict: when no argument is a string (`0`, `true`, `null` included), the value is prepended to the unchanged arguments. |
| Pipes.Pipe.constructor | src/Pipe.php:24-28 | A new pipe holds the given value and the given placeholder, `$$` when none is given. |
| Pipes.Pipe.Take | src/Pipe.php:36-39 | The static constructor returns a fresh pipe in the same state the constructor gives. |
| Pipes.Pipe.Pipe | src/Pipe.php:46-53 | The new value is the callable applied to the prepared arguments built from the old value; the same pipe is returned for chaining. |
| Pipes.Pipe.Get | src/Pipe.php:59-62 | Returns the current value and changes nothing. |
| Pipes.Pipe.Call | src/Pipe.php:118-121 | A call by a name that is not a public method of the class sets the value to the named function applied to the prepared arguments, the same as `Pipe` with that function; the same pipe is returned. |
| Pipes.TakeThenGet | src/Pipe.php:36-62 | A newly taken pipe gives back the value it was created with, whatever the placeholder. |
| Pipes.ChainComposes | src/Pipe.php:46-53 | Two argument-less calls in a row compose: the result is `g` applied to `f` applied to the value. |
| Pipes.ChainPrepends | src/Pipe.php:69-96 | When no argument is the default placeholder (`'.'` in `->pipe('implode', '.')` included), the callable receives the value first and the arguments after it, in order. |
| Pipes.CallIsPipe | src/Pipe.php:118-121 | For a name that is not a public method of the class, a call by name and the explicit `pipe` call with the same function and arguments give the same value. |
| PipeExamples.CreationMethodsAgree | tests/PipeTest.php:11-24 | `new Pipe('string')` and `Pipe::take('string')` both give back `'string'`. |
| PipeExamples.UpperCaseExample | tests/PipeTest.php:27-34 | `->pipe('strtoupper')` on `'string'` gives `'STRING'`. |
| PipeExamples.ClosureExample | tests/PipeTest.php:37-46 | A closure prefixing `'prefixed-'` gives `'prefixed-string'`. |
| PipeExamples.ImplodeExample | tests/PipeTest.php:49-56 | `->pipe('implode', '.')` on the three words gives `'some.test.values'`. |
| PipeExamples.PlaceholderExample | tests/PipeTest.php:59-71 | Without the placeholder, `explode` receives the string as its separator and gives `['.']`; with it, the words `['some', 'test', 'values']`. |
| PipeExamples.DispatchExample | tests/PipeTest.php:74-86 | `->strtoupper()` gives `'STRING'` and `->explode('.', '$$')` on `'some.value'` gives `['some', 'value']`. |
| PipeExamples.MultiStepExample | tests/PipeTest.php:89-100 | explode, map with `'-test'` appended, and implode with `'/'` give `'some-test/test-test/values-test'`. |
| PipeExamples.MultiStepByName | tests/PipeTest.php:103-122 | The same three steps called by method name give the same value as the `pipe` chain. |
| PipeExamples.TrimUpperExample | tests/PipeTest.php:127-139 | trim then strtoupper on `'    value'`, by `pipe` and by method name, both give `'VALUE'`. |
| PipeExamples.RepeatExample | tests/PipeTest.php:141-146 | `->str_repeat(3)->strtoupper()` on `'value'` gives `'VALUEVALUEVALUE'`. |
| PipeExamples.ImplodeByNameExample | tests/PipeTest.php:148-152 | `->implode('.', '$$')` on `['some', 'array']` gives `'some.array'`. |
| PipeExamples.ClosureCallableExample | tests/PipeTest.php:154-159 | A closure held in a variable, given as the callable, gives `'value-postfixed'`. |
| PipeExamples.FilterChainExample | tests/PipeTest.php:176-184 | trim, strtoupper, explode on `'-'`, array_filter keeping `'SOME'`, and implode on `'.'` give `'SOME'`. |

## Left out

- `__call` resolves any global function name at run time. The model looks names up in an explicit map, and `Pipes.Pipe.Call` requires the name to be in it. PHP raises an error for an unknown function; that error path is not modelled.
- Pipes.Pipe.Call: PHP matches method names without regard to letter case, so `->GET()` also runs `get`; the model excludes only the lower-case public method names, because names are compared as exact strings.
- The `callable` type check of `pipe` (a `TypeError` for a non-callable) is not modelled. Callables are total Dafny functions on argument lists.
- Exceptions, side effects and by-reference parameters of the callables are not modelled.
- The placeholder is a `protected` property in PHP that a subclass could reassign. No method of the class changes it, so it is a `const` here. PHP's coercion of a non-string placeholder argument to a string is not modelled; the placeholder is a `string`.
- PHP arrays are modelled as sequences without keys. This is exact for the argument lists of positional calls. PHP 8 named arguments, which reach `$args` under string keys, are not modelled. `array_filter` keeps the original keys in PHP; the stand-in renumbers, and `implode` ignores keys anyway.
- Floats, objects other than closures, and resources are not among the modelled values.
- The library stand-ins cover what the tests use. `strtoupper` is ASCII only and `trim` uses the default character list. An argument list PHP would reject gives `Null` instead of an error. `implode` accepts both argument orders, as PHP 7 did; PHP 8 removed the legacy order.
- The global `take()` function in src/functions.php only forwards to `Pipe::take`, so `Pipes.Pipe.Take` covers it.
- The `dd()` debugging helper in dev/functions.php dumps its arguments and ends the process. It is I/O and is not part of this model.
