# Slant LanguageExt extensions, in Dafny

Slant adds three extension methods to the LanguageExt functional library
(`src/Slant/Ext.cs`):

- `GetOrElse` returns the value of an `Option`, or the value of a supplier
  when the option is empty;
- `GetOrElseThrow` returns the value of an `Option`, or raises the exception
  a supplier builds when the option is empty;
- `Then` chains a transformation onto a `Try`: a failure passes through
  unchanged, and an exception thrown by the transformation is captured as a
  `Failure` instead of escaping.

The model has three modules:

- `DotNet` (`dotnet.dfy`): exceptions as the value type `Exn`; a delegate
  reference that may be null, `Nullable<F>`; and `Result<T, E>` =
  `Returns(value) | Throws(error)`, the outcome of a call that may throw.
  `Outcome<T>` is `Result<T, Exn>`.
- `LanguageExt` (`languageext.dfy`): `Option<T>` with its `MatchUnsafe` case
  analysis, `TryResult<T>` = `Success(value) | Failure(exception)`, and
  `Try<T>`, a datatype wrapping the zero-argument function `run` that yields
  a `TryResult<T>`.
- `Ext` (`ext.dfy`): the three extensions and their laws. `Chains`
  (`chains.dfy`) holds the laws about chains of several `Then` links.

Modelling choices:

- A transformation is a total function `T -> Outcome<U>`. Throwing `e` is
  the result `Throws(e)`. Suppliers are pure functions. "The supplier is not
  invoked" is stated as "the result does not depend on the supplier".
- `GetOrElseThrow` returns `Outcome<T>`. `Throws(e)` means it raised `e`.
- The null check in `Then` is an explicit error outcome, not a precondition.
  `Then` returns `Outcome<Try<U>>`. A null `getValue` gives
  `Throws(ArgumentNullException("getValue"))` without running `self`.

`Then` runs its predecessor when `Then` is called (`src/Slant/Ext.cs:44`),
so any side effects of the predecessor happen at that point. Every run of the
returned `Try` reuses the captured `resT`; none runs the predecessor again.
It replays the captured exception, or applies `getValue` to the captured
value inside a try/catch. The body of `Ext.Then` does the same.

## Model

| member | source | states |
|---|---|---|
| `Ext.GetOrElse` | src/Slant/Ext.cs:20 | returns the contained value when present, and exactly the supplier's value when absent |
| `Ext.GetOrElseThrow` | src/Slant/Ext.cs:31-35 | returns normally if and only if a value is present, and then returns that value; when absent it raises exactly the exception the supplier returns, unwrapped |
| `Ext.Then` | src/Slant/Ext.cs:40-60 | a null `getValue` raises an argument-null exception and nothing else; otherwise a `Try` is returned, whose run replays the predecessor's failure unchanged, or gives `Success(u)` when `getValue` returns `u`, or `Failure(e)` when `getValue` throws `e` (the try/catch of lines 50-58 is the helper `Ext.Capture`) |
| `Ext.GetOrElsePresentIgnoresSupplier` | src/Slant/Ext.cs:20 | with a value present, any two suppliers give the same result, the contained value |
| `Ext.GetOrElseThrowAgreesWithGetOrElse` | src/Slant/Ext.cs:20-34 | whenever `GetOrElseThrow` returns, it returns what `GetOrElse` returns for any supplier |
| `Ext.GetOrElseThrowRoundTrip` | src/Slant/Ext.cs:31-35 | reading the outcome back as an option (a return of `v` as `Some(v)`, a throw as `None`) recovers the original option |
| `Ext.ThenNullIgnoresSelf` | src/Slant/Ext.cs:42 | a null `getValue` raises the same exception whatever the predecessor would produce |
| `Ext.ThenPropagatesFailure` | src/Slant/Ext.cs:44-47 | a failed predecessor yields its own exception unchanged, and the result is the same for every transformation |
| `Ext.ThenDependsOnlyOnPredecessorResult` | src/Slant/Ext.cs:44-59 | the chained run depends on the predecessor only through the result of running it: predecessors whose runs agree give chained runs that agree |
| `Ext.ThenIdentity` | src/Slant/Ext.cs:48-59 | chaining a transformation that returns its argument leaves the run result unchanged |
| `Ext.ThenExample` | src/Slant/Ext.cs:40-60 | the chain 10, then +1, then a throw: the second link yields `Success(11)`, the third yields `Failure` with the thrown exception |
| `Chains.ThenAllFailureShortCircuits` | src/Slant/Ext.cs:44-47 | when the first `Try` of a chain fails, the chain of any length of non-null stages builds without raising, and its run yields that same failure whatever the stages |
| `Chains.ThenAllRunsPipeline` | src/Slant/Ext.cs:40-60 | a chain of any length of non-null stages, all of one type `T -> Outcome<T>`, never raises at construction, and its run equals the stages applied directly to the first link's result, stopping at the first exception |
| `Chains.ThenAssociative` | src/Slant/Ext.cs:40-60 | chaining `f` then `g` gives the same run result as chaining once with their composition: `g(f(v))` when all return, the first exception otherwise |

## Left out

- Calls into LanguageExt are not modelled beyond their plain datatype meaning. This covers `MatchUnsafe`, the `Try<T>` delegate, its `Try()` invocation, the `TryResult<T>` constructors and the implicit lambda-to-`Try` conversion at line 47. `Try()` is the field `run`, and it already yields a `TryResult`.
- `Ext.GetOrElse`: a supplier that throws is not modelled. Suppliers are pure total functions, so the rule that a supplier's exception propagates to the caller is not represented.
- `Ext.GetOrElseThrow`: an exception supplier that throws, or that returns null (in .NET, throwing null raises a different exception), is not modelled. `Exn` values are never null.
- `Ext.GetOrElseThrow`: a null `exceptionSupplier` is not modelled, because `() -> Exn` cannot be null. In the code, `GetOrElseThrow(Some(v), null)` returns `v`. `GetOrElseThrow(None, null)` raises a null-reference exception from the lambda at line 34.
- Null values inside `Some`, which `MatchUnsafe` tolerates, are not modelled. The argument-null exceptions that the doc-comments at lines 19 and 30 mention come from library code that is not part of this model.
- A null `self` passed to `Then` is not modelled. What `Try()` does with it is library behaviour that is not part of this model.
- The `TException : Exception` type parameter of `GetOrElseThrow` is not modelled. Every exception is the single type `Exn`.
- Side effects and invocation counts of suppliers, transformations and `Try` bodies are not modelled. Everything is a pure function, so running a `Try` twice gives the same result.
- `Ext.ThenDependsOnlyOnPredecessorResult`: `Try` bodies are pure here, so running the predecessor early or late gives the same results. No contract states when the predecessor runs; only the body of `Ext.Then` runs it at call time.
- `Chains.ThenAllRunsPipeline`: chains of any length are stated only for stages that all have one type `T -> Outcome<T>`. A chain whose links change type is stated for two links by `Chains.ThenAssociative`.
- Thread safety and concurrent runs of a shared `Try` are not modelled. The code is sequential.
