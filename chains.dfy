/** Chains built from `Then`: `t.Then(f1).Then(f2)...`. Each stage is
    skipped once an earlier stage, or the first `Try`, has failed.

    The chains of any length here have every stage of one type
    `T -> Outcome<T>`; a chain whose links change type is covered for two
    links by `ThenAssociative`. The reference `Pipeline` spells out the
    try/catch of a stage itself rather than reusing `Ext.Capture`. */
module Chains {
  import opened DotNet
  import opened LanguageExt
  import opened Ext

  /** Reference meaning of a chain, with no `Try` in it: feed the result of
      the first link through the stages, applying each stage to a success
      (a return becomes that success, a throw becomes that failure) and
      passing a failure on. */
  function Pipeline<T>(r: TryResult<T>, stages: seq<T -> Outcome<T>>): (p: TryResult<T>)
    decreases |stages|
  {
    if |stages| == 0 then r
    else
      match r
      case Failure(e) => Failure(e)
      case Success(v) =>
        match stages[0](v)
        case Returns(u) => Pipeline(Success(u), stages[1..])
        case Throws(e) => Pipeline(Failure(e), stages[1..])
  }

  /** `t.Then(stages[0]).Then(stages[1])...`, none of the stages null. */
  function ThenAll<T>(t: Try<T>, stages: seq<T -> Outcome<T>>): (r: Outcome<Try<T>>)
    decreases |stages|
  {
    if |stages| == 0 then Returns(t)
    else
      match Then(t, NonNull(stages[0]))
      case Throws(e) => Throws(e)
      case Returns(next) => ThenAll(next, stages[1..])
  }

  /** A chain of non-null stages never raises at construction, and running
      it gives exactly the reference meaning of its stages applied to the
      first link's result. */
  lemma {:induction false} ThenAllRunsPipeline<T>(t: Try<T>, stages: seq<T -> Outcome<T>>)
    ensures ThenAll(t, stages).Returns?
    ensures ThenAll(t, stages).value.run() == Pipeline(t.run(), stages)
    decreases |stages|
  {
    if |stages| > 0 {
      var next := Then(t, NonNull(stages[0])).value;
      ThenAllRunsPipeline(next, stages[1..]);
      match t.run()
      case Failure(e) =>
        assert next.run() == Failure(e);
        if |stages| > 1 {
          assert Pipeline(Failure(e), stages[1..]) == Failure(e);
        }
      case Success(v) =>
        assert next.run() == Capture(stages[0], v);
    }
  }

  /** When the first `Try` of a chain fails, running the whole chain yields
      that failure, with the same exception, whatever the stages. */
  lemma {:induction false} ThenAllFailureShortCircuits<T>(t: Try<T>, stages: seq<T -> Outcome<T>>)
    requires t.run().Failure?
    ensures ThenAll(t, stages).Returns?
    ensures ThenAll(t, stages).value.run() == t.run()
  {
    ThenAllRunsPipeline(t, stages);
  }

  /** Kleisli composition of two transformations: apply `f`, and `g` to what
      it returns; a throw from `f` skips `g`. */
  function Compose<T, U, V>(f: T -> Outcome<U>, g: U -> Outcome<V>): (h: T -> Outcome<V>)
  {
    x =>
      match f(x)
      case Returns(y) => g(y)
      case Throws(e) => Throws(e)
  }

  /** Chaining `f` then `g` behaves as chaining their composition once:
      `g(f(v))` when everything returns, the first exception otherwise. */
  lemma ThenAssociative<T, U, V>(t: Try<T>, f: T -> Outcome<U>, g: U -> Outcome<V>)
    ensures Then(Then(t, NonNull(f)).value, NonNull(g)).Returns?
    ensures Then(Then(t, NonNull(f)).value, NonNull(g)).value.run()
         == Then(t, NonNull(Compose(f, g))).value.run()
  {
  }
}
