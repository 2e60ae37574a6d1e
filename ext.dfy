/** The three LanguageExt extensions of the Slant library: `GetOrElse` and
    `GetOrElseThrow` on `Option`, and `Then`, which chains a fallible
    transformation onto a `Try`. Suppliers and transformations are pure
    functions; a transformation that throws returns `Throws(e)`. */
module Ext {
  import opened DotNet
  import opened LanguageExt

  /** The contained value, or the supplier's value when the option is empty.
      The supplier only matters on the empty path. */
  function GetOrElse<T>(self: Option<T>, supplier: () -> T): (r: T)
    ensures self.Some? ==> r == self.value
    ensures self.None? ==> r == supplier()
  {
    self.MatchUnsafe(x => x, supplier)
  }

  /** The contained value, or the exception built by `exceptionSupplier`,
      raised as it is, when the option is empty. */
  function GetOrElseThrow<T>(self: Option<T>, exceptionSupplier: () -> Exn): (r: Outcome<T>)
    ensures r.Returns? <==> self.Some?
    ensures r.Returns? ==> r.value == self.value
    ensures r.Throws? ==> r.error == exceptionSupplier()
  {
    self.MatchUnsafe(v => Returns(v), () => Throws(exceptionSupplier()))
  }

  /** Applies a transformation inside a try/catch: a normal return becomes
      `Success`, a thrown exception becomes `Failure` with that exception. */
  function Capture<T, U>(getValue: T -> Outcome<U>, x: T): (r: TryResult<U>)
  {
    match getValue(x)
    case Returns(u) => Success(u)
    case Throws(e) => Failure(e)
  }

  /** Chains `getValue` onto `self`. A null `getValue` raises an
      argument-null exception before `self` is touched. Otherwise the body
      runs `self` once, when `Then` is called, and the returned `Try` closes
      over that result only: it replays a failure unchanged, or applies
      `getValue` to the captured value, catching what it throws. With pure
      `Try` bodies the contract cannot tell this from running `self` later;
      it fixes what every run yields, not when `self` runs. */
  function Then<T, U>(self: Try<T>, getValue: Nullable<T -> Outcome<U>>): (r: Outcome<Try<U>>)
    ensures getValue.Null? ==> r == Throws(ArgumentNullException("getValue"))
    ensures r.Returns? <==> getValue.NonNull?
    ensures r.Returns? && self.run().Failure? ==>
      r.value.run() == Failure(self.run().exception)
    ensures r.Returns? && self.run().Success? && getValue.target(self.run().value).Returns? ==>
      r.value.run() == Success(getValue.target(self.run().value).value)
    ensures r.Returns? && self.run().Success? && getValue.target(self.run().value).Throws? ==>
      r.value.run() == Failure(getValue.target(self.run().value).error)
  {
    if getValue.Null? then
      Throws(ArgumentNullException("getValue"))
    else
      var resT := self.run();
      if resT.IsFaulted() then
        var e := resT.exception;
        Returns(Try(() => Failure(e)))
      else
        var f, v := getValue.target, resT.value;
        Returns(Try(() => Capture(f, v)))
  }

  // ---------------------------------------------------------------------------
  // Option extensions

  /** When a value is present, the supplier is never consulted: any two
      suppliers give the same result, the contained value. */
  lemma GetOrElsePresentIgnoresSupplier<T>(v: T, s1: () -> T, s2: () -> T)
    ensures GetOrElse(Some(v), s1) == GetOrElse(Some(v), s2) == v
  {
  }

  /** The two Option extensions agree wherever both return: whatever
      `GetOrElseThrow` returns is what `GetOrElse` returns, for any supplier. */
  lemma GetOrElseThrowAgreesWithGetOrElse<T>(o: Option<T>, s: () -> T, es: () -> Exn)
    ensures GetOrElseThrow(o, es).Returns? ==> GetOrElseThrow(o, es).value == GetOrElse(o, s)
  {
  }

  /** Reading the outcome of `GetOrElseThrow` back as an option recovers the
      option exactly: `Some(v)` from a return of `v`, `None` from a throw. */
  lemma GetOrElseThrowRoundTrip<T>(o: Option<T>, es: () -> Exn)
    ensures (match GetOrElseThrow(o, es)
             case Returns(v) => Some(v)
             case Throws(_) => None) == o
  {
  }

  // ---------------------------------------------------------------------------
  // Then

  /** A null transformation fails at once, whatever `self` would produce. */
  lemma ThenNullIgnoresSelf<T, U>(t1: Try<T>, t2: Try<T>)
    ensures Then<T, U>(t1, Null) == Then<T, U>(t2, Null)
    ensures Then<T, U>(t1, Null).Throws?
  {
  }

  /** A failed predecessor propagates its exception unchanged, and the
      transformation does not matter: any two give the same result. */
  lemma ThenPropagatesFailure<T, U>(t: Try<T>, f: T -> Outcome<U>, g: T -> Outcome<U>)
    requires t.run().Failure?
    ensures Then(t, NonNull(f)).Returns? && Then(t, NonNull(g)).Returns?
    ensures Then(t, NonNull(f)).value.run() == Then(t, NonNull(g)).value.run() == Failure(t.run().exception)
  {
  }

  /** The chained run depends on the predecessor only through the result of
      running it: two predecessors whose runs agree give chained `Try`s whose
      runs agree. */
  lemma ThenDependsOnlyOnPredecessorResult<T, U>(t1: Try<T>, t2: Try<T>, f: T -> Outcome<U>)
    requires t1.run() == t2.run()
    ensures Then(t1, NonNull(f)).value.run() == Then(t2, NonNull(f)).value.run()
  {
  }

  /** Right identity: chaining a transformation that returns its argument
      leaves the result of a run unchanged. */
  lemma ThenIdentity<T>(t: Try<T>)
    ensures Then(t, NonNull((x: T) => Returns(x))).value.run() == t.run()
  {
  }

  /** The example of a three-link chain: 10, then +1, then a throw. The
      middle link yields 11 and the last yields the thrown exception. */
  lemma ThenExample()
    ensures
      var boom := Thrown("Exception", "boom");
      var t := Try(() => Success(10));
      var t2 := Then(t, NonNull((x: int) => Returns(x + 1))).value;
      var t3 := Then<int, int>(t2, NonNull((x: int) => Throws(boom))).value;
      t2.run() == Success(11) && t3.run() == Failure(boom)
  {
  }
}
