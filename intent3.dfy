/**
 * The intent value of the current store generation (`Intent3`), its builder,
 * and the combinators `rebuild`, `map` and `composite`. Everything here is
 * composition of function values.
 */
module Intent3Algebra {
  import opened MviCommon

  /**
   * An intent over state `S` with results `R`. The trigger maps the state at
   * job start to a finite flow of results, or to `None` for a `null` flow.
   * A side-effect's observable output is the sequence of `E` it produces.
   */
  datatype Intent3<!S, !R, E> = Intent3(
    onTrigger: S -> Option<seq<R>>,
    cancelTrigger: Option<(Option<R>, S) -> bool>,
    reducer: (Option<R>, S) -> S,
    sideEffect: Option<(Option<R>, S) -> seq<E>>,
    runSideEffectAfterCancel: bool)

  /** The defaults of `Intent3`'s constructor (and of `IntentBuilder`'s). */
  function Default<S(!new), R(!new), E>(): (i: Intent3<S, R, E>)
    ensures forall s :: i.onTrigger(s) == None
    ensures i.cancelTrigger == None && i.sideEffect == None
    ensures forall r, s :: i.reducer(r, s) == s
    ensures !i.runSideEffectAfterCancel
  {
    Intent3(s => None, None, (r, s) => s, None, false)
  }

  /** `onTrigger { func }`: the trigger runs `func` with the state and no result. */
  function WithTrigger<S(!new), R(!new), E>(i: Intent3<S, R, E>, func: IntentContext<S, R> -> Option<seq<R>>): (j: Intent3<S, R, E>)
    ensures forall s :: j.onTrigger(s) == func(IntentContext(s, None))
    ensures j.cancelTrigger == i.cancelTrigger && j.reducer == i.reducer
    ensures j.sideEffect == i.sideEffect && j.runSideEffectAfterCancel == i.runSideEffectAfterCancel
  {
    i.(onTrigger := s => func(IntentContext(s, None)))
  }

  /** `cancelTrigger(flag) { func }`: records the flag and the predicate. */
  function WithCancelTrigger<S(!new), R(!new), E>(i: Intent3<S, R, E>, runSideEffectAfterCancel: bool, func: IntentContext<S, R> -> bool): (j: Intent3<S, R, E>)
    ensures j.cancelTrigger.Some?
    ensures forall r, s :: j.cancelTrigger.value(r, s) == func(IntentContext(s, r))
    ensures j.runSideEffectAfterCancel == runSideEffectAfterCancel
    ensures j.onTrigger == i.onTrigger && j.reducer == i.reducer && j.sideEffect == i.sideEffect
  {
    i.(runSideEffectAfterCancel := runSideEffectAfterCancel,
       cancelTrigger := Some((r, s) => func(IntentContext(s, r))))
  }

  /** `reducer { func }`. */
  function WithReducer<S(!new), R(!new), E>(i: Intent3<S, R, E>, func: IntentContext<S, R> -> S): (j: Intent3<S, R, E>)
    ensures forall r, s :: j.reducer(r, s) == func(IntentContext(s, r))
    ensures j.onTrigger == i.onTrigger && j.cancelTrigger == i.cancelTrigger
    ensures j.sideEffect == i.sideEffect && j.runSideEffectAfterCancel == i.runSideEffectAfterCancel
  {
    i.(reducer := (r, s) => func(IntentContext(s, r)))
  }

  /** `sideEffect { func }`. */
  function WithSideEffect<S(!new), R(!new), E>(i: Intent3<S, R, E>, func: IntentContext<S, R> -> seq<E>): (j: Intent3<S, R, E>)
    ensures j.sideEffect.Some?
    ensures forall r, s :: j.sideEffect.value(r, s) == func(IntentContext(s, r))
    ensures j.onTrigger == i.onTrigger && j.cancelTrigger == i.cancelTrigger
    ensures j.reducer == i.reducer && j.runSideEffectAfterCancel == i.runSideEffectAfterCancel
  {
    i.(sideEffect := Some((r, s) => func(IntentContext(s, r))))
  }

  /**
   * The mutable builder. Its fields are exactly those of `Intent3`; a builder
   * block (`IntentBuilder.() -> Unit`) is modelled by its net effect on them,
   * a function `Intent3 -> Intent3`.
   */
  class IntentBuilder<S(!new), R(!new), E> {
    var onTrigger: S -> Option<seq<R>>
    var cancelTrigger: Option<(Option<R>, S) -> bool>
    var reducer: (Option<R>, S) -> S
    var sideEffect: Option<(Option<R>, S) -> seq<E>>
    var runSideEffectAfterCancel: bool

    /** The intent the builder would build now. */
    function Fields(): Intent3<S, R, E>
      reads this
    {
      Intent3(onTrigger, cancelTrigger, reducer, sideEffect, runSideEffectAfterCancel)
    }

    /** `IntentBuilder()`: every field at its default. */
    constructor ()
      ensures Fields() == Default()
    {
      var d := Default<S, R, E>();
      onTrigger, cancelTrigger, reducer := d.onTrigger, d.cancelTrigger, d.reducer;
      sideEffect, runSideEffectAfterCancel := d.sideEffect, d.runSideEffectAfterCancel;
    }

    /** `IntentBuilder(onTrigger = …, …)`, as `rebuild` calls it. */
    constructor Of(i: Intent3<S, R, E>)
      ensures Fields() == i
    {
      onTrigger, cancelTrigger, reducer := i.onTrigger, i.cancelTrigger, i.reducer;
      sideEffect, runSideEffectAfterCancel := i.sideEffect, i.runSideEffectAfterCancel;
    }

    method OnTrigger(func: IntentContext<S, R> -> Option<seq<R>>)
      modifies this
      ensures Fields() == WithTrigger(old(Fields()), func)
    {
      onTrigger := s => func(IntentContext(s, None));
    }

    method CancelTrigger(flag: bool, func: IntentContext<S, R> -> bool)
      modifies this
      ensures Fields() == WithCancelTrigger(old(Fields()), flag, func)
    {
      runSideEffectAfterCancel := flag;
      cancelTrigger := Some((r, s) => func(IntentContext(s, r)));
    }

    method Reducer(func: IntentContext<S, R> -> S)
      modifies this
      ensures Fields() == WithReducer(old(Fields()), func)
    {
      reducer := (r, s) => func(IntentContext(s, r));
    }

    method SideEffect(func: IntentContext<S, R> -> seq<E>)
      modifies this
      ensures Fields() == WithSideEffect(old(Fields()), func)
    {
      sideEffect := Some((r, s) => func(IntentContext(s, r)));
    }

    /** `build()`: copies every field into the intent, unchanged. */
    method Build() returns (i: Intent3<S, R, E>)
      ensures i.onTrigger == onTrigger && i.cancelTrigger == cancelTrigger && i.reducer == reducer
      ensures i.sideEffect == sideEffect && i.runSideEffectAfterCancel == runSideEffectAfterCancel
    {
      i := Intent3(onTrigger, cancelTrigger, reducer, sideEffect, runSideEffectAfterCancel);
    }
  }

  /** The top-level `intent { block }`: a fresh builder, the block, `build()`. */
  function IntentOf<S(!new), R(!new), E>(block: Intent3<S, R, E> -> Intent3<S, R, E>): Intent3<S, R, E>
  {
    block(Default())
  }

  /**
   * `rebuild { block }`: a builder holding the intent's own fields, the block
   * (which also receives the original intent), then `build()`.
   */
  function Rebuild<S, R, E>(i: Intent3<S, R, E>, block: (Intent3<S, R, E>, Intent3<S, R, E>) -> Intent3<S, R, E>): Intent3<S, R, E>
  {
    block(i, i)
  }

  /** The `setUp = { }` default of `map` and `composite`, and a no-op `rebuild` block. */
  function NoSetUp<I, O>(inner: I, builder: O): O
  {
    builder
  }

  /**
   * The intent `map` builds before its `setUp` block runs: each callback
   * projects the outer state to the inner one with `stateMapper`, and does
   * nothing when the projection is `null`.
   */
  function MapBase<O(!new), I, R(!new), E>(
    inner: Intent3<I, R, E>,
    stateReducer: (IntentContext<O, R>, (Option<R>, I) -> I) -> O,
    stateMapper: O -> Option<I>): (m: Intent3<O, R, E>)
    ensures forall o :: stateMapper(o) == None ==> m.onTrigger(o) == None
    ensures forall o :: stateMapper(o).Some? ==> m.onTrigger(o) == inner.onTrigger(stateMapper(o).value)
    ensures m.cancelTrigger.Some? && m.sideEffect.Some?
    ensures forall r, o :: stateMapper(o) == None ==> !m.cancelTrigger.value(r, o) && m.sideEffect.value(r, o) == []
    ensures forall r, o :: stateMapper(o).Some? ==>
      m.cancelTrigger.value(r, o) == (inner.cancelTrigger.Some? && inner.cancelTrigger.value(r, stateMapper(o).value))
    ensures forall r, o :: stateMapper(o).Some? ==>
      m.sideEffect.value(r, o) == (if inner.sideEffect.Some? then inner.sideEffect.value(r, stateMapper(o).value) else [])
    ensures forall r, o :: m.reducer(r, o) == stateReducer(IntentContext(o, r), inner.reducer)
    ensures m.runSideEffectAfterCancel == inner.runSideEffectAfterCancel
  {
    var b0 := Default<O, R, E>();
    var b1 := WithTrigger(b0, (c: IntentContext<O, R>) =>
      match stateMapper(c.state)
      case None => None
      case Some(x) => inner.onTrigger(x));
    var b2 := WithCancelTrigger(b1, inner.runSideEffectAfterCancel, (c: IntentContext<O, R>) =>
      match inner.cancelTrigger
      case None => false
      case Some(p) => (match stateMapper(c.state) case None => false case Some(x) => p(c.result, x)));
    var b3 := WithReducer(b2, (c: IntentContext<O, R>) => stateReducer(c, inner.reducer));
    WithSideEffect(b3, (c: IntentContext<O, R>) =>
      match inner.sideEffect
      case None => []
      case Some(f) => (match stateMapper(c.state) case None => [] case Some(x) => f(c.result, x)))
  }

  /** `map(stateReducer, stateMapper, setUp)`. */
  function Map<O(!new), I, R(!new), E>(
    inner: Intent3<I, R, E>,
    stateReducer: (IntentContext<O, R>, (Option<R>, I) -> I) -> O,
    stateMapper: O -> Option<I>,
    setUp: (Intent3<I, R, E>, Intent3<O, R, E>) -> Intent3<O, R, E>): Intent3<O, R, E>
  {
    setUp(inner, MapBase(inner, stateReducer, stateMapper))
  }

  /** `composite(setUp)`: `map` with the identity projection, reducing with the inner reducer directly. */
  function Composite<S(!new), R(!new), E>(inner: Intent3<S, R, E>, setUp: (Intent3<S, R, E>, Intent3<S, R, E>) -> Intent3<S, R, E>): Intent3<S, R, E>
  {
    Map(inner, (c: IntentContext<S, R>, red: (Option<R>, S) -> S) => red(c.result, c.state), (s: S) => Some(s), setUp)
  }

  /** `build()` on a fresh builder after a block gives the block's intent: unset fields keep their defaults. */
  lemma BuildKeepsDefaults<S(!new), R(!new), E>(func: IntentContext<S, R> -> S)
    ensures var i := IntentOf((b: Intent3<S, R, E>) => WithReducer(b, func));
      && (forall s :: i.onTrigger(s) == None)
      && i.cancelTrigger == None && i.sideEffect == None && !i.runSideEffectAfterCancel
      && (forall r, s :: i.reducer(r, s) == func(IntentContext(s, r)))
  {
  }

  /** `rebuild` with a no-op block yields the original intent. */
  lemma RebuildNoOp<S, R, E>(i: Intent3<S, R, E>)
    ensures Rebuild(i, NoSetUp) == i
  {
  }

  /** `map` without a `setUp` block is the base intent; its flag is the inner one's. */
  lemma MapWithoutSetUp<O(!new), I, R(!new), E>(
    inner: Intent3<I, R, E>,
    stateReducer: (IntentContext<O, R>, (Option<R>, I) -> I) -> O,
    stateMapper: O -> Option<I>)
    ensures Map(inner, stateReducer, stateMapper, NoSetUp) == MapBase(inner, stateReducer, stateMapper)
    ensures Map(inner, stateReducer, stateMapper, NoSetUp).runSideEffectAfterCancel == inner.runSideEffectAfterCancel
  {
  }

  /**
   * `composite()` behaves as the inner intent: same trigger, same reducer,
   * the same cancel decision and the same side-effect output, on every state.
   */
  lemma CompositeActsAsInner<S(!new), R(!new), E>(inner: Intent3<S, R, E>)
    ensures var c := Composite(inner, NoSetUp);
      && (forall s :: c.onTrigger(s) == inner.onTrigger(s))
      && (forall r, s :: c.reducer(r, s) == inner.reducer(r, s))
      && c.cancelTrigger.Some? && c.sideEffect.Some?
      && (forall r, s :: c.cancelTrigger.value(r, s) == (inner.cancelTrigger.Some? && inner.cancelTrigger.value(r, s)))
      && (forall r, s :: c.sideEffect.value(r, s) == (if inner.sideEffect.Some? then inner.sideEffect.value(r, s) else []))
      && c.runSideEffectAfterCancel == inner.runSideEffectAfterCancel
  {
    var sr := (c: IntentContext<S, R>, red: (Option<R>, S) -> S) => red(c.result, c.state);
    var sm := (s: S) => Some(s);
    var m := MapBase(inner, sr, sm);
    assert Composite(inner, NoSetUp) == m;
    assert forall s :: sm(s).Some? && sm(s).value == s;
  }
}
