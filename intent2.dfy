/**
 * The intent value of the earlier store generation (`Intent2`) and its
 * builder. An `Intent2` doubles as the element of the store's intent stream:
 * it then carries the state and the result it is delivered with, and a
 * `paused` mark.
 */
module Intent2Algebra {
  import opened MviCommon

  /**
   * `Intent2`: trigger, reducer and optional side-effect, the carried state
   * and result (absent for a freshly built intent), and three flags.
   */
  datatype Intent2<!S, !R, E> = Intent2(
    onTrigger: S -> Option<seq<R>>,
    reducer: (Option<R>, S) -> S,
    sideEffect: Option<(Option<R>, S) -> seq<E>>,
    state: Option<S>,
    result: Option<R>,
    isCancellableFlowTrigger: bool,
    runSideEffectAfterCancel: bool,
    paused: bool)

  /**
   * The five fields an `IntentBuilder` holds. A builder block
   * (`IntentBuilder.() -> Unit`) is modelled by its net effect on them.
   */
  datatype BuilderFields<!S, !R, E> = BuilderFields(
    onTrigger: S -> Option<seq<R>>,
    reducer: (Option<R>, S) -> S,
    sideEffect: Option<(Option<R>, S) -> seq<E>>,
    isCancellableFlowTrigger: bool,
    runSideEffectAfterCancel: bool)

  /** The defaults of `IntentBuilder`'s constructor: no trigger, identity reducer, no side-effect, both flags off. */
  function DefaultFields<S(!new), R(!new), E>(): (b: BuilderFields<S, R, E>)
    ensures forall s :: b.onTrigger(s) == None
    ensures forall r, s :: b.reducer(r, s) == s
    ensures b.sideEffect == None && !b.isCancellableFlowTrigger && !b.runSideEffectAfterCancel
  {
    BuilderFields(s => None, (r, s) => s, None, false, false)
  }

  /**
   * `Intent2(state = …, result = …)` with every other argument at its
   * default: the element the store seeds its stream with.
   */
  function Seed<S(!new), R(!new), E>(state: Option<S>, result: Option<R>): (i: Intent2<S, R, E>)
    ensures i.state == state && i.result == result
    ensures forall s :: i.onTrigger(s) == None
    ensures forall r, s :: i.reducer(r, s) == s
    ensures i.sideEffect == None && !i.isCancellableFlowTrigger && !i.runSideEffectAfterCancel && !i.paused
  {
    Intent2(s => None, (r, s) => s, None, state, result, false, false, false)
  }

  /** `onTrigger(isCancellableFlowTrigger, runSideEffectAfterCancel) { func }`: records both flags and the trigger. */
  function WithTrigger<S(!new), R(!new), E>(
    b: BuilderFields<S, R, E>, isCancellableFlowTrigger: bool, runSideEffectAfterCancel: bool,
    func: IntentContext<S, R> -> Option<seq<R>>): (c: BuilderFields<S, R, E>)
    ensures forall s :: c.onTrigger(s) == func(IntentContext(s, None))
    ensures c.isCancellableFlowTrigger == isCancellableFlowTrigger
    ensures c.runSideEffectAfterCancel == runSideEffectAfterCancel
    ensures c.reducer == b.reducer && c.sideEffect == b.sideEffect
  {
    b.(isCancellableFlowTrigger := isCancellableFlowTrigger,
       runSideEffectAfterCancel := runSideEffectAfterCancel,
       onTrigger := s => func(IntentContext(s, None)))
  }

  /** `reducer { func }`. */
  function WithReducer<S(!new), R(!new), E>(b: BuilderFields<S, R, E>, func: IntentContext<S, R> -> S): (c: BuilderFields<S, R, E>)
    ensures forall r, s :: c.reducer(r, s) == func(IntentContext(s, r))
    ensures c.onTrigger == b.onTrigger && c.sideEffect == b.sideEffect
    ensures c.isCancellableFlowTrigger == b.isCancellableFlowTrigger && c.runSideEffectAfterCancel == b.runSideEffectAfterCancel
  {
    b.(reducer := (r, s) => func(IntentContext(s, r)))
  }

  /** `sideEffect { func }`. */
  function WithSideEffect<S(!new), R(!new), E>(b: BuilderFields<S, R, E>, func: IntentContext<S, R> -> seq<E>): (c: BuilderFields<S, R, E>)
    ensures c.sideEffect.Some?
    ensures forall r, s :: c.sideEffect.value(r, s) == func(IntentContext(s, r))
    ensures c.onTrigger == b.onTrigger && c.reducer == b.reducer
    ensures c.isCancellableFlowTrigger == b.isCancellableFlowTrigger && c.runSideEffectAfterCancel == b.runSideEffectAfterCancel
  {
    b.(sideEffect := Some((r, s) => func(IntentContext(s, r))))
  }

  /** `build()`: the builder's fields, no state, no result, not paused. */
  function Build<S, R, E>(b: BuilderFields<S, R, E>): (i: Intent2<S, R, E>)
    ensures i.onTrigger == b.onTrigger && i.reducer == b.reducer && i.sideEffect == b.sideEffect
    ensures i.isCancellableFlowTrigger == b.isCancellableFlowTrigger
    ensures i.runSideEffectAfterCancel == b.runSideEffectAfterCancel
    ensures i.state == None && i.result == None && !i.paused
  {
    Intent2(b.onTrigger, b.reducer, b.sideEffect, None, None, b.isCancellableFlowTrigger, b.runSideEffectAfterCancel, false)
  }

  /** The builder `rebuild` starts from: the intent's trigger, reducer, side-effect and two flags. */
  function FieldsOf<S, R, E>(i: Intent2<S, R, E>): (b: BuilderFields<S, R, E>)
    ensures Build(b) == i.(state := None, result := None, paused := false)
  {
    BuilderFields(i.onTrigger, i.reducer, i.sideEffect, i.isCancellableFlowTrigger, i.runSideEffectAfterCancel)
  }

  /** `intent { block }` on the store: a fresh builder, the block, `build()`. */
  function IntentOf<S(!new), R(!new), E>(block: BuilderFields<S, R, E> -> BuilderFields<S, R, E>): (i: Intent2<S, R, E>)
    ensures FieldsOf(i) == block(DefaultFields()) && i.state == None && i.result == None && !i.paused
  {
    Build(block(DefaultFields()))
  }

  /** `rebuild { block }`: a builder holding the intent's fields, the block (which also receives the intent), `build()`. */
  function Rebuild<S, R, E>(i: Intent2<S, R, E>, block: (Intent2<S, R, E>, BuilderFields<S, R, E>) -> BuilderFields<S, R, E>): (j: Intent2<S, R, E>)
    ensures FieldsOf(j) == block(i, FieldsOf(i)) && j.state == None && j.result == None && !j.paused
  {
    Build(block(i, FieldsOf(i)))
  }

  /** A `rebuild` block that does nothing. */
  function NoChange<S, R, E>(i: Intent2<S, R, E>, b: BuilderFields<S, R, E>): BuilderFields<S, R, E>
  {
    b
  }

  /** The mutable builder, proved to follow the field functions above. */
  class IntentBuilder<S(!new), R(!new), E> {
    var onTrigger: S -> Option<seq<R>>
    var reducer: (Option<R>, S) -> S
    var sideEffect: Option<(Option<R>, S) -> seq<E>>
    var isCancellableFlowTrigger: bool
    var runSideEffectAfterCancel: bool

    function Fields(): BuilderFields<S, R, E>
      reads this
    {
      BuilderFields(onTrigger, reducer, sideEffect, isCancellableFlowTrigger, runSideEffectAfterCancel)
    }

    /** `IntentBuilder()`. */
    constructor ()
      ensures Fields() == DefaultFields()
    {
      var d := DefaultFields<S, R, E>();
      onTrigger, reducer, sideEffect := d.onTrigger, d.reducer, d.sideEffect;
      isCancellableFlowTrigger, runSideEffectAfterCancel := false, false;
    }

    /** `IntentBuilder(onTrigger = …, …)`, as `rebuild` calls it. */
    constructor Of(b: BuilderFields<S, R, E>)
      ensures Fields() == b
    {
      onTrigger, reducer, sideEffect := b.onTrigger, b.reducer, b.sideEffect;
      isCancellableFlowTrigger, runSideEffectAfterCancel := b.isCancellableFlowTrigger, b.runSideEffectAfterCancel;
    }

    method OnTrigger(isCancellable: bool, runAfterCancel: bool, func: IntentContext<S, R> -> Option<seq<R>>)
      modifies this
      ensures Fields() == WithTrigger(old(Fields()), isCancellable, runAfterCancel, func)
    {
      isCancellableFlowTrigger := isCancellable;
      runSideEffectAfterCancel := runAfterCancel;
      onTrigger := s => func(IntentContext(s, None));
    }

    method Reducer(func: IntentContext<S, R> -> S)
      modifies this
      ensures Fields() == WithReducer(old(Fields()), func)
    {
      reducer := (r, s) => func(IntentContext(s, r));
    }

    method SideEffect(func: IntentContext<S, R> -> seq<E>)
      modifies this
      ensures Fields() == WithSideEffect(old(Fields()), func)
    {
      sideEffect := Some((r, s) => func(IntentContext(s, r)));
    }

    /** `build()`. */
    method Build() returns (i: Intent2<S, R, E>)
      ensures i.onTrigger == onTrigger && i.reducer == reducer && i.sideEffect == sideEffect
      ensures i.isCancellableFlowTrigger == isCancellableFlowTrigger
      ensures i.runSideEffectAfterCancel == runSideEffectAfterCancel
      ensures i.state == None && i.result == None && !i.paused
    {
      i := Intent2(onTrigger, reducer, sideEffect, None, None, isCancellableFlowTrigger, runSideEffectAfterCancel, false);
    }
  }

  /**
   * `rebuild` with a no-op block keeps the trigger, reducer, side-effect and
   * flags, but drops the carried state and result and clears `paused`.
   */
  lemma RebuildNoOp<S, R, E>(i: Intent2<S, R, E>)
    ensures Rebuild(i, NoChange) == i.(state := None, result := None, paused := false)
  {
  }

  /** A freshly built intent is unchanged by a no-op `rebuild`. */
  lemma RebuildBuiltIsIdentity<S, R, E>(b: BuilderFields<S, R, E>)
    ensures Rebuild(Build(b), NoChange) == Build(b)
  {
  }

  /** Only `onTrigger` sets the two flags: a block that sets only the reducer and side-effect leaves them off. */
  lemma FlagsOnlyFromTrigger<S(!new), R(!new), E>(red: IntentContext<S, R> -> S, eff: IntentContext<S, R> -> seq<E>)
    ensures var i := IntentOf((b: BuilderFields<S, R, E>) => WithSideEffect(WithReducer(b, red), eff));
      && !i.isCancellableFlowTrigger && !i.runSideEffectAfterCancel && !i.paused
      && (forall s :: i.onTrigger(s) == None)
      && (forall r, s :: i.reducer(r, s) == red(IntentContext(s, r)))
  {
  }
}
