/** Vocabulary shared by both generations of the store. */
module MviCommon {

  /** Kotlin's nullable values: `None` stands for `null`. */
  datatype Option<+T> = None | Some(value: T)

  /**
   * The receiver of every builder callback (`IntentContext`): the state
   * snapshot the callback sees and the result being processed, which is
   * absent when the intent has no trigger.
   */
  datatype IntentContext<S, R> = IntentContext(state: S, result: Option<R>) {

    /** `resultNonNull()`. The `!!` crash on an absent result is a precondition here. */
    function ResultNonNull(): (r: R)
      requires result.Some?
      ensures result == Some(r)
    {
      result.value
    }
  }

  /** A launched coroutine job. `Finished` means it has completed and its completion handler has run. */
  datatype Status = Active | Cancelled | Finished

  /** No two neighbouring values of a sequence of published states are equal. */
  ghost predicate NoStutter<S>(published: seq<S>)
  {
    forall k :: 0 < k < |published| ==> published[k - 1] != published[k]
  }

  /** The values a state flow has taken so far end in its current value. */
  predicate EndsIn<S(==)>(published: seq<S>, current: S)
  {
    |published| > 0 && published[|published| - 1] == current
  }

  /**
   * The distinct values a state flow takes when its value changes from
   * `current` to `next`: a state flow does not re-emit a value equal to the
   * current one. `published` is what it took so far, ending in `current`.
   */
  function Publish<S(==)>(published: seq<S>, current: S, next: S): (r: seq<S>)
    requires EndsIn(published, current)
    ensures EndsIn(r, next)
    ensures |published| <= |r| <= |published| + 1 && r[..|published|] == published
    ensures NoStutter(published) ==> NoStutter(r)
    ensures |r| == |published| <==> next == current
  {
    if next == current then published else published + [next]
  }

  /**
   * The results a job's `collect` sees: every value of the trigger's flow,
   * or the single `null` of `flowOf(null)` when the trigger returns no flow.
   */
  function Passes<R>(flow: Option<seq<R>>): (p: seq<Option<R>>)
    ensures flow == None ==> p == [None]
    ensures flow.Some? ==> |p| == |flow.value| && forall j :: 0 <= j < |p| ==> p[j] == Some(flow.value[j])
  {
    match flow
    case None => [None]
    case Some(rs) => seq(|rs|, j requires 0 <= j < |rs| => Some(rs[j]))
  }

  /** `sideEffect?.invoke(result, state)`: what an optional side-effect records, nothing when it is absent. */
  function SideEffectRun<S, R, E>(sideEffect: Option<(Option<R>, S) -> seq<E>>, r: Option<R>, state: S): (out: seq<E>)
    ensures sideEffect.None? ==> out == []
    ensures sideEffect.Some? ==> out == sideEffect.value(r, state)
  {
    match sideEffect
    case None => []
    case Some(f) => f(r, state)
  }

  /** An integer result, read as `0` when absent (the scenarios read only present ones). */
  function IntResult(r: Option<int>): (v: int)
    ensures r.Some? ==> v == r.value
  {
    match r
    case None => 0
    case Some(x) => x
  }

  // ---------------------------------------------------------------------------
  // Proof helpers: sequence identities the solver does not find on its own.
  // They state nothing about the store.

  /** Concatenation regroups freely. */
  lemma AppendAssociates<E>(a: seq<E>, b: seq<E>, c: seq<E>)
    ensures (a + b) + c == a + (b + c)
  {
  }

  /** Dropping the last element of `[a] + xs` drops the last element of `xs`. */
  lemma ConsPrefix<T>(a: T, xs: seq<T>)
    requires |xs| > 0
    ensures ([a] + xs)[..|xs|] == [a] + xs[..|xs| - 1]
    ensures ([a] + xs)[|xs|] == xs[|xs| - 1]
  {
  }
}
