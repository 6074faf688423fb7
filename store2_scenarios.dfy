/**
 * Concrete runs of the earlier store. The script is that of the common
 * module's `Store3` test (two intents with the empty id, each replacing the
 * state by its one result), replayed here on `Store2`, with each job's body
 * run as soon as `intent` returns. When the collector `init` launches
 * subscribes before the seed is emitted, the run gives `0, 1, 2`; when it is
 * only queued, the seed is lost and the run gives `0, 2`.
 */
module Store2Scenarios {
  import opened MviCommon
  import opened Intent2Algebra
  import opened Store2Model

  /** The builder after `onTrigger { flowOf(x) }; reducer { resultNonNull() }; sideEffect(func)`, `func` recording the state. */
  function ReplaceWith(x: int): (b: BuilderFields<int, int, int>)
    ensures forall st :: b.onTrigger(st) == Some([x])
    ensures forall r, st :: b.reducer(r, st) == IntResult(r)
    ensures b.sideEffect.Some? && forall r, st :: b.sideEffect.value(r, st) == [st]
    ensures !b.isCancellableFlowTrigger && !b.runSideEffectAfterCancel
  {
    BuilderFields(st => Some([x]), (r, st) => IntResult(r), Some((r, st) => [st]), false, false)
  }

  // The collector subscribes before the seed is emitted.

  /** `init` on a fresh store publishes `0` and nothing else. */
  lemma InitPublishesZero()
    ensures var s := InitStep(Initial<int, int, int>(0), true);
      && Valid(s) && s.acc.Some? && s.state == 0 && s.published == [0] && s.effects == []
      && s.tasks == [] && s.jobs == map[]
  {
    InitialIsValid<int, int, int>(0);
    InitPreservesValid(Initial<int, int, int>(0), true);
  }

  /** After `init`, the first intent with the empty id reduces `1`. */
  lemma FirstIntentReducesOne(s: Snapshot<int, int, int>)
    requires Valid(s) && s.acc.Some? && s.state == 0 && s.published == [0] && s.effects == []
    requires s.tasks == [] && s.jobs == map[]
    ensures var s1 := LaunchAndStart(s, "", ReplaceWith(1));
      && CanEmit(s1, 0)
      && var s2 := EmitStep(s1, 0);
      && Valid(s2) && s2.acc.Some? && s2.state == 1 && s2.published == [0, 1] && s2.effects == [1]
      && |s2.tasks| == 1 && s2.jobs == map[]
  {
    LaunchAndStartPreservesValid(s, "", ReplaceWith(1));
    var s1 := LaunchAndStart(s, "", ReplaceWith(1));
    assert s1.tasks[0].pending == [Some(1)];
    EmitPreservesValid(s1, 0);
    EveryResultReduced(s1, 0);
  }

  /** The second intent with the empty id runs beside the first and reduces `2`: `0, 1, 2` in all. */
  lemma SecondIntentReducesTwo(s: Snapshot<int, int, int>)
    requires Valid(s) && s.acc.Some? && s.state == 1 && s.published == [0, 1] && s.effects == [1]
    requires |s.tasks| == 1 && s.jobs == map[]
    ensures var s1 := LaunchAndStart(s, "", ReplaceWith(2));
      && CanEmit(s1, 1)
      && var s2 := EmitStep(s1, 1);
      && s2.published == [0, 1, 2] && s2.effects == [1, 2] && s2.jobs == map[]
  {
    LaunchAndStartPreservesValid(s, "", ReplaceWith(2));
    var s1 := LaunchAndStart(s, "", ReplaceWith(2));
    assert s1.tasks[1].pending == [Some(2)];
    EveryResultReduced(s1, 1);
  }

  // The collector is only queued when the seed is emitted.

  /** `init` with a queued collector loses the seed; once the collector subscribes, nothing has been folded. */
  lemma QueuedInitLeavesNoAccumulator()
    ensures var s := SubscribeStep(InitStep(Initial<int, int, int>(0), false));
      && Valid(s) && s.acc.None? && s.collector == Subscribed && s.state == 0 && s.published == [0]
      && s.effects == [] && s.tasks == [] && s.jobs == map[]
  {
    InitialIsValid<int, int, int>(0);
    InitPreservesValid(Initial<int, int, int>(0), false);
    QueuedInitLosesSeed(Initial<int, int, int>(0));
    SubscribePreservesValid(InitStep(Initial<int, int, int>(0), false));
  }

  /** The first intent's result then passes through unreduced: the state stays `0`, and the side-effect records `0`. */
  lemma FirstIntentAfterLostSeedKeepsZero(s: Snapshot<int, int, int>)
    requires Valid(s) && s.acc.None? && s.collector == Subscribed && s.state == 0 && s.published == [0]
    requires s.effects == [] && s.tasks == [] && s.jobs == map[]
    ensures var s1 := LaunchAndStart(s, "", ReplaceWith(1));
      && CanEmit(s1, 0)
      && var s2 := EmitStep(s1, 0);
      && Valid(s2) && s2.acc.Some? && s2.state == 0 && s2.published == [0] && s2.effects == [0]
      && |s2.tasks| == 1 && s2.jobs == map[]
  {
    LaunchAndStartPreservesValid(s, "", ReplaceWith(1));
    var s1 := LaunchAndStart(s, "", ReplaceWith(1));
    assert s1.tasks[0].pending == [Some(1)];
    EmitPreservesValid(s1, 0);
    FirstResultAfterLostSeedIsNotReduced(s1, 0);
  }

  /** The second intent's result is reduced: the run publishes `0, 2`, and the side-effects record `0, 2`. */
  lemma SecondIntentAfterLostSeedReducesTwo(s: Snapshot<int, int, int>)
    requires Valid(s) && s.acc.Some? && s.state == 0 && s.published == [0] && s.effects == [0]
    requires |s.tasks| == 1 && s.jobs == map[]
    ensures var s1 := LaunchAndStart(s, "", ReplaceWith(2));
      && CanEmit(s1, 1)
      && var s2 := EmitStep(s1, 1);
      && s2.published == [0, 2] && s2.effects == [0, 2] && s2.jobs == map[]
  {
    LaunchAndStartPreservesValid(s, "", ReplaceWith(2));
    var s1 := LaunchAndStart(s, "", ReplaceWith(2));
    assert s1.tasks[1].pending == [Some(2)];
    EveryResultReduced(s1, 1);
  }
}
