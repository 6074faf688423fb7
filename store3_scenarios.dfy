/**
 * Concrete runs of the store, one per behaviour the library's own tests pin
 * down. Each lemma starts from a fresh store, applies explicit job events
 * (the steps `Store3Runtime.Store3` is proved to perform) and states the
 * values the state takes and what the side-effects produce. Unless a lemma
 * says otherwise, every job's body starts as soon as it is submitted
 * (`RunAndStart`), the order a test dispatcher that runs each job when it is
 * scheduled gives. Side-effect
 * output stands for the values the tests record; `toString()` of an `Int`
 * is modelled by the `Int` itself.
 */
module Store3Scenarios {
  import opened MviCommon
  import opened Intent3Algebra
  import opened Store3Model

  /** The result as a one-element list, or nothing for `null`. */
  function Payload(r: Option<int>): (p: seq<int>)
    ensures r.Some? ==> p == [r.value]
    ensures r.None? ==> p == []
  {
    match r
    case None => []
    case Some(v) => [v]
  }

  /** Results `1, 2, 3, 4`, cancelled (with the side-effect kept) at `2`, each replacing the state. */
  ghost predicate CancelsOnTwo(i: Intent3<int, int, int>)
  {
    && (forall st :: i.onTrigger(st) == Some([1, 2, 3, 4]))
    && i.cancelTrigger.Some? && i.runSideEffectAfterCancel
    && (forall r, st :: i.cancelTrigger.value(r, st) == (r == Some(2)))
    && (forall r, st :: i.reducer(r, st) == IntResult(r))
    && (forall r, st :: SideEffectOutput(i, r, st) == if r == Some(2) then [2] else [])
  }

  /** Results `20, 30`, each added to the state plus one, never cancelled, recording the new state. */
  ghost predicate AddsPlusOne(c: Intent3<int, int, int>)
  {
    && (forall st :: c.onTrigger(st) == Some([20, 30]))
    && c.cancelTrigger.Some? && (forall r, st :: !c.cancelTrigger.value(r, st))
    && (forall r, st :: c.reducer(r, st) == st + IntResult(r) + 1)
    && (forall r, st :: SideEffectOutput(c, r, st) == [st])
  }

  /** What `intent { onTrigger { flowOf(1, 2) }; reducer { state + resultNonNull() } }` builds from the default intent. */
  function AppendIntent(): (i: Intent3<seq<int>, int, int>)
    ensures forall st :: i.onTrigger(st) == Some([1, 2])
    ensures i.cancelTrigger == None && i.sideEffect == None
    ensures forall r, st :: i.reducer(r, st) == st + Payload(r)
  {
    var trigger := (c: IntentContext<seq<int>, int>) => Some([1, 2]);
    var reducer := (c: IntentContext<seq<int>, int>) => c.state + Payload(c.result);
    WithReducer(WithTrigger(Default(), trigger), reducer)
  }

  /**
   * `intent { onTrigger { flowOf(*rs) }; reducer { resultNonNull() }; sideEffect(func) }`,
   * the side-effect recording the state it was called with.
   */
  function ReplaceIntent(rs: seq<int>): (i: Intent3<int, int, int>)
    ensures forall st :: i.onTrigger(st) == Some(rs)
    ensures i.cancelTrigger == None && i.sideEffect.Some?
    ensures forall r, st :: i.reducer(r, st) == IntResult(r)
    ensures forall r, st :: SideEffectOutput(i, r, st) == [st]
  {
    Intent3(st => Some(rs), None, (r, st) => IntResult(r), Some((r, st: int) => [st]), false)
  }

  /** The intent `reducerIntent { v }` submits. */
  function ConstantReducer(v: int): (i: Intent3<int, int, int>)
    ensures forall st :: i.onTrigger(st) == None
    ensures i.cancelTrigger == None && i.sideEffect == None
    ensures forall r, st :: i.reducer(r, st) == v
  {
    WithReducer(Default(), (c: IntentContext<int, int>) => v)
  }

  /**
   * Results `1, 2, 3, 4`; `cancelTrigger(runSideEffectAfterCancel = true) { resultNonNull() == 2 }`;
   * `reducer { resultNonNull() }`; a side-effect that records `2` when the result is `2`.
   */
  function CancelOnTwo(): (i: Intent3<int, int, int>)
    ensures forall st :: i.onTrigger(st) == Some([1, 2, 3, 4])
    ensures i.cancelTrigger.Some? && i.runSideEffectAfterCancel
    ensures forall r, st :: i.cancelTrigger.value(r, st) == (r == Some(2))
    ensures forall r, st :: i.reducer(r, st) == IntResult(r)
    ensures forall r, st :: SideEffectOutput(i, r, st) == if r == Some(2) then [2] else []
  {
    IntentOf((b: Intent3<int, int, int>) =>
      WithSideEffect(
        WithReducer(
          WithCancelTrigger(
            WithTrigger(b, (c: IntentContext<int, int>) => Some([1, 2, 3, 4])),
            true, (c: IntentContext<int, int>) => c.result == Some(2)),
          (c: IntentContext<int, int>) => IntResult(c.result)),
        (c: IntentContext<int, int>) => if c.result == Some(2) then [2] else []))
  }

  /** `onTrigger { flowOf(state * 2) }; reducer { resultNonNull() }; sideEffect { record(state * 10) }`. */
  function DoublingIntent(): (i: Intent3<int, int, int>)
    ensures forall st :: i.onTrigger(st) == Some([st * 2])
    ensures i.cancelTrigger == None && i.sideEffect.Some?
    ensures forall r, st :: i.reducer(r, st) == IntResult(r)
    ensures forall r, st :: i.sideEffect.value(r, st) == [st * 10]
  {
    Intent3(st => Some([st * 2]), None, (r, st) => IntResult(r), Some((r, st: int) => [st * 10]), false)
  }

  /**
   * `DoublingIntent` mapped onto a `Result<Int>` state (modelled as an
   * optional `Int`, `getOrNull()` being the projection), reducing the
   * success value with the inner reducer.
   */
  function MappedDoubling(): (m: Intent3<Option<int>, int, int>)
    ensures m.onTrigger(Some(1)) == Some([2])
    ensures !ShouldCancel(m, Some(2), Some(1))
    ensures m.reducer(Some(2), Some(1)) == Some(2)
    ensures SideEffectOutput(m, Some(2), Some(2)) == [20]
  {
    Map(DoublingIntent(),
      (c: IntentContext<Option<int>, int>, red: (Option<int>, int) -> int) =>
        match c.state
        case None => None
        case Some(x) => Some(red(c.result, x)),
      (o: Option<int>) => o,
      NoSetUp)
  }

  /**
   * An intent as the test's inner one: `onTrigger { flowOf(2, 3) }`,
   * `reducer { state + resultNonNull() }`, `sideEffect { record(state) }`.
   */
  ghost predicate AddsTwoThree(i: Intent3<int, int, int>)
  {
    && (forall st :: i.onTrigger(st) == Some([2, 3]))
    && i.cancelTrigger == None && i.sideEffect.Some?
    && (forall r, st :: i.reducer(r, st) == st + IntResult(r))
    && (forall r, st :: i.sideEffect.value(r, st) == [st])
  }

  /** Ten times each element. */
  function Times10(rs: seq<int>): (qs: seq<int>)
    ensures |qs| == |rs| && forall j :: 0 <= j < |rs| ==> qs[j] == rs[j] * 10
  {
    seq(|rs|, j requires 0 <= j < |rs| => rs[j] * 10)
  }

  /**
   * `composite { inner -> onTrigger { inner.onTrigger(state)?.map { it * 10 } };
   * reducer { inner.reducer(result, state) + 1 } }`.
   */
  function CompositeAdding(inner: Intent3<int, int, int>): (i: Intent3<int, int, int>)
    requires AddsTwoThree(inner)
    ensures AddsPlusOne(i)
  {
    assert Times10([2, 3]) == [20, 30];
    Composite(inner, (inner: Intent3<int, int, int>, b: Intent3<int, int, int>) =>
      WithReducer(
        WithTrigger(b, (c: IntentContext<int, int>) =>
          match inner.onTrigger(c.state)
          case None => None
          case Some(rs) => Some(Times10(rs))),
        (c: IntentContext<int, int>) => inner.reducer(c.result, c.state) + 1))
  }

  lemma CancelOnTwoCancelsOnTwo()
    ensures CancelsOnTwo(CancelOnTwo())
  {
    assert forall st :: CancelOnTwo().onTrigger(st) == Some([1, 2, 3, 4]);
    assert forall r, st :: CancelOnTwo().cancelTrigger.value(r, st) == (r == Some(2));
    assert forall r, st :: CancelOnTwo().reducer(r, st) == IntResult(r);
    assert forall r, st :: SideEffectOutput(CancelOnTwo(), r, st) == if r == Some(2) then [2] else [];
  }

  /** The appending intent launches one job holding the results `1, 2`. */
  lemma AppendIntentLaunches()
    ensures var s := RunAndStart(Initial<seq<int>, int, int>([0]), None, AppendIntent());
      && Observed(s) && s.state == [0] && s.published == [[0]]
      && |s.tasks| == 1 && s.tasks[0].intent == AppendIntent() && s.tasks[0].status == Active && s.tasks[0].started
      && s.tasks[0].pending == [Some(1), Some(2)]
  {
    var i := AppendIntent();
    var s0 := Initial<seq<int>, int, int>([0]);
    var p := Emissions(i, s0.state);
    assert |p| == 2 && p[0] == Some(1) && p[1] == Some(2);
    PairDisplay(p);
    assert RunAndStart(s0, None, i).tasks[0].pending == p;
  }

  /** The job appends its next result to the state, and the collector observes the longer list. */
  lemma AppendIntentEmits(s: Snapshot<seq<int>, int, int>, x: int, rest: seq<Option<int>>)
    requires Observed(s) && |s.tasks| == 1 && s.tasks[0].intent == AppendIntent() && s.tasks[0].status == Active && s.tasks[0].started
    requires s.tasks[0].pending == [Some(x)] + rest
    ensures CanEmit(s, 0)
    ensures var r := EmitStep(s, 0);
      && Observed(r) && r.state == s.state + [x] && r.published == s.published + [s.state + [x]]
      && |r.tasks| == 1 && r.tasks[0].intent == AppendIntent() && r.tasks[0].status == Active && r.tasks[0].started
      && r.tasks[0].pending == rest
  {
    UncancelledResultIsReduced(s, 0);
    assert AppendIntent().reducer(Some(x), s.state) == s.state + [x];
    assert |s.state + [x]| != |s.state|;
  }

  /** The first result turns `[0]` into `[0, 1]`. */
  lemma AppendsOne(s: Snapshot<seq<int>, int, int>)
    requires Observed(s) && |s.tasks| == 1 && s.tasks[0].intent == AppendIntent() && s.tasks[0].status == Active && s.tasks[0].started
    requires s.tasks[0].pending == [Some(1), Some(2)] && s.state == [0] && s.published == [[0]]
    ensures CanEmit(s, 0)
    ensures var r := EmitStep(s, 0);
      && Observed(r) && |r.tasks| == 1 && r.tasks[0].intent == AppendIntent() && r.tasks[0].status == Active && r.tasks[0].started
      && r.tasks[0].pending == [Some(2)] && r.state == [0, 1] && r.published == [[0], [0, 1]]
  {
    AppendIntentEmits(s, 1, [Some(2)]);
    AppendToDisplay(0, 1, 2);
    AppendToDisplay([0], [0, 1], [0, 1, 2]);
  }

  /** The second result turns `[0, 1]` into `[0, 1, 2]`, and the flow is exhausted. */
  lemma AppendsTwo(s: Snapshot<seq<int>, int, int>)
    requires Observed(s) && |s.tasks| == 1 && s.tasks[0].intent == AppendIntent() && s.tasks[0].status == Active && s.tasks[0].started
    requires s.tasks[0].pending == [Some(2)] && s.state == [0, 1] && s.published == [[0], [0, 1]]
    ensures CanEmit(s, 0)
    ensures var r := EmitStep(s, 0);
      && r.published == [[0], [0, 1], [0, 1, 2]] && !CanEmit(r, 0) && CanComplete(r, 0)
  {
    AppendIntentEmits(s, 2, []);
    AppendToDisplay(0, 1, 2);
    AppendToDisplay([0], [0, 1], [0, 1, 2]);
  }

  /** Results `1, 2` appended to `[0]` are observed as `[0]`, `[0, 1]`, `[0, 1, 2]`. */
  lemma TriggerAppendsResults()
    ensures var s1 := RunAndStart(Initial<seq<int>, int, int>([0]), None, AppendIntent());
      && CanEmit(s1, 0)
      && var s2 := EmitStep(s1, 0);
      && CanEmit(s2, 0)
      && var s3 := EmitStep(s2, 0);
      && s3.published == [[0], [0, 1], [0, 1, 2]]
      && !CanEmit(s3, 0) && CanComplete(s3, 0)
  {
    var s1 := RunAndStart(Initial<seq<int>, int, int>([0]), None, AppendIntent());
    AppendIntentLaunches();
    AppendsOne(s1);
    AppendsTwo(EmitStep(s1, 0));
  }

  /** The first intent without an id reduces `1` under the key drawn from the clock. */
  lemma FirstIntentReducesOne()
    ensures var s1 := RunAndStart(Initial<int, int, int>(0), None, ReplaceIntent([1]));
      && CanEmit(s1, 0)
      && var s2 := EmitStep(s1, 0);
      && s2.state == 1 && s2.published == [0, 1] && s2.effects == [1]
      && s2.clock == 1 && |s2.tasks| == 1 && s2.tasks[0].key == Auto(0)
  {
    var s1 := RunAndStart(Initial<int, int, int>(0), None, ReplaceIntent([1]));
    var p := Emissions(ReplaceIntent([1]), 0);
    assert |p| == 1 && p[0] == Some(1);
    assert s1.tasks[0].pending == [Some(1)];
  }

  /** The second intent without an id takes the next key and reduces `2`. */
  lemma SecondIntentReducesTwo(s: Snapshot<int, int, int>)
    requires s.state == 1 && s.published == [0, 1] && s.effects == [1]
    requires s.clock == 1 && |s.tasks| == 1 && s.tasks[0].key == Auto(0)
    ensures var s1 := RunAndStart(s, None, ReplaceIntent([2]));
      && CanEmit(s1, 1)
      && var s2 := EmitStep(s1, 1);
      && s2.published == [0, 1, 2] && s2.effects == [1, 2]
      && |s2.tasks| == 2 && s2.tasks[0].key != s2.tasks[1].key
  {
    var s1 := RunAndStart(s, None, ReplaceIntent([2]));
    var q := Emissions(ReplaceIntent([2]), 1);
    assert |q| == 1 && q[0] == Some(2);
    assert s1.tasks[1].pending == [Some(2)];
  }

  /** Two intents without an id get separate keys and each reduces its one result. */
  lemma TwoIntentsRunIndependently()
    ensures var s1 := RunAndStart(Initial<int, int, int>(0), None, ReplaceIntent([1]));
      && CanEmit(s1, 0)
      && var s2 := EmitStep(s1, 0);
      && var s3 := RunAndStart(s2, None, ReplaceIntent([2]));
      && CanEmit(s3, 1)
      && var s4 := EmitStep(s3, 1);
      && s4.published == [0, 1, 2] && s4.effects == [1, 2]
      && |s4.tasks| == 2 && s4.tasks[0].key != s4.tasks[1].key
  {
    FirstIntentReducesOne();
    SecondIntentReducesTwo(EmitStep(RunAndStart(Initial<int, int, int>(0), None, ReplaceIntent([1])), 0));
  }

  /** The first job under `"id"` holds `1, -1` and reduces `1`; the id names it. */
  lemma SameIdFirstJob()
    ensures var s1 := RunAndStart(Initial<int, int, int>(0), Some("id"), ReplaceIntent([1, -1]));
      && CanEmit(s1, 0)
      && var s2 := EmitStep(s1, 0);
      && Observed(s2) && s2.state == 1 && s2.published == [0, 1]
      && |s2.tasks| == 1 && s2.tasks[0].status == Active && s2.tasks[0].started && s2.tasks[0].pending == [Some(-1)]
      && s2.jobs.Keys == {Named("id")} && s2.jobs[Named("id")].job == 0
  {
    var s0 := Initial<int, int, int>(0);
    var s1 := RunAndStart(s0, Some("id"), ReplaceIntent([1, -1]));
    var p := Emissions(ReplaceIntent([1, -1]), 0);
    assert |p| == 2 && p[0] == Some(1) && p[1] == Some(-1);
    assert s1.tasks[0].pending == p;
    UncancelledResultIsReduced(s1, 0);
    assert p[1..] == [Some(-1)];
  }

  /** The second intent under `"id"` cancels the first job, so `-1` is dropped, and reduces `2`. */
  lemma SameIdSecondJob(s: Snapshot<int, int, int>)
    requires Observed(s) && s.state == 1 && s.published == [0, 1]
    requires |s.tasks| == 1 && s.tasks[0].status == Active && s.tasks[0].started && s.tasks[0].pending == [Some(-1)]
    requires s.jobs.Keys == {Named("id")} && s.jobs[Named("id")].job == 0
    ensures var s3 := RunAndStart(s, Some("id"), ReplaceIntent([2]));
      && !CanEmit(s3, 0) && s3.tasks[0].status == Cancelled
      && CanEmit(s3, 1)
      && var s4 := EmitStep(s3, 1);
      && s4.published == [0, 1, 2]
      && s4.jobs.Keys == {Named("id")} && s4.jobs[Named("id")].job == 1
  {
    var s3 := RunAndStart(s, Some("id"), ReplaceIntent([2]));
    var q := Emissions(ReplaceIntent([2]), 1);
    assert |q| == 1 && q[0] == Some(2);
    assert s3.tasks[1].pending == q;
    assert s3.tasks[0] == Stopped(s.tasks[0]);
    UncancelledResultIsReduced(s3, 1);
    AppendToDisplay(0, 1, 2);
  }

  /**
   * A second intent under the same id after the first job emitted `1`: the
   * first job is cancelled, so its `-1` is never reduced, and the id names
   * only the new job.
   */
  lemma SameIdReplacesJob()
    ensures var s1 := RunAndStart(Initial<int, int, int>(0), Some("id"), ReplaceIntent([1, -1]));
      && CanEmit(s1, 0)
      && var s2 := EmitStep(s1, 0);
      && var s3 := RunAndStart(s2, Some("id"), ReplaceIntent([2]));
      && !CanEmit(s3, 0) && s3.tasks[0].status == Cancelled
      && CanEmit(s3, 1)
      && var s4 := EmitStep(s3, 1);
      && s4.published == [0, 1, 2]
      && s4.jobs.Keys == {Named("id")} && s4.jobs[Named("id")].job == 1
  {
    SameIdFirstJob();
    SameIdSecondJob(EmitStep(RunAndStart(Initial<int, int, int>(0), Some("id"), ReplaceIntent([1, -1])), 0));
  }

  /** `reducerIntent { 1 }` launches one job, under the first clock key, with a single pass and no result. */
  lemma ReducerIntentLaunches()
    ensures var s := RunAndStart(Initial<int, int, int>(0), None, ConstantReducer(1));
      && Observed(s) && s.state == 0 && s.published == [0]
      && s.tasks == [Task(Auto(0), 0, ConstantReducer(1), [None], Active, true)]
      && s.jobs == map[Auto(0) := IntentJob(0, ConstantReducer(1), 0)]
  {
    var s0 := Initial<int, int, int>(0);
    var s := RunAndStart(s0, None, ConstantReducer(1));
    assert Emissions(ConstantReducer(1), s0.state) == [None];
    SingletonDisplay(s.tasks);
  }

  /** Its one pass reduces to `1`. */
  lemma ReducerIntentReduces(s: Snapshot<int, int, int>)
    requires Observed(s) && s.state == 0 && s.published == [0]
    requires s.tasks == [Task(Auto(0), 0, ConstantReducer(1), [None], Active, true)]
    ensures CanEmit(s, 0)
    ensures var r := EmitStep(s, 0);
      && r.published == [0, 1] && r.jobs == s.jobs
      && r.tasks == [Task(Auto(0), 0, ConstantReducer(1), [], Active, true)]
  {
    UncancelledResultIsReduced(s, 0);
    var t := s.tasks[0];
    assert t.pending[1..] == [];
    SingletonDisplay(s.tasks[0 := t.(pending := t.pending[1..])]);
  }

  /** The exhausted job completes and, holding the registered token, empties the registry. */
  lemma ReducerIntentCompletes(s: Snapshot<int, int, int>)
    requires s.tasks == [Task(Auto(0), 0, ConstantReducer(1), [], Active, true)]
    requires s.jobs == map[Auto(0) := IntentJob(0, ConstantReducer(1), 0)]
    ensures CanComplete(s, 0) && CompleteStep(s, 0).jobs == map[]
  {
    OnlyKeyRemoved(Auto(0), IntentJob(0, ConstantReducer(1), 0));
  }

  /** `reducerIntent { 1 }`: one pass with no result, then the job completes and leaves the registry. */
  lemma ReducerIntentRunsOnce()
    ensures var s1 := RunAndStart(Initial<int, int, int>(0), None, ConstantReducer(1));
      && s1.tasks[0].pending == [None]
      && CanEmit(s1, 0)
      && var s2 := EmitStep(s1, 0);
      && s2.published == [0, 1] && CanComplete(s2, 0)
      && CompleteStep(s2, 0).jobs == map[]
  {
    var s1 := RunAndStart(Initial<int, int, int>(0), None, ConstantReducer(1));
    ReducerIntentLaunches();
    ReducerIntentReduces(s1);
    ReducerIntentCompletes(EmitStep(s1, 0));
  }

  /** The cancelling intent is submitted under its id: one job, holding the results `1, 2, 3, 4`. */
  lemma CancellingIntentLaunches(i: Intent3<int, int, int>)
    requires CancelsOnTwo(i)
    ensures var s := RunAndStart(Initial<int, int, int>(0), Some("intent"), i);
      && Valid(s) && s.state == 0 && s.published == [0] && s.effects == []
      && |s.tasks| == 1 && s.tasks[0].intent == i && s.tasks[0].status == Active && s.tasks[0].started
      && s.tasks[0].pending == [Some(1), Some(2), Some(3), Some(4)]
      && s.clock == 0 && s.nextToken == 1
  {
    var s0 := Initial<int, int, int>(0);
    var p := Emissions(i, 0);
    assert |p| == 4 && p[0] == Some(1) && p[1] == Some(2) && p[2] == Some(3) && p[3] == Some(4);
    RunAndStartPreservesValid(s0, Some("intent"), i);
  }

  /** The cancelling job reduces its first result, `1`, which does not meet the predicate. */
  lemma CancellingIntentReducesOne(s: Snapshot<int, int, int>, i: Intent3<int, int, int>)
    requires CancelsOnTwo(i)
    requires Valid(s) && s.state == 0 && s.published == [0] && s.effects == []
    requires |s.tasks| == 1 && s.tasks[0].intent == i && s.tasks[0].status == Active && s.tasks[0].started
    requires s.tasks[0].pending == [Some(1), Some(2), Some(3), Some(4)]
    requires s.clock == 0 && s.nextToken == 1
    ensures CanEmit(s, 0)
    ensures var r := EmitStep(s, 0);
      && Valid(r) && CanEmit(r, 0)
      && r.state == 1 && r.published == [0, 1] && r.effects == []
      && r.tasks[0].intent == i && r.tasks[0].pending == [Some(2), Some(3), Some(4)]
      && |r.tasks| == 1 && r.clock == 0 && r.nextToken == 1
  {
    assert i.cancelTrigger.value(Some(1), 0) == false;
    assert !ShouldCancel(i, Some(1), 0);
    EmitPreservesValid(s, 0);
  }

  /** The result `2` meets the cancel predicate: the job stops and the re-dispatched intent is launched. */
  lemma CancellingIntentStopsAtTwo(s: Snapshot<int, int, int>, i: Intent3<int, int, int>)
    requires CancelsOnTwo(i)
    requires Valid(s) && CanEmit(s, 0)
    requires s.state == 1 && s.published == [0, 1] && s.effects == []
    requires s.tasks[0].intent == i && s.tasks[0].pending == [Some(2), Some(3), Some(4)]
    requires |s.tasks| == 1 && s.clock == 0 && s.nextToken == 1
    ensures var r := EmitStep(s, 0);
      && Valid(r)
      && |r.tasks| == 2 && r.tasks[0].status == Cancelled && !CanEmit(r, 0)
      && r.tasks[1] == Task(Auto(0), 1, AfterCancelIntent(i, Some(2)), [], Active, false)
      && r.state == 1 && r.published == [0, 1] && r.effects == []
  {
    assert i.cancelTrigger.value(Some(2), 1);
    assert ShouldCancel(i, Some(2), 1);
    CancelPredicateStopsJob(s, 0);
    EmitPreservesValid(s, 0);
  }

  /** The re-dispatched intent records `2` and leaves the state alone. */
  lemma RedispatchedSideEffectRecordsTwo(s: Snapshot<int, int, int>, i: Intent3<int, int, int>)
    requires CancelsOnTwo(i)
    requires Valid(s)
    requires |s.tasks| == 2 && s.tasks[1] == Task(Auto(0), 1, AfterCancelIntent(i, Some(2)), [], Active, false)
    requires s.state == 1 && s.published == [0, 1] && s.effects == []
    ensures CanStart(s, 1) && CanEmit(StartStep(s, 1), 1)
    ensures var r := EmitStep(StartStep(s, 1), 1);
      r.published == [0, 1] && r.effects == [2]
  {
    StartPreservesValid(s, 1);
    AfterCancelRunsSideEffectOnce(StartStep(s, 1), 1, i, Some(2));
    assert SideEffectOutput(i, Some(2), 1) == [2];
  }

  /**
   * The cancel predicate holds for `2`: of the results `1, 2, 3, 4` only `1`
   * is reduced, the job is cancelled with `3, 4` dropped, and the intent
   * dispatched after the cancellation runs the side-effect once with `2`.
   */
  lemma SideEffectAfterCancel(i: Intent3<int, int, int>)
    requires CancelsOnTwo(i)
    ensures var s1 := RunAndStart(Initial<int, int, int>(0), Some("intent"), i);
      && CanEmit(s1, 0)
      && var s2 := EmitStep(s1, 0);
      && CanEmit(s2, 0)
      && var s3 := EmitStep(s2, 0);
      && |s3.tasks| == 2 && s3.tasks[0].status == Cancelled && !CanEmit(s3, 0)
      && CanStart(s3, 1)
      && var s4 := StartStep(s3, 1);
      && CanEmit(s4, 1)
      && var s5 := EmitStep(s4, 1);
      && s5.published == [0, 1] && s5.effects == [2]
  {
    var s1 := RunAndStart(Initial<int, int, int>(0), Some("intent"), i);
    CancellingIntentLaunches(i);
    CancellingIntentReducesOne(s1, i);
    var s2 := EmitStep(s1, 0);
    CancellingIntentStopsAtTwo(s2, i);
    RedispatchedSideEffectRecordsTwo(EmitStep(s2, 0), i);
  }

  /** The mapped intent reduces `Result.success(1)` to `Result.success(2)` and records `20`. */
  lemma MappedIntentUsesInnerReducer()
    ensures var s1 := RunAndStart(Initial<Option<int>, int, int>(Some(1)), None, MappedDoubling());
      && CanEmit(s1, 0)
      && var s2 := EmitStep(s1, 0);
      && s2.published == [Some(1), Some(2)] && s2.effects == [20]
  {
    var m := MappedDoubling();
    var s1 := RunAndStart(Initial<Option<int>, int, int>(Some(1)), None, m);
    var p := Emissions(m, Some(1));
    assert |p| == 1 && p[0] == Some(2);
    assert s1.tasks[0].pending == p;
    assert !ShouldCancel(m, Some(2), Some(1));
    UncancelledResultIsReduced(s1, 0);
  }

  /** The composite intent is launched with the results `20, 30` and reduces `20` to `31`. */
  lemma CompositeReducesTwenty(c: Intent3<int, int, int>)
    requires AddsPlusOne(c)
    ensures var s1 := RunAndStart(Initial<int, int, int>(10), None, c);
      && CanEmit(s1, 0)
      && var s2 := EmitStep(s1, 0);
      && CanEmit(s2, 0) && s2.tasks[0].intent == c && s2.tasks[0].pending == [Some(30)]
      && s2.state == 31 && s2.published == [10, 31] && s2.effects == [31]
  {
    assert c.onTrigger(10) == Some([20, 30]);
    var s1 := RunAndStart(Initial<int, int, int>(10), None, c);
    var p := Emissions(c, 10);
    assert |p| == 2 && p[0] == Some(20) && p[1] == Some(30);
    assert s1.tasks[0].pending == [Some(20), Some(30)];
    assert !c.cancelTrigger.value(Some(20), 10);
    assert !ShouldCancel(c, Some(20), 10) && c.reducer(Some(20), 10) == 31;
    assert SideEffectOutput(c, Some(20), 31) == [31];
  }

  /** The composite intent then reduces `30` to `62`. */
  lemma CompositeReducesThirty(s: Snapshot<int, int, int>, c: Intent3<int, int, int>)
    requires AddsPlusOne(c)
    requires CanEmit(s, 0) && s.tasks[0].intent == c && s.tasks[0].pending == [Some(30)]
    requires s.state == 31 && s.published == [10, 31] && s.effects == [31]
    ensures var r := EmitStep(s, 0);
      r.published == [10, 31, 62] && r.effects == [31, 62]
  {
    assert !c.cancelTrigger.value(Some(30), 31);
    assert !ShouldCancel(c, Some(30), 31) && c.reducer(Some(30), 31) == 62;
    assert SideEffectOutput(c, Some(30), 62) == [62];
  }

  /**
   * An intent behaving as the composite of the test (`CompositeAdding`'s
   * contract) observes `10, 31, 62`, and its inherited side-effect records `31, 62`.
   */
  lemma CompositeOverridesTriggerAndReducer(c: Intent3<int, int, int>)
    requires AddsPlusOne(c)
    ensures var s1 := RunAndStart(Initial<int, int, int>(10), None, c);
      && CanEmit(s1, 0)
      && var s2 := EmitStep(s1, 0);
      && CanEmit(s2, 0)
      && var s3 := EmitStep(s2, 0);
      && s3.published == [10, 31, 62] && s3.effects == [31, 62]
  {
    CompositeReducesTwenty(c);
    CompositeReducesThirty(EmitStep(RunAndStart(Initial<int, int, int>(10), None, c), 0), c);
  }

  // ---------------------------------------------------------------------------
  // A job's body reads the state when it starts, not when it is submitted.

  /** `intent { onTrigger { flowOf(state) }; reducer { resultNonNull() * 10 } }`. */
  function TenfoldOfState(): (i: Intent3<int, int, int>)
    ensures forall st :: i.onTrigger(st) == Some([st])
    ensures i.cancelTrigger == None && i.sideEffect == None
    ensures forall r, st :: i.reducer(r, st) == IntResult(r) * 10
  {
    var trigger := (c: IntentContext<int, int>) => Some([c.state]);
    WithReducer(WithTrigger(Default(), trigger), (c: IntentContext<int, int>) => IntResult(c.result) * 10)
  }

  /** Both intents are submitted before either body runs: two scheduled jobs, state `0`. */
  lemma BothSubmitted()
    ensures var s := RunStep(RunStep(Initial<int, int, int>(0), None, ConstantReducer(1)), None, TenfoldOfState());
      && Observed(s) && s.state == 0 && s.published == [0] && |s.tasks| == 2
      && CanStart(s, 0) && s.tasks[0].intent == ConstantReducer(1)
      && CanStart(s, 1) && s.tasks[1].intent == TenfoldOfState()
  {
  }

  /** The first job starts and reduces `0` to `1`; the second is still waiting to start. */
  lemma ReducerRunsFirst(s: Snapshot<int, int, int>)
    requires Observed(s) && s.state == 0 && s.published == [0] && |s.tasks| == 2
    requires CanStart(s, 0) && s.tasks[0].intent == ConstantReducer(1)
    requires CanStart(s, 1) && s.tasks[1].intent == TenfoldOfState()
    ensures var s1 := StartStep(s, 0);
      && CanEmit(s1, 0)
      && var s2 := EmitStep(s1, 0);
      && Observed(s2) && s2.state == 1 && s2.published == [0, 1] && |s2.tasks| == 2
      && CanStart(s2, 1) && s2.tasks[1].intent == TenfoldOfState()
  {
    var s1 := StartStep(s, 0);
    assert Emissions(ConstantReducer(1), 0) == [None];
    assert s1.tasks[0].pending == [None] && s1.tasks[1] == s.tasks[1];
    assert !ShouldCancel(ConstantReducer(1), None, 0);
    UncancelledResultIsReduced(s1, 0);
  }

  /** Started after the first result was reduced, the second job's flow emits `1`, reduced to `10`. */
  lemma TenfoldStartsLate(s: Snapshot<int, int, int>)
    requires Observed(s) && s.state == 1 && s.published == [0, 1] && |s.tasks| == 2
    requires CanStart(s, 1) && s.tasks[1].intent == TenfoldOfState()
    ensures var s1 := StartStep(s, 1);
      && s1.tasks[1].pending == [Some(1)]
      && CanEmit(s1, 1)
      && EmitStep(s1, 1).published == [0, 1, 10]
  {
    var s1 := StartStep(s, 1);
    var p := Emissions(TenfoldOfState(), 1);
    assert |p| == 1 && p[0] == Some(1);
    assert s1.tasks[1].pending == [Some(1)];
    UncancelledResultIsReduced(s1, 1);
  }

  /**
   * `reducerIntent { 1 }` then `intent { onTrigger { flowOf(state) };
   * reducer { resultNonNull() * 10 } }`, both submitted from `0`: when the
   * second body starts after the first result was reduced, its flow emits
   * `1`, not the `0` current at its submission, and the state ends at `10`.
   */
  lemma LateStartSeesReducedState()
    ensures var s1 := RunStep(RunStep(Initial<int, int, int>(0), None, ConstantReducer(1)), None, TenfoldOfState());
      && CanStart(s1, 0)
      && var s2 := StartStep(s1, 0);
      && CanEmit(s2, 0)
      && var s3 := EmitStep(s2, 0);
      && CanStart(s3, 1)
      && var s4 := StartStep(s3, 1);
      && s4.tasks[1].pending == [Some(1)]
      && CanEmit(s4, 1)
      && EmitStep(s4, 1).published == [0, 1, 10]
  {
    var s1 := RunStep(RunStep(Initial<int, int, int>(0), None, ConstantReducer(1)), None, TenfoldOfState());
    BothSubmitted();
    ReducerRunsFirst(s1);
    TenfoldStartsLate(EmitStep(StartStep(s1, 0), 0));
  }

  /** Started before the first result is reduced, the same second job's flow emits the `0` of that moment. */
  lemma EarlyStartSeesSubmittedState()
    ensures var s1 := RunStep(RunStep(Initial<int, int, int>(0), None, ConstantReducer(1)), None, TenfoldOfState());
      && CanStart(s1, 1)
      && StartStep(s1, 1).tasks[1].pending == [Some(0)]
  {
    BothSubmitted();
    var p := Emissions(TenfoldOfState(), 0);
    assert |p| == 1 && p[0] == Some(0);
  }

  // ---------------------------------------------------------------------------
  // Proof helpers: literal sequence and map identities for the lemmas above.

  /** Removing the only key of a one-entry map leaves it empty. */
  lemma OnlyKeyRemoved<K, V>(k: K, v: V)
    ensures map[k := v] - {k} == map[]
  {
  }

  /** A one-element list is the display of its element. */
  lemma SingletonDisplay<T>(p: seq<T>)
    requires |p| == 1
    ensures p == [p[0]]
  {
  }

  /** A two-element list is the display of its elements. */
  lemma PairDisplay<T>(p: seq<T>)
    requires |p| == 2
    ensures p == [p[0], p[1]]
  {
  }

  /** Appending one element to a short list display gives the longer display. */
  lemma AppendToDisplay<T>(x: T, y: T, z: T)
    ensures [x] + [y] == [x, y]
    ensures [x, y] + [z] == [x, y, z]
  {
  }
}
