/**
 * The earlier store generation, `Store2`, as a pure state machine. All
 * intents feed one stream of `Intent2` envelopes; after `init` a single
 * collector folds that stream with `runningReduce`, runs the side-effect of
 * each folded element and emits its state. The coroutine scheduler is
 * replaced by explicit events: `InitStep` (`init` runs; its collector either
 * subscribes at once or is queued), `SubscribeStep` (a queued collector
 * subscribes), `LaunchStep` (an intent is submitted and its job scheduled),
 * `StartStep` (the job's body runs and asks the trigger for its flow),
 * `EmitStep` (a job's flow emits its next result into the stream),
 * `CompleteStep` and `CancelFlows`. Any interleaving of enabled events is a
 * possible run.
 */
module Store2Model {
  import opened MviCommon
  import opened Intent2Algebra

  /**
   * A launched job: its id, the token drawn for it, its built intent, the
   * results its flow has yet to emit, and whether its body has started (only
   * then does it ask the trigger for a flow).
   */
  datatype Job<!S, !R, E> = Job(id: string, token: nat, intent: Intent2<S, R, E>, pending: seq<Option<R>>, status: Status, started: bool)

  /**
   * Where the collector `init` launches stands: not launched (`Idle`),
   * launched but not yet subscribed to the intent stream (`Queued`), or
   * subscribed. The stream replays nothing, so an element emitted while no
   * collector is subscribed is lost.
   */
  datatype Collector = Idle | Queued | Subscribed

  /** A registry entry, the pair `identifier to job`; `job` indexes the task list. */
  datatype Entry = Entry(identifier: nat, job: nat)

  /**
   * Everything the store keeps:
   * - the default state and the current value of `_state`;
   * - the distinct values `_state` has taken and the side-effect output so far;
   * - where the collector stands, and the accumulator of its `runningReduce`,
   *   absent until the first element reaches it;
   * - the `pause` flag, the registry, every launched job, and the supplier of `Random.nextLong()`.
   */
  datatype Snapshot<!S, !R, E> = Snapshot(
    defaultState: S,
    state: S,
    published: seq<S>,
    effects: seq<E>,
    collector: Collector,
    acc: Option<Intent2<S, R, E>>,
    pause: bool,
    jobs: map<string, Entry>,
    tasks: seq<Job<S, R, E>>,
    nextToken: nat)

  /** The values `_state` took end in the current state. */
  predicate Observed<S(==), R, E>(s: Snapshot<S, R, E>)
  {
    EndsIn(s.published, s.state)
  }

  /** The collector can take the next element: the accumulator, once present, carries the current state. */
  predicate Ready<S(==), R, E>(s: Snapshot<S, R, E>)
  {
    Observed(s) && (s.acc.Some? ==> s.acc.value.state == Some(s.state))
  }

  // ---------------------------------------------------------------------------
  // The fold of the intent stream.

  /**
   * The `runningReduce` operation on `(old, new)`, here `(acc, next)`: a
   * paused element keeps the accumulated state, any other replaces it by
   * `next.reducer(next.result, acc.state)`. Result, side-effect and the three
   * flags come from `next`; the trigger and reducer stay those of `acc`.
   */
  function FoldStep<S, R, E>(acc: Intent2<S, R, E>, next: Intent2<S, R, E>): (r: Intent2<S, R, E>)
    requires next.paused || acc.state.Some?
    ensures next.paused ==> r.state == acc.state
    ensures !next.paused ==> r.state == Some(next.reducer(next.result, acc.state.value))
    ensures r.result == next.result && r.sideEffect == next.sideEffect && r.paused == next.paused
    ensures r.isCancellableFlowTrigger == next.isCancellableFlowTrigger
    ensures r.runSideEffectAfterCancel == next.runSideEffectAfterCancel
    ensures r.onTrigger == acc.onTrigger && r.reducer == acc.reducer
  {
    var reducedState := if !next.paused then Some(next.reducer(next.result, acc.state.value)) else acc.state;
    acc.(state := reducedState,
         result := next.result,
         sideEffect := next.sideEffect,
         paused := next.paused,
         isCancellableFlowTrigger := next.isCancellableFlowTrigger,
         runSideEffectAfterCancel := next.runSideEffectAfterCancel)
  }

  /** The output of `sideEffect?.invoke(result, state)`. */
  function SideEffectOutput<S, R, E>(i: Intent2<S, R, E>, r: Option<R>, state: S): (out: seq<E>)
    ensures i.sideEffect.None? ==> out == []
    ensures i.sideEffect.Some? ==> out == i.sideEffect.value(r, state)
  {
    SideEffectRun(i.sideEffect, r, state)
  }

  /** The `onEach` of a folded element: the side-effect runs with the folded state exactly when `!paused || runSideEffectAfterCancel`. */
  function OnEachEffects<S, R, E>(e: Intent2<S, R, E>): (out: seq<E>)
    requires e.state.Some?
    ensures (!e.paused || e.runSideEffectAfterCancel) ==> out == SideEffectOutput(e, e.result, e.state.value)
    ensures !(!e.paused || e.runSideEffectAfterCancel) ==> out == []
  {
    if !e.paused || e.runSideEffectAfterCancel then SideEffectOutput(e, e.result, e.state.value) else []
  }

  /**
   * `runningReduce` over a finite stream: the first element passes through
   * unchanged, every later one is folded into the previous accumulator.
   */
  function RunningReduce<S, R, E>(xs: seq<Intent2<S, R, E>>): (r: seq<Intent2<S, R, E>>)
    requires |xs| > 0 && xs[0].state.Some?
    ensures |r| == |xs| && r[0] == xs[0]
    ensures forall k :: 0 <= k < |r| ==> r[k].state.Some?
    ensures forall k {:trigger xs[k]} :: 0 < k < |r| ==> r[k] == FoldStep(r[k - 1], xs[k])
    decreases |xs|
  {
    if |xs| == 1 then [xs[0]]
    else
      var p := RunningReduce(xs[..|xs| - 1]);
      p + [FoldStep(p[|p| - 1], xs[|xs| - 1])]
  }

  /** The state change one element causes. */
  function Reduce<S, R, E>(st: S, e: Intent2<S, R, E>): S
  {
    if e.paused then st else e.reducer(e.result, st)
  }

  /** The reference fold: the elements' state changes applied left to right. */
  function FoldedState<S, R, E>(st: S, envs: seq<Intent2<S, R, E>>): S
    decreases |envs|
  {
    if envs == [] then st else FoldedState(Reduce(st, envs[0]), envs[1..])
  }

  lemma {:induction false} FoldedStateSnoc<S, R, E>(st: S, envs: seq<Intent2<S, R, E>>, e: Intent2<S, R, E>)
    ensures FoldedState(st, envs + [e]) == Reduce(FoldedState(st, envs), e)
    decreases |envs|
  {
    if envs == [] {
      assert envs + [e] == [e];
      assert [e][1..] == [];
    } else {
      assert (envs + [e])[1..] == envs[1..] + [e];
      FoldedStateSnoc(Reduce(st, envs[0]), envs[1..], e);
    }
  }

  /** The `k`-th accumulator of `runningReduce` holds the seed's state folded over the next `k` elements. */
  lemma {:induction false} RunningReduceFolds<S, R, E>(xs: seq<Intent2<S, R, E>>, k: nat)
    requires |xs| > 0 && xs[0].state.Some? && k < |xs|
    ensures RunningReduce(xs)[k].state == Some(FoldedState(xs[0].state.value, xs[1..k + 1]))
  {
    var r := RunningReduce(xs);
    if k == 0 {
      assert xs[1..1] == [];
    } else {
      RunningReduceFolds(xs, k - 1);
      assert r[k] == FoldStep(r[k - 1], xs[k]);
      assert xs[1..k + 1] == xs[1..k] + [xs[k]];
      FoldedStateSnoc(xs[0].state.value, xs[1..k], xs[k]);
    }
  }

  /** Every accumulator keeps the seed's trigger and reducer; the other fields are the current element's. */
  lemma {:induction false} RunningReduceKeepsSeedCallbacks<S, R, E>(xs: seq<Intent2<S, R, E>>, k: nat)
    requires |xs| > 0 && xs[0].state.Some? && k < |xs|
    ensures var r := RunningReduce(xs);
      && r[k].onTrigger == xs[0].onTrigger && r[k].reducer == xs[0].reducer
      && r[k].result == xs[k].result && r[k].sideEffect == xs[k].sideEffect && r[k].paused == xs[k].paused
  {
    if k > 0 {
      RunningReduceKeepsSeedCallbacks(xs, k - 1);
      var r := RunningReduce(xs);
      assert r[k] == FoldStep(r[k - 1], xs[k]);
    }
  }

  /** `makeCancellableIfNeeded`: a cancellable trigger's envelopes carry the current `pause` flag. */
  function MakeCancellableIfNeeded<S, R, E>(envs: seq<Intent2<S, R, E>>, isCancellableFlowTrigger: bool, paused: bool): (r: seq<Intent2<S, R, E>>)
    ensures !isCancellableFlowTrigger ==> r == envs
    ensures isCancellableFlowTrigger ==> |r| == |envs| && forall k :: 0 <= k < |r| ==> r[k] == envs[k].(paused := paused)
  {
    if isCancellableFlowTrigger then seq(|envs|, k requires 0 <= k < |envs| => envs[k].(paused := paused)) else envs
  }

  /**
   * What the pause mechanism would do if it were applied: a paused element
   * leaves the accumulated state alone, and its side-effect runs only with
   * `runSideEffectAfterCancel`.
   */
  lemma PausedElementKeepsState<S, R, E>(acc: Intent2<S, R, E>, e: Intent2<S, R, E>)
    requires acc.state.Some?
    ensures var r := FoldStep(acc, MakeCancellableIfNeeded([e], true, true)[0]);
      && r.state == acc.state
      && OnEachEffects(r) == (if e.runSideEffectAfterCancel then SideEffectOutput(e, e.result, acc.state.value) else [])
  {
    assert MakeCancellableIfNeeded([e], true, true)[0] == e.(paused := true);
  }

  // ---------------------------------------------------------------------------
  // The store's events.

  /** A new store: the default state is the current one, no collector yet, nothing registered. */
  function Initial<S(==), R, E>(defaultState: S): (s: Snapshot<S, R, E>)
    ensures Ready(s) && s.state == defaultState && s.published == [defaultState] && s.acc == None
    ensures s.collector == Idle && s.jobs == map[] && s.tasks == [] && s.effects == [] && !s.pause
  {
    Snapshot(defaultState, defaultState, [defaultState], [], Idle, None, false, map[], [], 0)
  }

  /**
   * One element of the intent stream reaches the collector. With no
   * subscribed collector it is lost. The first element a subscribed
   * collector takes passes through `runningReduce` unreduced; every later
   * one is folded into the accumulator. Then the element's `onEach` runs and
   * its state is emitted into `_state`.
   */
  function Deliver<S(==), R, E>(s: Snapshot<S, R, E>, env: Intent2<S, R, E>): (r: Snapshot<S, R, E>)
    requires Ready(s)
    requires s.acc.None? && s.collector == Subscribed ==> env.state.Some?
    ensures Ready(r)
    ensures s.collector != Subscribed ==> r == s
    ensures s.collector == Subscribed && s.acc.None? ==>
      && r.acc == Some(env)
      && r.state == env.state.value
      && r.published == Publish(s.published, s.state, r.state)
      && r.effects == s.effects + OnEachEffects(env)
    ensures s.collector == Subscribed && s.acc.Some? ==>
      && r.acc == Some(FoldStep(s.acc.value, env))
      && r.state == Reduce(s.state, env)
      && r.published == Publish(s.published, s.state, r.state)
      && r.effects == s.effects + OnEachEffects(r.acc.value)
    ensures r.defaultState == s.defaultState && r.collector == s.collector && r.pause == s.pause
    ensures r.jobs == s.jobs && r.tasks == s.tasks && r.nextToken == s.nextToken
  {
    if s.collector != Subscribed then s
    else
      var a := if s.acc.None? then env else FoldStep(s.acc.value, env);
      s.(acc := Some(a),
         state := a.state.value,
         published := Publish(s.published, s.state, a.state.value),
         effects := s.effects + OnEachEffects(a))
  }

  /** The collector takes the elements of `envs` in order; each carries a state, as every element of the stream does. */
  function DeliverAll<S(==), R, E>(s: Snapshot<S, R, E>, envs: seq<Intent2<S, R, E>>): (r: Snapshot<S, R, E>)
    requires Ready(s)
    requires forall k :: 0 <= k < |envs| ==> envs[k].state.Some?
    ensures Ready(r) && (s.acc.Some? ==> r.acc.Some?) && r.collector == s.collector
    decreases |envs|
  {
    if envs == [] then s else Deliver(DeliverAll(s, envs[..|envs| - 1]), envs[|envs| - 1])
  }

  /**
   * The store's accumulator after a run of elements is the matching element
   * of `runningReduce` over the stream so far.
   */
  lemma {:induction false} DeliverAllFollowsRunningReduce<S, R, E>(s: Snapshot<S, R, E>, envs: seq<Intent2<S, R, E>>)
    requires Ready(s) && s.acc.Some? && s.collector == Subscribed
    requires forall k :: 0 <= k < |envs| ==> envs[k].state.Some?
    ensures DeliverAll(s, envs).acc == Some(RunningReduce([s.acc.value] + envs)[|envs|])
    decreases |envs|
  {
    var a := s.acc.value;
    var n := |envs|;
    if n == 0 {
      assert [a] + envs == [a];
    } else {
      var front := envs[..n - 1];
      DeliverAllFollowsRunningReduce(s, front);
      RunningReduceLast(a, envs);
    }
  }

  /** The last accumulator folds the last element into the last accumulator of the stream without it. */
  lemma RunningReduceLast<S, R, E>(a: Intent2<S, R, E>, envs: seq<Intent2<S, R, E>>)
    requires |envs| > 0 && a.state.Some?
    ensures RunningReduce([a] + envs)[|envs|]
      == FoldStep(RunningReduce([a] + envs[..|envs| - 1])[|envs| - 1], envs[|envs| - 1])
  {
    var xs := [a] + envs;
    var n := |envs|;
    ConsPrefix(a, envs);
    var p := RunningReduce(xs[..n]);
    assert RunningReduce(xs) == p + [FoldStep(p[n - 1], xs[n])];
  }

  /** The state after a run of elements is the reference fold of their state changes. */
  lemma {:induction false} DeliverAllFoldsState<S, R, E>(s: Snapshot<S, R, E>, envs: seq<Intent2<S, R, E>>)
    requires Ready(s) && s.acc.Some? && s.collector == Subscribed
    requires forall k :: 0 <= k < |envs| ==> envs[k].state.Some?
    ensures DeliverAll(s, envs).state == FoldedState(s.state, envs)
    decreases |envs|
  {
    if envs != [] {
      var n := |envs|;
      var front := envs[..n - 1];
      DeliverAllFoldsState(s, front);
      assert envs == front + [envs[n - 1]];
      FoldedStateSnoc(s.state, front, envs[n - 1]);
    }
  }

  /**
   * `init()`: reset `pause`, launch the collector, and emit the seed
   * `Intent2(state = defaultState, result = null)`. `scope.launch` only
   * schedules the collector, so whether it has subscribed when the seed is
   * emitted depends on the dispatcher: `collectorFirst` says it has.
   */
  function InitStep<S(!new, ==), R(!new), E>(s: Snapshot<S, R, E>, collectorFirst: bool): (r: Snapshot<S, R, E>)
    requires Ready(s) && s.collector == Idle
    ensures Ready(r) && r.collector != Idle && !r.pause
  {
    var launched := s.(pause := false, collector := if collectorFirst then Subscribed else Queued);
    Deliver(launched, Seed(Some(s.defaultState), None))
  }

  /** A queued collector subscribes to the intent stream. */
  function SubscribeStep<S, R, E>(s: Snapshot<S, R, E>): (r: Snapshot<S, R, E>)
    requires s.collector == Queued
    ensures r.collector == Subscribed && r.(collector := Queued) == s
  {
    s.(collector := Subscribed)
  }

  /** The results a job's flow emits when its body starts in `state`: `intent.onTrigger(state) ?: flowOf(null)`. */
  function Emissions<S, R, E>(i: Intent2<S, R, E>, state: S): seq<Option<R>>
  {
    Passes(i.onTrigger(state))
  }

  /** `cancel()` on a job: a live job stops and drops the results it has not emitted. */
  function Stopped<S, R, E>(t: Job<S, R, E>): (u: Job<S, R, E>)
    ensures u.status != Active && u.pending == (if t.status == Active then [] else t.pending)
    ensures u.id == t.id && u.token == t.token && u.intent == t.intent
    ensures t.status != Active ==> u == t
  {
    if t.status == Active then t.(status := Cancelled, pending := []) else t
  }

  /** `jobs[id]?.second?.cancel()`. */
  function CancelId<S, R, E>(s: Snapshot<S, R, E>, id: string): (r: Snapshot<S, R, E>)
    ensures r.(tasks := s.tasks) == s && |r.tasks| == |s.tasks|
    ensures forall h :: 0 <= h < |s.tasks| ==>
      r.tasks[h] == if id in s.jobs && s.jobs[id].job == h then Stopped(s.tasks[h]) else s.tasks[h]
  {
    if id in s.jobs && s.jobs[id].job < |s.tasks| then
      s.(tasks := s.tasks[s.jobs[id].job := Stopped(s.tasks[s.jobs[id].job])])
    else s
  }

  /**
   * `intentInternal(id, buildFun)`: cancel the job registered under `id`,
   * draw a token, launch the job and, for a non-empty id only, register it.
   * The job's body, which builds the intent and asks its trigger for a flow,
   * has not run yet.
   */
  function LaunchStep<S, R, E>(s: Snapshot<S, R, E>, id: string, b: BuilderFields<S, R, E>): (r: Snapshot<S, R, E>)
    ensures var i := Build(b);
      && |r.tasks| == |s.tasks| + 1
      && r.tasks[|s.tasks|] == Job(id, s.nextToken, i, [], Active, false)
      && r.jobs == (if id != "" then s.jobs[id := Entry(s.nextToken, |s.tasks|)] else s.jobs)
      && (forall h :: 0 <= h < |s.tasks| ==>
            r.tasks[h] == if id in s.jobs && s.jobs[id].job == h then Stopped(s.tasks[h]) else s.tasks[h])
      && r.state == s.state && r.published == s.published && r.effects == s.effects
      && r.collector == s.collector && r.acc == s.acc && r.pause == s.pause && r.defaultState == s.defaultState
      && r.nextToken == s.nextToken + 1
  {
    Register(CancelId(s, id), id, Build(b))
  }

  /** Draw a token, launch the job, not yet started, and register it unless `id` is empty. */
  function Register<S, R, E>(s: Snapshot<S, R, E>, id: string, i: Intent2<S, R, E>): (r: Snapshot<S, R, E>)
    ensures |r.tasks| == |s.tasks| + 1 && r.tasks[..|s.tasks|] == s.tasks
    ensures r.tasks[|s.tasks|] == Job(id, s.nextToken, i, [], Active, false)
    ensures r.jobs == (if id != "" then s.jobs[id := Entry(s.nextToken, |s.tasks|)] else s.jobs)
    ensures r.nextToken == s.nextToken + 1 && r.state == s.state && r.published == s.published && r.effects == s.effects
  {
    var token := s.nextToken;
    s.(nextToken := token + 1,
       tasks := s.tasks + [Job(id, token, i, [], Active, false)],
       jobs := if id != "" then s.jobs[id := Entry(token, |s.tasks|)] else s.jobs)
  }

  /** The element a job emits for result `r`: its intent carrying the current state and `r`. */
  function Envelope<S, R, E>(i: Intent2<S, R, E>, state: S, r: Option<R>): (e: Intent2<S, R, E>)
    ensures e.state == Some(state) && e.result == r && e.paused == i.paused
    ensures e.onTrigger == i.onTrigger && e.reducer == i.reducer && e.sideEffect == i.sideEffect
    ensures e.runSideEffectAfterCancel == i.runSideEffectAfterCancel
  {
    i.(state := Some(state), result := r, sideEffect := i.sideEffect)
  }

  /** Job `h` is live and has been scheduled, but its body has not run. */
  predicate CanStart<S(==), R, E>(s: Snapshot<S, R, E>, h: nat)
  {
    Ready(s) && h < |s.tasks| && s.tasks[h].status == Active && !s.tasks[h].started
  }

  /**
   * The body of job `h` starts: it reads `_state` as it is now, which may
   * differ from the state at submission, and asks the trigger for its flow.
   */
  function StartStep<S(==), R, E>(s: Snapshot<S, R, E>, h: nat): (r: Snapshot<S, R, E>)
    requires CanStart(s, h)
    ensures Ready(r) && |r.tasks| == |s.tasks|
    ensures r.tasks[h].started && r.tasks[h].pending == Emissions(s.tasks[h].intent, s.state)
    ensures r.tasks[h].id == s.tasks[h].id && r.tasks[h].token == s.tasks[h].token
    ensures r.tasks[h].intent == s.tasks[h].intent && r.tasks[h].status == s.tasks[h].status
    ensures forall k :: 0 <= k < |s.tasks| && k != h ==> r.tasks[k] == s.tasks[k]
    ensures r.state == s.state && r.published == s.published && r.effects == s.effects
    ensures r.jobs == s.jobs && r.nextToken == s.nextToken
    ensures r.acc == s.acc && r.collector == s.collector && r.pause == s.pause
    ensures r.defaultState == s.defaultState
  {
    var t := s.tasks[h];
    s.(tasks := s.tasks[h := t.(started := true, pending := Emissions(t.intent, s.state))])
  }

  /**
   * `intentInternal(id, buildFun)` with the job's body run as soon as it
   * returns: the flow comes from the state at submission.
   */
  function LaunchAndStart<S(==), R, E>(s: Snapshot<S, R, E>, id: string, b: BuilderFields<S, R, E>): (r: Snapshot<S, R, E>)
    requires Ready(s)
    ensures var i := Build(b);
      && Ready(r)
      && |r.tasks| == |s.tasks| + 1
      && r.tasks[|s.tasks|] == Job(id, s.nextToken, i, Emissions(i, s.state), Active, true)
      && r.jobs == (if id != "" then s.jobs[id := Entry(s.nextToken, |s.tasks|)] else s.jobs)
      && (forall h :: 0 <= h < |s.tasks| ==>
            r.tasks[h] == if id in s.jobs && s.jobs[id].job == h then Stopped(s.tasks[h]) else s.tasks[h])
      && r.state == s.state && r.published == s.published && r.effects == s.effects
      && r.collector == s.collector && r.acc == s.acc && r.pause == s.pause && r.defaultState == s.defaultState
      && r.nextToken == s.nextToken + 1
  {
    StartStep(LaunchStep(s, id, b), |s.tasks|)
  }

  /** Job `h` is live, its body runs, and its flow has a result left to emit. */
  predicate CanEmit<S(==), R, E>(s: Snapshot<S, R, E>, h: nat)
  {
    Ready(s) && h < |s.tasks| && s.tasks[h].status == Active && s.tasks[h].started && |s.tasks[h].pending| > 0
  }

  /** The flow of job `h` hands over its next result. */
  function Popped<S(==), R, E>(s: Snapshot<S, R, E>, h: nat): (r: Snapshot<S, R, E>)
    requires CanEmit(s, h)
    ensures Ready(r)
  {
    var t := s.tasks[h];
    s.(tasks := s.tasks[h := t.(pending := t.pending[1..])])
  }

  /** The flow of job `h` emits its next result into the intent stream, and the collector takes it. */
  function EmitStep<S(==), R, E>(s: Snapshot<S, R, E>, h: nat): (r: Snapshot<S, R, E>)
    requires CanEmit(s, h)
    ensures Ready(r) && (s.acc.Some? || s.collector == Subscribed ==> r.acc.Some?) && r.collector == s.collector
    ensures r.tasks == s.tasks[h := s.tasks[h].(pending := s.tasks[h].pending[1..])]
    ensures r.jobs == s.jobs && r.nextToken == s.nextToken && r.pause == s.pause && r.defaultState == s.defaultState
  {
    var t := s.tasks[h];
    Deliver(Popped(s, h), Envelope(t.intent, s.state, t.pending[0]))
  }

  /** Job `h` has nothing left to do: it was cancelled, or its body ran to the end of its flow. */
  predicate CanComplete<S, R, E>(s: Snapshot<S, R, E>, h: nat)
  {
    h < |s.tasks| && (s.tasks[h].status == Cancelled || (s.tasks[h].status == Active && s.tasks[h].started && s.tasks[h].pending == []))
  }

  /**
   * Job `h` completes. Only a job with a non-empty id has a completion
   * handler, and it removes `jobs[id]` only if the entry still holds the
   * job's token.
   */
  function CompleteStep<S, R, E>(s: Snapshot<S, R, E>, h: nat): (r: Snapshot<S, R, E>)
    requires CanComplete(s, h)
    ensures |r.tasks| == |s.tasks| && r.tasks[h].status == Finished && r.tasks[h].pending == []
    ensures forall g :: 0 <= g < |s.tasks| && g != h ==> r.tasks[g] == s.tasks[g]
    ensures r.state == s.state && r.published == s.published && r.effects == s.effects
    ensures r.acc == s.acc && r.collector == s.collector && r.nextToken == s.nextToken
  {
    var t := s.tasks[h];
    s.(tasks := s.tasks[h := t.(status := Finished, pending := [])],
       jobs := if t.id != "" && t.id in s.jobs && s.jobs[t.id].identifier == t.token then s.jobs - {t.id} else s.jobs)
  }

  /** `cancelFlows()`: set `pause`. */
  function CancelFlows<S, R, E>(s: Snapshot<S, R, E>): (r: Snapshot<S, R, E>)
    ensures r.pause && r.(pause := s.pause) == s
  {
    s.(pause := true)
  }

  /** The flow of job `h` runs to its end without interleaving: the `collect` loop of `launchNewJob`. */
  function DrainJob<S(==), R, E>(s: Snapshot<S, R, E>, h: nat): (r: Snapshot<S, R, E>)
    requires Valid(s) && h < |s.tasks|
    ensures Valid(r) && |r.tasks| == |s.tasks| && !CanEmit(r, h)
    decreases |s.tasks[h].pending|
  {
    if CanEmit(s, h) then
      EmitPreservesValid(s, h);
      DrainJob(EmitStep(s, h), h)
    else s
  }

  // ---------------------------------------------------------------------------
  // The invariant every event preserves.

  /** Task `h` is the one registered under its own id. */
  predicate IsRegistered<S, R, E>(s: Snapshot<S, R, E>, h: nat)
    requires h < |s.tasks|
  {
    s.tasks[h].id in s.jobs && s.jobs[s.tasks[h].id].job == h
  }

  /** The entry under `k` names a task submitted under `k` with the entry's token that has not completed. */
  ghost predicate Registers<S, R, E>(s: Snapshot<S, R, E>, k: string)
    requires k in s.jobs
  {
    var e := s.jobs[k];
    && e.job < |s.tasks|
    && s.tasks[e.job].id == k
    && s.tasks[e.job].token == e.identifier
    && s.tasks[e.job].status != Finished
  }

  ghost predicate Valid<S, R, E>(s: Snapshot<S, R, E>)
  {
    && Ready(s)
    && NoStutter(s.published)
    && (s.acc.None? ==> s.state == s.defaultState && s.published == [s.defaultState])
    && (s.acc.Some? ==> s.collector == Subscribed)
    && "" !in s.jobs
    && (forall k :: k in s.jobs ==> Registers(s, k))
    && (forall h :: 0 <= h < |s.tasks| && s.tasks[h].status == Active && s.tasks[h].id != "" ==> IsRegistered(s, h))
    && (forall h :: 0 <= h < |s.tasks| && (s.tasks[h].status != Active || !s.tasks[h].started) ==> s.tasks[h].pending == [])
    && (forall h :: 0 <= h < |s.tasks| ==> !s.tasks[h].intent.paused)
    && (forall g, h :: 0 <= g < h < |s.tasks| ==> s.tasks[g].token < s.tasks[h].token)
    && (forall h :: 0 <= h < |s.tasks| ==> s.tasks[h].token < s.nextToken)
  }

  lemma InitialIsValid<S, R, E>(d: S)
    ensures Valid(Initial<S, R, E>(d))
  {
  }

  lemma InitPreservesValid<S(!new), R(!new), E>(s: Snapshot<S, R, E>, collectorFirst: bool)
    requires Valid(s) && s.collector == Idle
    ensures Valid(InitStep(s, collectorFirst))
  {
    var r := InitStep(s, collectorFirst);
    forall k | k in r.jobs ensures Registers(r, k) {
      assert Registers(s, k);
    }
  }

  lemma SubscribePreservesValid<S, R, E>(s: Snapshot<S, R, E>)
    requires Valid(s) && s.collector == Queued
    ensures Valid(SubscribeStep(s))
  {
    var r := SubscribeStep(s);
    forall k | k in r.jobs ensures Registers(r, k) {
      assert Registers(s, k);
    }
  }

  /** `r` is `s` with some jobs signalled and nothing else changed. */
  ghost predicate OnlyStopped<S, R, E>(s: Snapshot<S, R, E>, r: Snapshot<S, R, E>)
  {
    && r.(tasks := s.tasks) == s
    && |r.tasks| == |s.tasks|
    && (forall h :: 0 <= h < |s.tasks| ==> r.tasks[h] == s.tasks[h] || r.tasks[h] == Stopped(s.tasks[h]))
  }

  lemma StoppingPreservesValid<S, R, E>(s: Snapshot<S, R, E>, r: Snapshot<S, R, E>)
    requires Valid(s) && OnlyStopped(s, r)
    ensures Valid(r)
  {
    StoppingKeepsRegistry(s, r);
    StoppingKeepsOrder(s, r);
    forall h | 0 <= h < |r.tasks| && r.tasks[h].status == Active && r.tasks[h].id != "" ensures IsRegistered(r, h) {
      assert r.tasks[h] == s.tasks[h];
    }
  }

  /** Stopping jobs leaves every registry entry naming its job. */
  lemma StoppingKeepsRegistry<S, R, E>(s: Snapshot<S, R, E>, r: Snapshot<S, R, E>)
    requires Valid(s) && OnlyStopped(s, r)
    ensures forall k :: k in r.jobs ==> Registers(r, k)
  {
    forall k | k in r.jobs ensures Registers(r, k) {
      assert Registers(s, k);
    }
  }

  /** Stopping jobs keeps their tokens and intents. */
  lemma StoppingKeepsOrder<S, R, E>(s: Snapshot<S, R, E>, r: Snapshot<S, R, E>)
    requires Valid(s) && OnlyStopped(s, r)
    ensures forall h :: 0 <= h < |r.tasks| && (r.tasks[h].status != Active || !r.tasks[h].started) ==> r.tasks[h].pending == []
    ensures forall h :: 0 <= h < |r.tasks| ==> !r.tasks[h].intent.paused
    ensures forall g, h :: 0 <= g < h < |r.tasks| ==> r.tasks[g].token < r.tasks[h].token
    ensures forall h :: 0 <= h < |r.tasks| ==> r.tasks[h].token < r.nextToken
  {
    forall g, h | 0 <= g < h < |r.tasks| ensures r.tasks[g].token < r.tasks[h].token {
      assert s.tasks[g].token < s.tasks[h].token;
    }
  }

  /** Registering a new live job under an id no live job holds keeps the invariant. */
  lemma RegisterPreservesValid<S, R, E>(s: Snapshot<S, R, E>, id: string, i: Intent2<S, R, E>)
    requires Valid(s) && !i.paused
    requires forall h :: 0 <= h < |s.tasks| && s.tasks[h].id == id && id != "" ==> s.tasks[h].status != Active
    ensures Valid(Register(s, id, i))
  {
    RegisterKeepsRegistry(s, id, i);
    RegisterKeepsRegistered(s, id, i);
    RegisterKeepsOrder(s, id, i);
  }

  /** After registering, every entry names its job: the new one under a non-empty `id`, the others as before. */
  lemma RegisterKeepsRegistry<S, R, E>(s: Snapshot<S, R, E>, id: string, i: Intent2<S, R, E>)
    requires Valid(s)
    ensures var r := Register(s, id, i); forall k :: k in r.jobs ==> Registers(r, k)
  {
    var r := Register(s, id, i);
    forall k | k in r.jobs ensures Registers(r, k) {
      if k != id {
        assert Registers(s, k);
      }
    }
  }

  /** After registering, every live job with a non-empty id is the one registered under it. */
  lemma RegisterKeepsRegistered<S, R, E>(s: Snapshot<S, R, E>, id: string, i: Intent2<S, R, E>)
    requires Valid(s)
    requires forall h :: 0 <= h < |s.tasks| && s.tasks[h].id == id && id != "" ==> s.tasks[h].status != Active
    ensures var r := Register(s, id, i);
      forall h :: 0 <= h < |r.tasks| && r.tasks[h].status == Active && r.tasks[h].id != "" ==> IsRegistered(r, h)
  {
    var r := Register(s, id, i);
    forall h | 0 <= h < |r.tasks| && r.tasks[h].status == Active && r.tasks[h].id != "" ensures IsRegistered(r, h) {
      if h < |s.tasks| {
        assert IsRegistered(s, h);
      }
    }
  }

  /** The new job's token is larger than every earlier one, and its intent is not paused. */
  lemma RegisterKeepsOrder<S, R, E>(s: Snapshot<S, R, E>, id: string, i: Intent2<S, R, E>)
    requires Valid(s) && !i.paused
    ensures var r := Register(s, id, i);
      && (forall h :: 0 <= h < |r.tasks| && (r.tasks[h].status != Active || !r.tasks[h].started) ==> r.tasks[h].pending == [])
      && (forall h :: 0 <= h < |r.tasks| ==> !r.tasks[h].intent.paused)
      && (forall g, h :: 0 <= g < h < |r.tasks| ==> r.tasks[g].token < r.tasks[h].token)
      && (forall h :: 0 <= h < |r.tasks| ==> r.tasks[h].token < r.nextToken)
  {
    var r := Register(s, id, i);
    forall g, h | 0 <= g < h < |r.tasks| ensures r.tasks[g].token < r.tasks[h].token {
      if h < |s.tasks| {
        assert s.tasks[g].token < s.tasks[h].token;
      } else {
        assert s.tasks[g].token < s.nextToken;
      }
    }
  }

  lemma LaunchPreservesValid<S, R, E>(s: Snapshot<S, R, E>, id: string, b: BuilderFields<S, R, E>)
    requires Valid(s)
    ensures Valid(LaunchStep(s, id, b))
  {
    var s1 := CancelId(s, id);
    StoppingPreservesValid(s, s1);
    CancelFreesId(s, id);
    RegisterPreservesValid(s1, id, Build(b));
  }

  /** After `jobs[id]?.second?.cancel()` no live job holds a non-empty `id`. */
  lemma CancelFreesId<S, R, E>(s: Snapshot<S, R, E>, id: string)
    requires Valid(s)
    ensures var r := CancelId(s, id);
      forall h :: 0 <= h < |r.tasks| && r.tasks[h].id == id && id != "" ==> r.tasks[h].status != Active
  {
    var r := CancelId(s, id);
    forall h | 0 <= h < |r.tasks| && r.tasks[h].id == id && id != "" ensures r.tasks[h].status != Active {
      if s.tasks[h].status == Active {
        assert IsRegistered(s, h);
      }
    }
  }

  lemma LaunchAndStartPreservesValid<S, R, E>(s: Snapshot<S, R, E>, id: string, b: BuilderFields<S, R, E>)
    requires Valid(s)
    ensures Valid(LaunchAndStart(s, id, b))
  {
    LaunchPreservesValid(s, id, b);
    StartPreservesValid(LaunchStep(s, id, b), |s.tasks|);
  }

  lemma StartPreservesValid<S, R, E>(s: Snapshot<S, R, E>, h: nat)
    requires Valid(s) && CanStart(s, h)
    ensures Valid(StartStep(s, h))
  {
    StartKeepsRegistry(s, h);
    StartKeepsOrder(s, h);
    var r := StartStep(s, h);
    forall g | 0 <= g < |r.tasks| && r.tasks[g].status == Active && r.tasks[g].id != "" ensures IsRegistered(r, g) {
      assert IsRegistered(s, g);
    }
  }

  /** Starting a job's body leaves every registry entry naming its job. */
  lemma StartKeepsRegistry<S, R, E>(s: Snapshot<S, R, E>, h: nat)
    requires Valid(s) && CanStart(s, h)
    ensures var r := StartStep(s, h); forall k :: k in r.jobs ==> Registers(r, k)
  {
    var r := StartStep(s, h);
    forall k | k in r.jobs ensures Registers(r, k) {
      assert Registers(s, k);
    }
  }

  /** Starting a job's body keeps every token, id, intent and status, and gives only that job a flow. */
  lemma StartKeepsOrder<S, R, E>(s: Snapshot<S, R, E>, h: nat)
    requires Valid(s) && CanStart(s, h)
    ensures var r := StartStep(s, h);
      && (forall g :: 0 <= g < |r.tasks| && (r.tasks[g].status != Active || !r.tasks[g].started) ==> r.tasks[g].pending == [])
      && (forall g :: 0 <= g < |r.tasks| ==> !r.tasks[g].intent.paused)
      && (forall g, j :: 0 <= g < j < |r.tasks| ==> r.tasks[g].token < r.tasks[j].token)
      && (forall g :: 0 <= g < |r.tasks| ==> r.tasks[g].token < r.nextToken)
  {
    var r := StartStep(s, h);
    forall g, j | 0 <= g < j < |r.tasks| ensures r.tasks[g].token < r.tasks[j].token {
      assert s.tasks[g].token < s.tasks[j].token;
    }
  }

  lemma EmitPreservesValid<S, R, E>(s: Snapshot<S, R, E>, h: nat)
    requires Valid(s) && CanEmit(s, h)
    ensures Valid(EmitStep(s, h))
  {
    EmitKeepsRegistry(s, h);
    var r := EmitStep(s, h);
    forall g | 0 <= g < |r.tasks| && r.tasks[g].status == Active && r.tasks[g].id != "" ensures IsRegistered(r, g) {
      assert IsRegistered(s, g);
    }
  }

  /** An emission leaves every registry entry naming its job. */
  lemma EmitKeepsRegistry<S, R, E>(s: Snapshot<S, R, E>, h: nat)
    requires Valid(s) && CanEmit(s, h)
    ensures var r := EmitStep(s, h); forall k :: k in r.jobs ==> Registers(r, k)
  {
    var r := EmitStep(s, h);
    forall k | k in r.jobs ensures Registers(r, k) {
      assert Registers(s, k);
    }
  }

  /** Two jobs holding the same token are the same job. */
  lemma TokenIdentifiesJob<S, R, E>(s: Snapshot<S, R, E>, g: nat, h: nat)
    requires Valid(s) && g < |s.tasks| && h < |s.tasks| && s.tasks[g].token == s.tasks[h].token
    ensures g == h
  {
  }

  lemma CompletePreservesValid<S, R, E>(s: Snapshot<S, R, E>, h: nat)
    requires Valid(s) && CanComplete(s, h)
    ensures Valid(CompleteStep(s, h))
  {
    CompleteKeepsRegistry(s, h);
    CompleteKeepsRegistered(s, h);
    var r := CompleteStep(s, h);
    forall g, h | 0 <= g < h < |r.tasks| ensures r.tasks[g].token < r.tasks[h].token {
      assert s.tasks[g].token < s.tasks[h].token;
    }
  }

  /** After a completion every remaining entry still names its job. */
  lemma CompleteKeepsRegistry<S, R, E>(s: Snapshot<S, R, E>, h: nat)
    requires Valid(s) && CanComplete(s, h)
    ensures var r := CompleteStep(s, h); forall k :: k in r.jobs ==> Registers(r, k)
  {
    var r := CompleteStep(s, h);
    var t := s.tasks[h];
    if t.id != "" && t.id in s.jobs && s.jobs[t.id].identifier == t.token {
      assert Registers(s, t.id);
      TokenIdentifiesJob(s, s.jobs[t.id].job, h);
    }
    forall k | k in r.jobs ensures Registers(r, k) {
      assert Registers(s, k);
    }
  }

  /** After a completion every live job with a non-empty id is still registered. */
  lemma CompleteKeepsRegistered<S, R, E>(s: Snapshot<S, R, E>, h: nat)
    requires Valid(s) && CanComplete(s, h)
    ensures var r := CompleteStep(s, h);
      forall g :: 0 <= g < |r.tasks| && r.tasks[g].status == Active && r.tasks[g].id != "" ==> IsRegistered(r, g)
  {
    var r := CompleteStep(s, h);
    forall g | 0 <= g < |r.tasks| && r.tasks[g].status == Active && r.tasks[g].id != "" ensures IsRegistered(r, g) {
      assert IsRegistered(s, g);
    }
  }

  lemma CancelFlowsPreservesValid<S, R, E>(s: Snapshot<S, R, E>)
    requires Valid(s)
    ensures Valid(CancelFlows(s))
  {
    var r := CancelFlows(s);
    forall k | k in r.jobs ensures Registers(r, k) {
      assert Registers(s, k);
    }
  }

  // ---------------------------------------------------------------------------
  // Properties.

  /**
   * When the collector subscribes before the seed is emitted, the seed
   * reaches it unreduced: the default state is the accumulator's, and the
   * seed has no side-effect.
   */
  lemma InitPublishesDefault<S(!new), R(!new), E>(s: Snapshot<S, R, E>)
    requires Valid(s) && s.collector == Idle
    ensures var r := InitStep(s, true);
      && r.state == s.defaultState && r.published == [s.defaultState] && r.effects == s.effects
      && r.acc == Some(Seed(Some(s.defaultState), None)) && r.collector == Subscribed && !r.pause
  {
  }

  /**
   * When the collector is only queued, the seed is emitted with no
   * subscriber and is lost: the accumulator stays empty.
   */
  lemma QueuedInitLosesSeed<S(!new), R(!new), E>(s: Snapshot<S, R, E>)
    requires Valid(s) && s.collector == Idle
    ensures var r := InitStep(s, false);
      && r.acc == None && r.collector == Queued && !r.pause
      && r.state == s.state && r.published == s.published && r.effects == s.effects
      && r.tasks == s.tasks && r.jobs == s.jobs
  {
  }

  /**
   * With the seed lost, the first result the collector takes passes through
   * `runningReduce` unreduced: the state stays the one the envelope carries,
   * the current one, and the side-effect sees that state, not a reduced one.
   */
  lemma FirstResultAfterLostSeedIsNotReduced<S, R, E>(s: Snapshot<S, R, E>, h: nat)
    requires Valid(s) && CanEmit(s, h) && s.acc.None? && s.collector == Subscribed
    ensures var t := s.tasks[h]; var r := EmitStep(s, h);
      && r.acc == Some(Envelope(t.intent, s.state, t.pending[0]))
      && r.state == s.state && r.published == s.published
      && r.effects == s.effects + SideEffectOutput(t.intent, t.pending[0], s.state)
  {
    var t := s.tasks[h];
    assert !t.intent.paused;
  }

  /**
   * An intent with the empty id is never registered and cancels nothing: the
   * registry and every earlier job are left as they were.
   */
  lemma EmptyIdCancelsNothing<S, R, E>(s: Snapshot<S, R, E>, b: BuilderFields<S, R, E>)
    requires Valid(s)
    ensures var r := LaunchStep(s, "", b);
      && r.jobs == s.jobs && "" !in r.jobs
      && r.tasks[..|s.tasks|] == s.tasks
  {
    var r := LaunchStep(s, "", b);
    assert r.tasks[..|s.tasks|] == s.tasks;
  }

  /**
   * Submitting under a non-empty id cancels the job registered under it,
   * and only that one, and registers the new job: the id's only live job is
   * the new one.
   */
  lemma LaunchReplacesJob<S, R, E>(s: Snapshot<S, R, E>, id: string, b: BuilderFields<S, R, E>)
    requires Valid(s) && id != ""
    ensures var r := LaunchStep(s, id, b);
      && r.jobs[id] == Entry(s.nextToken, |s.tasks|)
      && (forall h :: 0 <= h < |s.tasks| && s.tasks[h].id == id ==> r.tasks[h].status != Active && r.tasks[h].pending == [])
      && (forall h :: 0 <= h < |s.tasks| && s.tasks[h].id != id ==> r.tasks[h] == s.tasks[h])
  {
    var r := LaunchStep(s, id, b);
    forall h | 0 <= h < |s.tasks| && s.tasks[h].id == id ensures r.tasks[h].status != Active {
      if s.tasks[h].status == Active {
        assert IsRegistered(s, h);
      }
    }
    if id in s.jobs {
      assert Registers(s, id);
    }
  }

  /** The completion of a job whose entry was overwritten leaves the successor's entry in place. */
  lemma ReplacedCompletionKeepsSuccessor<S, R, E>(s: Snapshot<S, R, E>, h: nat)
    requires Valid(s) && CanComplete(s, h)
    requires s.tasks[h].id in s.jobs && s.jobs[s.tasks[h].id].job != h
    ensures CompleteStep(s, h).jobs == s.jobs
  {
    var k := s.tasks[h].id;
    assert Registers(s, k);
    if s.jobs[k].identifier == s.tasks[h].token {
      TokenIdentifiesJob(s, s.jobs[k].job, h);
    }
  }

  /** The completion of the registered job of a non-empty id removes its entry. */
  lemma CurrentCompletionRemovesEntry<S, R, E>(s: Snapshot<S, R, E>, h: nat)
    requires Valid(s) && CanComplete(s, h) && IsRegistered(s, h)
    ensures CompleteStep(s, h).jobs == s.jobs - {s.tasks[h].id}
  {
    assert Registers(s, s.tasks[h].id);
  }

  /**
   * Every job's envelopes are unpaused, so once the collector holds an
   * accumulator each result is reduced and its side-effect runs with the new
   * state.
   */
  lemma EveryResultReduced<S, R, E>(s: Snapshot<S, R, E>, h: nat)
    requires Valid(s) && CanEmit(s, h) && s.acc.Some?
    ensures var t := s.tasks[h]; var r := EmitStep(s, h);
      && r.state == t.intent.reducer(t.pending[0], s.state)
      && r.published == Publish(s.published, s.state, r.state)
      && r.effects == s.effects + SideEffectOutput(t.intent, t.pending[0], r.state)
  {
  }

  /**
   * A job's body reads `_state` when it starts: a job scheduled before
   * another job's result is reduced, but started after it, takes its flow
   * from the reduced state.
   */
  lemma StartAfterEmitSeesReducedState<S, R, E>(s: Snapshot<S, R, E>, g: nat, h: nat)
    requires Valid(s) && s.acc.Some? && CanEmit(s, g) && CanStart(s, h)
    ensures CanStart(EmitStep(s, g), h)
    ensures StartStep(EmitStep(s, g), h).tasks[h].pending
      == Emissions(s.tasks[h].intent, s.tasks[g].intent.reducer(s.tasks[g].pending[0], s.state))
  {
    EveryResultReduced(s, g);
  }

  /** Before a collector subscribes the stream has no subscriber: an emitted result is lost. */
  lemma EmitBeforeInitIsDropped<S, R, E>(s: Snapshot<S, R, E>, h: nat)
    requires Valid(s) && CanEmit(s, h) && s.collector != Subscribed
    ensures var r := EmitStep(s, h);
      r.state == s.state && r.published == s.published && r.effects == s.effects && r.acc == None
  {
  }

  /** `cancelFlows` changes nothing that any emission sees: the result is the same with or without it. */
  lemma CancelFlowsIsInert<S, R, E>(s: Snapshot<S, R, E>, h: nat)
    requires CanEmit(s, h)
    ensures CanEmit(CancelFlows(s), h) && EmitStep(CancelFlows(s), h) == CancelFlows(EmitStep(s, h))
  {
  }

  /** The results of a trigger, reduced in order from `st`. */
  function Reduced<S, R>(red: (Option<R>, S) -> S, st: S, rs: seq<Option<R>>): S
    decreases |rs|
  {
    if rs == [] then st else Reduced(red, red(rs[0], st), rs[1..])
  }

  /** The side-effect output of those results, each seeing the state its own reduction produced. */
  function Effects<S, R, E>(i: Intent2<S, R, E>, st: S, rs: seq<Option<R>>): seq<E>
    decreases |rs|
  {
    if rs == [] then []
    else
      var next := i.reducer(rs[0], st);
      SideEffectOutput(i, rs[0], next) + Effects(i, next, rs[1..])
  }

  /**
   * Once the collector holds an accumulator, running a live job's flow to
   * its end reduces all its pending results in order, and the side-effect
   * sees each new state.
   */
  lemma {:induction false} DrainReducesEveryResult<S, R, E>(s: Snapshot<S, R, E>, h: nat)
    requires Valid(s) && h < |s.tasks| && s.tasks[h].status == Active && s.acc.Some?
    ensures var t := s.tasks[h]; var r := DrainJob(s, h);
      && r.state == Reduced(t.intent.reducer, s.state, t.pending)
      && r.effects == s.effects + Effects(t.intent, s.state, t.pending)
    decreases |s.tasks[h].pending|
  {
    var t := s.tasks[h];
    if t.pending != [] {
      var s1 := EmitStep(s, h);
      DrainUnfolds(s, h);
      EmitPreservesValid(s, h);
      EveryResultReduced(s, h);
      DrainReducesEveryResult(s1, h);
      var next := t.intent.reducer(t.pending[0], s.state);
      assert s1.state == next && s1.tasks[h].pending == t.pending[1..] && s1.tasks[h].intent == t.intent;
      assert s1.effects == s.effects + SideEffectOutput(t.intent, t.pending[0], next);
      var out := SideEffectOutput(t.intent, t.pending[0], next);
      var rest := Effects(t.intent, next, t.pending[1..]);
      assert Effects(t.intent, s.state, t.pending) == out + rest;
      assert DrainJob(s, h).effects == s1.effects + rest;
      AppendAssociates(s.effects, out, rest);
    }
  }

  /** One step of `DrainJob`. */
  lemma DrainUnfolds<S, R, E>(s: Snapshot<S, R, E>, h: nat)
    requires Valid(s) && CanEmit(s, h)
    ensures Valid(EmitStep(s, h)) && DrainJob(s, h) == DrainJob(EmitStep(s, h), h)
  {
    EmitPreservesValid(s, h);
  }

  /** Before a collector subscribes, running a job's flow to its end changes neither the state nor the side-effect output. */
  lemma {:induction false} DrainBeforeInitDropsResults<S, R, E>(s: Snapshot<S, R, E>, h: nat)
    requires Valid(s) && h < |s.tasks| && s.collector != Subscribed
    ensures var r := DrainJob(s, h);
      r.state == s.state && r.published == s.published && r.effects == s.effects
    decreases |s.tasks[h].pending|
  {
    if CanEmit(s, h) {
      EmitPreservesValid(s, h);
      DrainBeforeInitDropsResults(EmitStep(s, h), h);
    }
  }
}
