/**
 * The bookkeeping of `Store3` as a pure state machine. The coroutine
 * scheduler is replaced by explicit events: `RunStep` (an intent is
 * submitted and its lazy job scheduled), `StartStep` (the job's body runs and
 * asks the trigger for its flow), `EmitStep` (a job's flow emits its next
 * result), `CompleteStep` (a job completes and its completion handler runs),
 * `CancelKeys` and `CancelAllJobs`. Any interleaving of enabled events is a
 * possible run. The class `Store3` is proved to perform exactly these steps.
 */
module Store3Model {
  import opened MviCommon
  import opened Intent3Algebra

  /**
   * A key of the job registry: an explicit intent id, or the one generated
   * from the clock when the id is `null` (modelled as never colliding).
   */
  datatype JobKey = Named(name: string) | Auto(stamp: nat)

  /**
   * A launched coroutine job: the key it was submitted under, the token drawn
   * for it, its intent, the results its flow has yet to emit, and whether its
   * body has started (only then does it ask the trigger for a flow).
   */
  datatype Task<!S, !R, E> = Task(key: JobKey, token: nat, intent: Intent3<S, R, E>, pending: seq<Option<R>>, status: Status, started: bool)

  /** A registry entry, `IntentJob(identifier, intent, job)`; `job` indexes the task list. */
  datatype IntentJob<!S, !R, E> = IntentJob(identifier: nat, intent: Intent3<S, R, E>, job: nat)

  /**
   * Everything the store keeps: the current state, the distinct values the
   * state flow has taken, the output of the side-effects run so far, the job
   * registry, every job ever launched, and the suppliers standing for
   * `Random.nextLong()` (`nextToken`) and `System.nanoTime()` (`clock`).
   */
  datatype Snapshot<!S, !R, E> = Snapshot(
    state: S,
    published: seq<S>,
    effects: seq<E>,
    jobs: map<JobKey, IntentJob<S, R, E>>,
    tasks: seq<Task<S, R, E>>,
    nextToken: nat,
    clock: nat)

  /** The values the state flow took end in the current state. */
  predicate Observed<S(==), R, E>(s: Snapshot<S, R, E>)
  {
    EndsIn(s.published, s.state)
  }

  /** Task `h` is the one registered under its own key. */
  predicate IsRegistered<S, R, E>(s: Snapshot<S, R, E>, h: nat)
    requires h < |s.tasks|
  {
    s.tasks[h].key in s.jobs && s.jobs[s.tasks[h].key].job == h
  }

  /** The entry under `k` names a live task submitted under `k` with the entry's token and intent. */
  ghost predicate Registers<S, R, E>(s: Snapshot<S, R, E>, k: JobKey)
    requires k in s.jobs
  {
    var e := s.jobs[k];
    && e.job < |s.tasks|
    && s.tasks[e.job].key == k
    && s.tasks[e.job].token == e.identifier
    && s.tasks[e.job].intent == e.intent
    && s.tasks[e.job].status != Finished
  }

  /** The invariant every event preserves. */
  ghost predicate Valid<S, R, E>(s: Snapshot<S, R, E>)
  {
    && Observed(s)
    && NoStutter(s.published)
    && (forall k :: k in s.jobs ==> Registers(s, k))
    && (forall h :: 0 <= h < |s.tasks| && s.tasks[h].status == Active ==> IsRegistered(s, h))
    && (forall h :: 0 <= h < |s.tasks| && (s.tasks[h].status != Active || !s.tasks[h].started) ==> s.tasks[h].pending == [])
    && (forall g, h :: 0 <= g < h < |s.tasks| ==> s.tasks[g].token < s.tasks[h].token)
    && (forall h :: 0 <= h < |s.tasks| ==> s.tasks[h].token < s.nextToken)
    && (forall h :: 0 <= h < |s.tasks| && s.tasks[h].key.Auto? ==> s.tasks[h].key.stamp < s.clock)
  }

  /** A job that stopped stays stopped, and no job is forgotten. */
  ghost predicate Progress<S, R, E>(s: Snapshot<S, R, E>, r: Snapshot<S, R, E>)
  {
    && |s.tasks| <= |r.tasks|
    && (forall h :: 0 <= h < |s.tasks| && s.tasks[h].status != Active ==> r.tasks[h].status != Active)
    && (forall h :: 0 <= h < |s.tasks| ==> r.tasks[h].key == s.tasks[h].key && r.tasks[h].intent == s.tasks[h].intent)
  }

  /** A new store: the default state is published, nothing is registered. */
  function Initial<S(==), R, E>(defaultState: S): (s: Snapshot<S, R, E>)
    ensures Valid(s) && s.state == defaultState && s.published == [defaultState]
    ensures s.jobs == map[] && s.tasks == [] && s.effects == []
  {
    Snapshot(defaultState, [defaultState], [], map[], [], 0, 0)
  }

  /** The results a job's flow emits when its body starts in `state`: `intent.onTrigger(state) ?: flowOf(null)`. */
  function Emissions<S, R, E>(i: Intent3<S, R, E>, state: S): seq<Option<R>>
  {
    Passes(i.onTrigger(state))
  }

  /** `cancelTrigger?.invoke(result, state) ?: false`. */
  function ShouldCancel<S, R, E>(i: Intent3<S, R, E>, r: Option<R>, state: S): (b: bool)
    ensures i.cancelTrigger.None? ==> !b
    ensures i.cancelTrigger.Some? ==> b == i.cancelTrigger.value(r, state)
  {
    match i.cancelTrigger
    case None => false
    case Some(p) => p(r, state)
  }

  /** The output of `sideEffect?.invoke(result, state)`. */
  function SideEffectOutput<S, R, E>(i: Intent3<S, R, E>, r: Option<R>, state: S): (out: seq<E>)
    ensures i.sideEffect.None? ==> out == []
    ensures i.sideEffect.Some? ==> out == i.sideEffect.value(r, state)
  {
    SideEffectRun(i.sideEffect, r, state)
  }

  /** `cancelJob()`: a live job stops and drops the results it has not emitted. */
  function Stopped<S, R, E>(t: Task<S, R, E>): (u: Task<S, R, E>)
    ensures u.status != Active && u.pending == (if t.status == Active then [] else t.pending)
    ensures u.key == t.key && u.token == t.token && u.intent == t.intent
    ensures t.status != Active ==> u == t
  {
    if t.status == Active then t.(status := Cancelled, pending := []) else t
  }

  /** `jobs[key]?.cancelJob()`. */
  function CancelKey<S, R, E>(s: Snapshot<S, R, E>, key: JobKey): (r: Snapshot<S, R, E>)
    ensures r.(tasks := s.tasks) == s && |r.tasks| == |s.tasks|
    ensures forall h :: 0 <= h < |s.tasks| ==>
      r.tasks[h] == if key in s.jobs && s.jobs[key].job == h then Stopped(s.tasks[h]) else s.tasks[h]
  {
    if key in s.jobs && s.jobs[key].job < |s.tasks| then
      s.(tasks := s.tasks[s.jobs[key].job := Stopped(s.tasks[s.jobs[key].job])])
    else s
  }

  /** Some key of `keys` has its entry naming task `h`. */
  predicate Targeted<S, R, E>(s: Snapshot<S, R, E>, keys: seq<JobKey>, h: nat)
  {
    exists j :: 0 <= j < |keys| && keys[j] in s.jobs && s.jobs[keys[j]].job == h
  }

  /**
   * `cancel(*ids)`: the job registered under each listed id is signalled, and
   * no other; the registry itself is left to the completion handlers.
   */
  function CancelKeys<S, R, E>(s: Snapshot<S, R, E>, keys: seq<JobKey>): (r: Snapshot<S, R, E>)
    ensures r.(tasks := s.tasks) == s && |r.tasks| == |s.tasks|
    ensures forall h :: 0 <= h < |s.tasks| ==>
      r.tasks[h] == if Targeted(s, keys, h) then Stopped(s.tasks[h]) else s.tasks[h]
    decreases |keys|
  {
    if keys == [] then s
    else
      var front := keys[..|keys| - 1];
      var last := keys[|keys| - 1];
      var r := CancelKey(CancelKeys(s, front), last);
      TargetedSnoc(s, front, last);
      r
  }

  lemma TargetedSnoc<S, R, E>(s: Snapshot<S, R, E>, front: seq<JobKey>, last: JobKey)
    ensures forall h :: Targeted(s, front + [last], h) <==>
      Targeted(s, front, h) || (last in s.jobs && s.jobs[last].job == h)
  {
    var keys := front + [last];
    forall h ensures Targeted(s, keys, h) <==> Targeted(s, front, h) || (last in s.jobs && s.jobs[last].job == h) {
      if Targeted(s, keys, h) {
        var j :| 0 <= j < |keys| && keys[j] in s.jobs && s.jobs[keys[j]].job == h;
        if j < |front| {
          assert keys[j] == front[j];
        }
      }
      if Targeted(s, front, h) {
        var j :| 0 <= j < |front| && front[j] in s.jobs && s.jobs[front[j]].job == h;
        assert keys[j] == front[j];
      }
      if last in s.jobs && s.jobs[last].job == h {
        assert keys[|front|] == last;
      }
    }
  }

  /** `cancelAll()`: every registered job is signalled. */
  function CancelAllJobs<S, R, E>(s: Snapshot<S, R, E>): (r: Snapshot<S, R, E>)
    ensures r.(tasks := s.tasks) == s && |r.tasks| == |s.tasks|
    ensures forall h :: 0 <= h < |s.tasks| && IsRegistered(s, h) ==> r.tasks[h] == Stopped(s.tasks[h])
    ensures forall h :: 0 <= h < |s.tasks| && !IsRegistered(s, h) ==> r.tasks[h] == s.tasks[h]
  {
    s.(tasks := seq(|s.tasks|, h requires 0 <= h < |s.tasks| =>
      if IsRegistered(s, h) then Stopped(s.tasks[h]) else s.tasks[h]))
  }

  /** `id ?: System.nanoTime().toString()`. */
  function KeyFor<S, R, E>(s: Snapshot<S, R, E>, id: Option<string>): (k: JobKey)
    ensures id.Some? ==> k == Named(id.value)
    ensures id.None? ==> k == Auto(s.clock)
  {
    match id
    case Some(name) => Named(name)
    case None => Auto(s.clock)
  }

  /**
   * `run(id, intent)`: resolve the key, cancel the job registered under it,
   * draw a token, create the lazy job, register it under the key and
   * schedule it; its body has not run yet.
   */
  function RunStep<S, R, E>(s: Snapshot<S, R, E>, id: Option<string>, i: Intent3<S, R, E>): (r: Snapshot<S, R, E>)
    ensures var key := KeyFor(s, id);
      && |r.tasks| == |s.tasks| + 1
      && r.tasks[|s.tasks|] == Task(key, s.nextToken, i, [], Active, false)
      && r.jobs == s.jobs[key := IntentJob(s.nextToken, i, |s.tasks|)]
      && (forall h :: 0 <= h < |s.tasks| ==>
            r.tasks[h] == if key in s.jobs && s.jobs[key].job == h then Stopped(s.tasks[h]) else s.tasks[h])
      && r.state == s.state && r.published == s.published && r.effects == s.effects
      && r.nextToken == s.nextToken + 1
      && r.clock == (if id.None? then s.clock + 1 else s.clock)
  {
    var key := KeyFor(s, id);
    Register(CancelKey(s.(clock := if id.None? then s.clock + 1 else s.clock), key), key, i)
  }

  /**
   * Draw a token, create the job, not yet started, and install it under `key`.
   */
  function Register<S, R, E>(s: Snapshot<S, R, E>, key: JobKey, i: Intent3<S, R, E>): (r: Snapshot<S, R, E>)
    ensures |r.tasks| == |s.tasks| + 1 && r.tasks[..|s.tasks|] == s.tasks
    ensures r.tasks[|s.tasks|] == Task(key, s.nextToken, i, [], Active, false)
    ensures r.jobs == s.jobs[key := IntentJob(s.nextToken, i, |s.tasks|)] && r.nextToken == s.nextToken + 1
    ensures r.state == s.state && r.published == s.published && r.effects == s.effects && r.clock == s.clock
  {
    var token := s.nextToken;
    s.(nextToken := token + 1,
       tasks := s.tasks + [Task(key, token, i, [], Active, false)],
       jobs := s.jobs[key := IntentJob(token, i, |s.tasks|)])
  }

  /**
   * The intent `runCancellationAndSideEffectIfNeeded` re-dispatches: no
   * trigger, identity reducer, and a side-effect that runs the cancelled
   * intent's side-effect with the cancelling result.
   */
  function AfterCancelIntent<S(!new), R(!new), E>(i: Intent3<S, R, E>, result: Option<R>): (j: Intent3<S, R, E>)
    ensures forall st :: j.onTrigger(st) == None
    ensures j.cancelTrigger == None && !j.runSideEffectAfterCancel
    ensures forall r, st :: j.reducer(r, st) == st
    ensures forall r, st :: SideEffectOutput(j, r, st) == SideEffectOutput(i, result, st)
  {
    WithSideEffect(Default(), (c: IntentContext<S, R>) => SideEffectOutput(i, result, c.state))
  }

  /**
   * `runCancellationAndSideEffectIfNeeded(result, intent, jobId)`: the job
   * registered under `key` is signalled; state, published values and
   * effects are untouched; and only when `runSideEffectAfterCancel` is set
   * one more job, carrying the side-effect, is submitted under a fresh
   * automatic key (which, in a valid snapshot, names no job: see
   * `AfterCancelKeyIsFresh`).
   */
  function RunCancellationAndSideEffectIfNeeded<S(!new), R(!new), E>(
    s: Snapshot<S, R, E>, result: Option<R>, i: Intent3<S, R, E>, key: JobKey): (r: Snapshot<S, R, E>)
    ensures r.state == s.state && r.published == s.published && r.effects == s.effects
    ensures |r.tasks| == |s.tasks| + if i.runSideEffectAfterCancel then 1 else 0
    ensures forall h :: 0 <= h < |s.tasks| ==>
      r.tasks[h] == if (key in s.jobs && s.jobs[key].job == h)
                       || (i.runSideEffectAfterCancel && Auto(s.clock) in s.jobs && s.jobs[Auto(s.clock)].job == h)
                    then Stopped(s.tasks[h]) else s.tasks[h]
    ensures !i.runSideEffectAfterCancel ==>
      r.jobs == s.jobs && r.nextToken == s.nextToken && r.clock == s.clock
    ensures i.runSideEffectAfterCancel ==>
      && r.tasks[|s.tasks|] == Task(Auto(s.clock), s.nextToken, AfterCancelIntent(i, result), [], Active, false)
      && r.jobs == s.jobs[Auto(s.clock) := IntentJob(s.nextToken, AfterCancelIntent(i, result), |s.tasks|)]
      && r.nextToken == s.nextToken + 1 && r.clock == s.clock + 1
  {
    var s1 := CancelKeys(s, [key]);
    assert forall h :: Targeted(s, [key], h) <==> key in s.jobs && s.jobs[key].job == h by {
      forall h ensures Targeted(s, [key], h) <==> key in s.jobs && s.jobs[key].job == h {
        if key in s.jobs && s.jobs[key].job == h {
          assert [key][0] == key;
        }
      }
    }
    if i.runSideEffectAfterCancel then RunStep(s1, None, AfterCancelIntent(i, result)) else s1
  }

  /**
   * In a valid snapshot the automatic key drawn for the re-dispatched
   * side-effect names no job, so the cancellation stops exactly the job
   * registered under `key` and no other.
   */
  lemma AfterCancelKeyIsFresh<S(!new), R(!new), E>(s: Snapshot<S, R, E>, result: Option<R>, i: Intent3<S, R, E>, key: JobKey)
    requires Valid(s)
    ensures Auto(s.clock) !in s.jobs
    ensures var r := RunCancellationAndSideEffectIfNeeded(s, result, i, key);
      forall h :: 0 <= h < |s.tasks| ==>
        r.tasks[h] == if key in s.jobs && s.jobs[key].job == h then Stopped(s.tasks[h]) else s.tasks[h]
  {
  }

  /**
   * `processTriggeredValue`: either the cancel predicate holds, or the
   * reducer replaces the state, the new state is published, and the
   * side-effect runs with the new state.
   */
  function ProcessTriggeredValue<S(!new, ==), R(!new), E>(
    s: Snapshot<S, R, E>, i: Intent3<S, R, E>, result: Option<R>, key: JobKey): (r: Snapshot<S, R, E>)
    requires Observed(s)
    ensures Observed(r)
    ensures !ShouldCancel(i, result, s.state) ==>
      && r.state == i.reducer(result, s.state)
      && r.published == Publish(s.published, s.state, r.state)
      && r.effects == s.effects + SideEffectOutput(i, result, r.state)
      && r.jobs == s.jobs && r.tasks == s.tasks
    ensures ShouldCancel(i, result, s.state) ==>
      r.state == s.state && r.published == s.published && r.effects == s.effects
  {
    if ShouldCancel(i, result, s.state) then
      RunCancellationAndSideEffectIfNeeded(s, result, i, key)
    else
      var next := i.reducer(result, s.state);
      s.(state := next,
         published := Publish(s.published, s.state, next),
         effects := s.effects + SideEffectOutput(i, result, next))
  }

  /** Job `h` is live and has been scheduled, but its body has not run. */
  predicate CanStart<S(==), R, E>(s: Snapshot<S, R, E>, h: nat)
  {
    Observed(s) && h < |s.tasks| && s.tasks[h].status == Active && !s.tasks[h].started
  }

  /**
   * The body of job `h` starts: it reads the state as it is now, which may
   * differ from the state at submission, and asks the trigger for its flow.
   */
  function StartStep<S(==), R, E>(s: Snapshot<S, R, E>, h: nat): (r: Snapshot<S, R, E>)
    requires CanStart(s, h)
    ensures Observed(r) && |r.tasks| == |s.tasks|
    ensures r.tasks[h].started && r.tasks[h].pending == Emissions(s.tasks[h].intent, s.state)
    ensures r.tasks[h].key == s.tasks[h].key && r.tasks[h].token == s.tasks[h].token
    ensures r.tasks[h].intent == s.tasks[h].intent && r.tasks[h].status == s.tasks[h].status
    ensures forall k :: 0 <= k < |s.tasks| && k != h ==> r.tasks[k] == s.tasks[k]
    ensures r.state == s.state && r.published == s.published && r.effects == s.effects
    ensures r.jobs == s.jobs && r.nextToken == s.nextToken && r.clock == s.clock
  {
    var t := s.tasks[h];
    s.(tasks := s.tasks[h := t.(started := true, pending := Emissions(t.intent, s.state))])
  }

  /**
   * `run(id, intent)` on a dispatcher that runs the new job's body at once:
   * its flow comes from the state at submission.
   */
  function RunAndStart<S(==), R, E>(s: Snapshot<S, R, E>, id: Option<string>, i: Intent3<S, R, E>): (r: Snapshot<S, R, E>)
    requires Observed(s)
    ensures var key := KeyFor(s, id);
      && Observed(r)
      && |r.tasks| == |s.tasks| + 1
      && r.tasks[|s.tasks|] == Task(key, s.nextToken, i, Emissions(i, s.state), Active, true)
      && r.jobs == s.jobs[key := IntentJob(s.nextToken, i, |s.tasks|)]
      && (forall h :: 0 <= h < |s.tasks| ==>
            r.tasks[h] == if key in s.jobs && s.jobs[key].job == h then Stopped(s.tasks[h]) else s.tasks[h])
      && r.state == s.state && r.published == s.published && r.effects == s.effects
      && r.nextToken == s.nextToken + 1
      && r.clock == (if id.None? then s.clock + 1 else s.clock)
  {
    StartStep(RunStep(s, id, i), |s.tasks|)
  }

  /** Job `h` is live, its body runs, and its flow has a result left to emit. */
  predicate CanEmit<S(==), R, E>(s: Snapshot<S, R, E>, h: nat)
  {
    Observed(s) && h < |s.tasks| && s.tasks[h].status == Active && s.tasks[h].started && |s.tasks[h].pending| > 0
  }

  /** The flow of job `h` hands over its next result, which leaves the job's pending results. */
  function Popped<S(==), R, E>(s: Snapshot<S, R, E>, h: nat): (r: Snapshot<S, R, E>)
    requires CanEmit(s, h)
    ensures Observed(r)
  {
    var t := s.tasks[h];
    s.(tasks := s.tasks[h := t.(pending := t.pending[1..])])
  }

  /** The flow of job `h` emits its next result, which is then processed. */
  function EmitStep<S(!new, ==), R(!new), E>(s: Snapshot<S, R, E>, h: nat): (r: Snapshot<S, R, E>)
    requires CanEmit(s, h)
    ensures Observed(r)
  {
    var t := s.tasks[h];
    ProcessTriggeredValue(Popped(s, h), t.intent, t.pending[0], t.key)
  }

  /** Job `h` has nothing left to do: it was cancelled, or its body ran to the end of its flow. */
  predicate CanComplete<S, R, E>(s: Snapshot<S, R, E>, h: nat)
  {
    h < |s.tasks| && (s.tasks[h].status == Cancelled || (s.tasks[h].status == Active && s.tasks[h].started && s.tasks[h].pending == []))
  }

  /** Job `h` completes; its handler removes `jobs[key]` only if the entry still holds the job's token. */
  function CompleteStep<S, R, E>(s: Snapshot<S, R, E>, h: nat): (r: Snapshot<S, R, E>)
    requires CanComplete(s, h)
    ensures |r.tasks| == |s.tasks| && r.tasks[h].status == Finished && r.tasks[h].pending == []
    ensures forall g :: 0 <= g < |s.tasks| && g != h ==> r.tasks[g] == s.tasks[g]
    ensures r.state == s.state && r.published == s.published && r.effects == s.effects
    ensures r.nextToken == s.nextToken && r.clock == s.clock
  {
    var t := s.tasks[h];
    s.(tasks := s.tasks[h := t.(status := Finished, pending := [])],
       jobs := if t.key in s.jobs && s.jobs[t.key].identifier == t.token then s.jobs - {t.key} else s.jobs)
  }

  // ---------------------------------------------------------------------------
  // The registry invariant is kept by every event.

  /** `r` is `s` with some jobs signalled and nothing else changed. */
  ghost predicate OnlyStopped<S, R, E>(s: Snapshot<S, R, E>, r: Snapshot<S, R, E>)
  {
    && r.state == s.state && r.published == s.published && r.effects == s.effects
    && r.jobs == s.jobs && r.nextToken == s.nextToken && r.clock == s.clock
    && |r.tasks| == |s.tasks|
    && (forall h :: 0 <= h < |s.tasks| ==> r.tasks[h] == s.tasks[h] || r.tasks[h] == Stopped(s.tasks[h]))
  }

  lemma StoppingPreservesValid<S, R, E>(s: Snapshot<S, R, E>, r: Snapshot<S, R, E>)
    requires Valid(s) && OnlyStopped(s, r)
    ensures Valid(r) && Progress(s, r)
  {
    StoppingKeepsRegistry(s, r);
    StoppingKeepsOrder(s, r);
    forall h | 0 <= h < |r.tasks| && r.tasks[h].status == Active ensures IsRegistered(r, h) {
      assert r.tasks[h] == s.tasks[h];
    }
  }

  /** Stopping jobs leaves every registry entry naming its job. */
  lemma StoppingKeepsRegistry<S, R, E>(s: Snapshot<S, R, E>, r: Snapshot<S, R, E>)
    requires Valid(s) && OnlyStopped(s, r)
    ensures forall k :: k in r.jobs ==> Registers(r, k)
  {
    forall k | k in r.jobs ensures Registers(r, k) {
      assert Registers(s, k);
    }
  }

  /** Stopping jobs keeps their tokens and keys, so their order and bounds. */
  lemma StoppingKeepsOrder<S, R, E>(s: Snapshot<S, R, E>, r: Snapshot<S, R, E>)
    requires Valid(s) && OnlyStopped(s, r)
    ensures forall g, h :: 0 <= g < h < |r.tasks| ==> r.tasks[g].token < r.tasks[h].token
    ensures forall h :: 0 <= h < |r.tasks| ==> r.tasks[h].token < r.nextToken
    ensures forall h :: 0 <= h < |r.tasks| && r.tasks[h].key.Auto? ==> r.tasks[h].key.stamp < r.clock
    ensures forall h :: 0 <= h < |r.tasks| && (r.tasks[h].status != Active || !r.tasks[h].started) ==> r.tasks[h].pending == []
    ensures Progress(s, r)
  {
    forall g, h | 0 <= g < h < |r.tasks| ensures r.tasks[g].token < r.tasks[h].token {
      assert s.tasks[g].token < s.tasks[h].token;
    }
  }

  lemma CancelKeysPreservesValid<S, R, E>(s: Snapshot<S, R, E>, keys: seq<JobKey>)
    requires Valid(s)
    ensures Valid(CancelKeys(s, keys)) && Progress(s, CancelKeys(s, keys))
  {
    StoppingPreservesValid(s, CancelKeys(s, keys));
  }

  lemma CancelAllPreservesValid<S, R, E>(s: Snapshot<S, R, E>)
    requires Valid(s)
    ensures Valid(CancelAllJobs(s)) && Progress(s, CancelAllJobs(s))
  {
    StoppingPreservesValid(s, CancelAllJobs(s));
  }

  /** Registering a new live job under a key no live job holds keeps the invariant. */
  lemma RegisterPreservesValid<S, R, E>(s: Snapshot<S, R, E>, key: JobKey, i: Intent3<S, R, E>)
    requires Valid(s)
    requires forall h :: 0 <= h < |s.tasks| && s.tasks[h].key == key ==> s.tasks[h].status != Active
    requires key.Auto? ==> key.stamp < s.clock
    ensures var r := Register(s, key, i);
      Valid(r) && Progress(s, r)
  {
    RegisterKeepsRegistry(s, key, i);
    RegisterKeepsRegistered(s, key, i);
    RegisterKeepsOrder(s, key, i);
  }

  /** After registering, every entry names its job: the new one under `key`, the others as before. */
  lemma RegisterKeepsRegistry<S, R, E>(s: Snapshot<S, R, E>, key: JobKey, i: Intent3<S, R, E>)
    requires Valid(s)
    ensures var r := Register(s, key, i);
      forall k :: k in r.jobs ==> Registers(r, k)
  {
    var r := Register(s, key, i);
    forall k | k in r.jobs ensures Registers(r, k) {
      if k != key {
        assert Registers(s, k);
      }
    }
  }

  /** After registering, every live job is the one registered under its key. */
  lemma RegisterKeepsRegistered<S, R, E>(s: Snapshot<S, R, E>, key: JobKey, i: Intent3<S, R, E>)
    requires Valid(s)
    requires forall h :: 0 <= h < |s.tasks| && s.tasks[h].key == key ==> s.tasks[h].status != Active
    ensures var r := Register(s, key, i);
      forall h :: 0 <= h < |r.tasks| && r.tasks[h].status == Active ==> IsRegistered(r, h)
  {
    var r := Register(s, key, i);
    forall h | 0 <= h < |r.tasks| && r.tasks[h].status == Active ensures IsRegistered(r, h) {
      if h < |s.tasks| {
        assert s.tasks[h].status == Active;
        assert IsRegistered(s, h);
      }
    }
  }

  /** The new job's token is larger than every earlier one, and its stamp is below the clock. */
  lemma RegisterKeepsOrder<S, R, E>(s: Snapshot<S, R, E>, key: JobKey, i: Intent3<S, R, E>)
    requires Valid(s)
    requires key.Auto? ==> key.stamp < s.clock
    ensures var r := Register(s, key, i);
      && (forall g, h :: 0 <= g < h < |r.tasks| ==> r.tasks[g].token < r.tasks[h].token)
      && (forall h :: 0 <= h < |r.tasks| ==> r.tasks[h].token < r.nextToken)
      && (forall h :: 0 <= h < |r.tasks| && r.tasks[h].key.Auto? ==> r.tasks[h].key.stamp < r.clock)
      && (forall h :: 0 <= h < |r.tasks| && (r.tasks[h].status != Active || !r.tasks[h].started) ==> r.tasks[h].pending == [])
      && Progress(s, r)
  {
    var r := Register(s, key, i);
    forall g, h | 0 <= g < h < |r.tasks| ensures r.tasks[g].token < r.tasks[h].token {
      if h < |s.tasks| {
        assert s.tasks[g].token < s.tasks[h].token;
      } else {
        assert s.tasks[g].token < s.nextToken;
      }
    }
  }

  lemma RunPreservesValid<S, R, E>(s: Snapshot<S, R, E>, id: Option<string>, i: Intent3<S, R, E>)
    requires Valid(s)
    ensures Valid(RunStep(s, id, i)) && Progress(s, RunStep(s, id, i))
  {
    var key := KeyFor(s, id);
    var s0 := s.(clock := if id.None? then s.clock + 1 else s.clock);
    var s1 := CancelKey(s0, key);
    StampPreservesValid(s, s0.clock);
    StoppingPreservesValid(s0, s1);
    CancelFreesKey(s0, key);
    RegisterPreservesValid(s1, key, i);
    RunUnfolds(s, id, i);
    ProgressTransitive(s, s1, Register(s1, key, i));
  }

  /** `run` is the cancellation under the resolved key followed by the registration. */
  lemma RunUnfolds<S, R, E>(s: Snapshot<S, R, E>, id: Option<string>, i: Intent3<S, R, E>)
    ensures var key := KeyFor(s, id);
      RunStep(s, id, i) == Register(CancelKey(s.(clock := if id.None? then s.clock + 1 else s.clock), key), key, i)
  {
  }

  lemma RunAndStartPreservesValid<S, R, E>(s: Snapshot<S, R, E>, id: Option<string>, i: Intent3<S, R, E>)
    requires Valid(s)
    ensures Valid(RunAndStart(s, id, i)) && Progress(s, RunAndStart(s, id, i))
  {
    RunPreservesValid(s, id, i);
    StartPreservesValid(RunStep(s, id, i), |s.tasks|);
    ProgressTransitive(s, RunStep(s, id, i), RunAndStart(s, id, i));
  }

  /** Advancing the clock keeps the invariant. */
  lemma StampPreservesValid<S, R, E>(s: Snapshot<S, R, E>, clock: nat)
    requires Valid(s) && s.clock <= clock
    ensures Valid(s.(clock := clock)) && Progress(s, s.(clock := clock))
  {
    var r := s.(clock := clock);
    forall k | k in r.jobs ensures Registers(r, k) {
      assert Registers(s, k);
    }
    forall h | 0 <= h < |r.tasks| && r.tasks[h].status == Active ensures IsRegistered(r, h) {
      assert IsRegistered(s, h);
    }
  }

  /** After `cancelJob(key)` no live job holds `key`. */
  lemma CancelFreesKey<S, R, E>(s: Snapshot<S, R, E>, key: JobKey)
    requires Valid(s)
    ensures var r := CancelKey(s, key);
      forall h :: 0 <= h < |r.tasks| && r.tasks[h].key == key ==> r.tasks[h].status != Active
  {
    var r := CancelKey(s, key);
    forall h | 0 <= h < |r.tasks| && r.tasks[h].key == key ensures r.tasks[h].status != Active {
      if s.tasks[h].status == Active {
        assert IsRegistered(s, h);
      }
    }
  }

  lemma ProgressTransitive<S, R, E>(a: Snapshot<S, R, E>, b: Snapshot<S, R, E>, c: Snapshot<S, R, E>)
    requires Progress(a, b) && Progress(b, c)
    ensures Progress(a, c)
  {
  }

  lemma ProcessPreservesValid<S(!new), R(!new), E>(s: Snapshot<S, R, E>, i: Intent3<S, R, E>, result: Option<R>, key: JobKey)
    requires Valid(s)
    ensures Valid(ProcessTriggeredValue(s, i, result, key)) && Progress(s, ProcessTriggeredValue(s, i, result, key))
  {
    if ShouldCancel(i, result, s.state) {
      var s1 := CancelKeys(s, [key]);
      CancelKeysPreservesValid(s, [key]);
      if i.runSideEffectAfterCancel {
        RunPreservesValid(s1, None, AfterCancelIntent(i, result));
      }
    } else {
      var r := ProcessTriggeredValue(s, i, result, key);
      forall k | k in r.jobs ensures Registers(r, k) {
        assert Registers(s, k);
      }
    }
  }

  lemma StartPreservesValid<S, R, E>(s: Snapshot<S, R, E>, h: nat)
    requires Valid(s) && CanStart(s, h)
    ensures Valid(StartStep(s, h)) && Progress(s, StartStep(s, h))
  {
    StartKeepsRegistry(s, h);
    StartKeepsOrder(s, h);
    var r := StartStep(s, h);
    forall g | 0 <= g < |r.tasks| && r.tasks[g].status == Active ensures IsRegistered(r, g) {
      assert IsRegistered(s, g);
    }
  }

  /** Starting a job's body keeps every token, key and status, and gives only that job a flow. */
  lemma StartKeepsOrder<S, R, E>(s: Snapshot<S, R, E>, h: nat)
    requires Valid(s) && CanStart(s, h)
    ensures var r := StartStep(s, h);
      && (forall g, j :: 0 <= g < j < |r.tasks| ==> r.tasks[g].token < r.tasks[j].token)
      && (forall g :: 0 <= g < |r.tasks| ==> r.tasks[g].token < r.nextToken)
      && (forall g :: 0 <= g < |r.tasks| && r.tasks[g].key.Auto? ==> r.tasks[g].key.stamp < r.clock)
      && (forall g :: 0 <= g < |r.tasks| && (r.tasks[g].status != Active || !r.tasks[g].started) ==> r.tasks[g].pending == [])
      && Progress(s, r)
  {
    var r := StartStep(s, h);
    forall g, j | 0 <= g < j < |r.tasks| ensures r.tasks[g].token < r.tasks[j].token {
      assert s.tasks[g].token < s.tasks[j].token;
    }
  }

  /** Starting a job's body leaves every registry entry naming its job. */
  lemma StartKeepsRegistry<S, R, E>(s: Snapshot<S, R, E>, h: nat)
    requires Valid(s) && CanStart(s, h)
    ensures var r := StartStep(s, h); forall k :: k in r.jobs ==> Registers(r, k)
  {
    var r := StartStep(s, h);
    forall k | k in r.jobs ensures Registers(r, k) {
      assert Registers(s, k);
    }
  }

  lemma PopPreservesValid<S, R, E>(s: Snapshot<S, R, E>, h: nat)
    requires Valid(s) && CanEmit(s, h)
    ensures Valid(Popped(s, h)) && Progress(s, Popped(s, h))
  {
    PopKeepsRegistry(s, h);
    var s1 := Popped(s, h);
    forall g | 0 <= g < |s1.tasks| && s1.tasks[g].status == Active ensures IsRegistered(s1, g) {
      assert IsRegistered(s, g);
    }
  }

  /** Handing over a result leaves every registry entry naming its job. */
  lemma PopKeepsRegistry<S, R, E>(s: Snapshot<S, R, E>, h: nat)
    requires Valid(s) && CanEmit(s, h)
    ensures var r := Popped(s, h); forall k :: k in r.jobs ==> Registers(r, k)
  {
    var r := Popped(s, h);
    forall k | k in r.jobs ensures Registers(r, k) {
      assert Registers(s, k);
    }
  }

  lemma EmitPreservesValid<S(!new), R(!new), E>(s: Snapshot<S, R, E>, h: nat)
    requires Valid(s) && CanEmit(s, h)
    ensures Valid(EmitStep(s, h)) && Progress(s, EmitStep(s, h))
  {
    var t := s.tasks[h];
    PopPreservesValid(s, h);
    ProcessPreservesValid(Popped(s, h), t.intent, t.pending[0], t.key);
    ProgressTransitive(s, Popped(s, h), EmitStep(s, h));
  }

  /** Two jobs holding the same token are the same job. */
  lemma TokenIdentifiesJob<S, R, E>(s: Snapshot<S, R, E>, g: nat, h: nat)
    requires Valid(s) && g < |s.tasks| && h < |s.tasks| && s.tasks[g].token == s.tasks[h].token
    ensures g == h
  {
  }

  lemma CompletePreservesValid<S, R, E>(s: Snapshot<S, R, E>, h: nat)
    requires Valid(s) && CanComplete(s, h)
    ensures Valid(CompleteStep(s, h)) && Progress(s, CompleteStep(s, h))
  {
    CompleteKeepsRegistry(s, h);
    CompleteKeepsRegistered(s, h);
    CompleteKeepsTasks(s, h);
  }

  /** After a completion every remaining entry still names its job. */
  lemma CompleteKeepsRegistry<S, R, E>(s: Snapshot<S, R, E>, h: nat)
    requires Valid(s) && CanComplete(s, h)
    ensures var r := CompleteStep(s, h); forall k :: k in r.jobs ==> Registers(r, k)
  {
    var r := CompleteStep(s, h);
    var t := s.tasks[h];
    if t.key in s.jobs && s.jobs[t.key].identifier == t.token {
      assert Registers(s, t.key);
      TokenIdentifiesJob(s, s.jobs[t.key].job, h);
    }
    forall k | k in r.jobs ensures Registers(r, k) {
      assert Registers(s, k);
    }
  }

  /** After a completion every live job is still registered. */
  lemma CompleteKeepsRegistered<S, R, E>(s: Snapshot<S, R, E>, h: nat)
    requires Valid(s) && CanComplete(s, h)
    ensures var r := CompleteStep(s, h);
      forall g :: 0 <= g < |r.tasks| && r.tasks[g].status == Active ==> IsRegistered(r, g)
  {
    var r := CompleteStep(s, h);
    forall g | 0 <= g < |r.tasks| && r.tasks[g].status == Active ensures IsRegistered(r, g) {
      assert IsRegistered(s, g);
    }
  }

  /** A completion changes only job `h`'s status and flow, and the registry. */
  lemma CompleteKeepsTasks<S, R, E>(s: Snapshot<S, R, E>, h: nat)
    requires Valid(s) && CanComplete(s, h)
    ensures var r := CompleteStep(s, h);
      && (forall g :: 0 <= g < |r.tasks| && (r.tasks[g].status != Active || !r.tasks[g].started) ==> r.tasks[g].pending == [])
      && (forall g, j :: 0 <= g < j < |r.tasks| ==> r.tasks[g].token < r.tasks[j].token)
      && (forall g :: 0 <= g < |r.tasks| ==> r.tasks[g].token < r.nextToken)
      && (forall g :: 0 <= g < |r.tasks| && r.tasks[g].key.Auto? ==> r.tasks[g].key.stamp < r.clock)
      && Progress(s, r)
  {
    var r := CompleteStep(s, h);
    forall g, j | 0 <= g < j < |r.tasks| ensures r.tasks[g].token < r.tasks[j].token {
      assert s.tasks[g].token < s.tasks[j].token;
    }
  }

  // ---------------------------------------------------------------------------
  // Registry properties.

  /** Two live jobs never share a key. */
  lemma AtMostOneActivePerKey<S, R, E>(s: Snapshot<S, R, E>, g: nat, h: nat)
    requires Valid(s) && g < |s.tasks| && h < |s.tasks|
    requires s.tasks[g].status == Active && s.tasks[h].status == Active
    requires s.tasks[g].key == s.tasks[h].key
    ensures g == h
  {
    assert IsRegistered(s, g) && IsRegistered(s, h);
  }

  /**
   * Submitting under an id that already has a job cancels that job and
   * overwrites the entry: no earlier job of that id can emit again, and the
   * id's only live job is the new one.
   */
  lemma RunReplacesJob<S(!new), R(!new), E>(s: Snapshot<S, R, E>, id: string, i: Intent3<S, R, E>)
    requires Valid(s)
    ensures var r := RunStep(s, Some(id), i);
      && r.jobs[Named(id)].job == |s.tasks|
      && (forall h :: 0 <= h < |s.tasks| && s.tasks[h].key == Named(id) ==> !CanEmit(r, h) && r.tasks[h].status != Active)
      && (forall h :: 0 <= h < |r.tasks| && r.tasks[h].status == Active && r.tasks[h].key == Named(id) ==> h == |s.tasks|)
  {
    var r := RunStep(s, Some(id), i);
    RunPreservesValid(s, Some(id), i);
    forall h | 0 <= h < |s.tasks| && s.tasks[h].key == Named(id) ensures r.tasks[h].status != Active {
      if s.tasks[h].status == Active {
        assert IsRegistered(s, h);
      }
    }
    forall h | 0 <= h < |r.tasks| && r.tasks[h].status == Active && r.tasks[h].key == Named(id) ensures h == |s.tasks| {
      AtMostOneActivePerKey(r, h, |s.tasks|);
    }
  }

  /** A job submitted without an id takes a fresh key: no other job is cancelled. */
  lemma RunWithoutIdCancelsNothing<S, R, E>(s: Snapshot<S, R, E>, i: Intent3<S, R, E>)
    requires Valid(s)
    ensures RunStep(s, None, i).tasks[..|s.tasks|] == s.tasks
    ensures RunStep(s, None, i).jobs.Keys == s.jobs.Keys + {Auto(s.clock)}
    ensures Auto(s.clock) !in s.jobs
  {
    if Auto(s.clock) in s.jobs {
      assert false;
    }
    var r := RunStep(s, None, i);
    assert forall h :: 0 <= h < |s.tasks| ==> r.tasks[h] == s.tasks[h];
  }

  /** The completion of a job that was replaced never evicts its successor's entry. */
  lemma ReplacedCompletionKeepsSuccessor<S, R, E>(s: Snapshot<S, R, E>, h: nat)
    requires Valid(s) && CanComplete(s, h) && !IsRegistered(s, h)
    ensures CompleteStep(s, h).jobs == s.jobs
  {
    var t := s.tasks[h];
    if t.key in s.jobs && s.jobs[t.key].identifier == t.token {
      assert false;
    }
  }

  /** The completion of the registered job removes its entry and no other. */
  lemma CurrentCompletionRemovesEntry<S, R, E>(s: Snapshot<S, R, E>, h: nat)
    requires Valid(s) && CanComplete(s, h) && IsRegistered(s, h)
    ensures CompleteStep(s, h).jobs == s.jobs - {s.tasks[h].key}
  {
    assert Registers(s, s.tasks[h].key);
  }

  /** `cancel(ids)` signals exactly the registered jobs whose key is listed. */
  lemma CancelSignalsOnlyListed<S, R, E>(s: Snapshot<S, R, E>, keys: seq<JobKey>)
    requires Valid(s)
    ensures forall h :: 0 <= h < |s.tasks| ==>
      CancelKeys(s, keys).tasks[h] ==
        if s.tasks[h].key in keys && IsRegistered(s, h) then Stopped(s.tasks[h]) else s.tasks[h]
    ensures CancelKeys(s, keys).jobs == s.jobs
  {
    forall h | 0 <= h < |s.tasks| ensures Targeted(s, keys, h) <==> s.tasks[h].key in keys && IsRegistered(s, h) {
      if Targeted(s, keys, h) {
        var j :| 0 <= j < |keys| && keys[j] in s.jobs && s.jobs[keys[j]].job == h;
        assert Registers(s, keys[j]);
      }
      if s.tasks[h].key in keys && IsRegistered(s, h) {
        var j :| 0 <= j < |keys| && keys[j] == s.tasks[h].key;
        assert keys[j] in s.jobs && s.jobs[keys[j]].job == h;
      }
    }
  }

  /** After `cancelAll()` no job is live; registered jobs are the ones signalled, and the registry is unchanged. */
  lemma CancelAllStopsEveryJob<S, R, E>(s: Snapshot<S, R, E>)
    requires Valid(s)
    ensures var r := CancelAllJobs(s);
      && r.jobs == s.jobs
      && (forall h :: 0 <= h < |r.tasks| ==> r.tasks[h].status != Active)
      && (forall k :: k in s.jobs ==> r.tasks[s.jobs[k].job] == Stopped(s.tasks[s.jobs[k].job]))
  {
    var r := CancelAllJobs(s);
    forall k | k in s.jobs ensures r.tasks[s.jobs[k].job] == Stopped(s.tasks[s.jobs[k].job]) {
      assert Registers(s, k);
    }
  }

  // ---------------------------------------------------------------------------
  // Result processing.

  /** An intent whose trigger gives no flow in the state its body starts in makes one pass with a `null` result. */
  lemma TriggerlessIsOnePass<S, R, E>(s: Snapshot<S, R, E>, h: nat)
    requires CanStart(s, h) && s.tasks[h].intent.onTrigger(s.state) == None
    ensures StartStep(s, h).tasks[h].pending == [None] && CanEmit(StartStep(s, h), h)
  {
  }

  /**
   * The default intent (no trigger, identity reducer, no side-effect) makes
   * exactly one pass, which changes neither the state, the observed stream
   * nor the side-effect output.
   */
  lemma DefaultIntentIsInert<S(!new), R(!new), E>(s: Snapshot<S, R, E>, id: Option<string>)
    requires Valid(s)
    ensures var s0 := RunStep(s, id, Default());
      && CanStart(s0, |s.tasks|)
      && var s1 := StartStep(s0, |s.tasks|);
      && CanEmit(s1, |s.tasks|)
      && var s2 := EmitStep(s1, |s.tasks|);
      && s2.state == s.state && s2.published == s.published && s2.effects == s.effects
      && !CanEmit(s2, |s.tasks|) && CanComplete(s2, |s.tasks|)
  {
    var n := |s.tasks|;
    var s1 := StartStep(RunStep(s, id, Default()), n);
    assert s1.tasks[n].pending == [None];
    var t := s1.tasks[n];
    var s1' := Popped(s1, n);
    assert !ShouldCancel(t.intent, None, s1'.state);
  }

  /**
   * A cancel predicate that holds for the emitted result: the reducer is not
   * applied, the job is cancelled with its later results dropped, and only
   * when `runSideEffectAfterCancel` is set a trigger-less intent carrying the
   * side-effect is submitted under a fresh key.
   */
  lemma CancelPredicateStopsJob<S(!new), R(!new), E>(s: Snapshot<S, R, E>, h: nat)
    requires Valid(s) && CanEmit(s, h)
    requires ShouldCancel(s.tasks[h].intent, s.tasks[h].pending[0], s.state)
    ensures var t := s.tasks[h];
      var r := EmitStep(s, h);
      && r.state == s.state && r.published == s.published && r.effects == s.effects
      && r.tasks[h].status == Cancelled && r.tasks[h].pending == []
      && (!t.intent.runSideEffectAfterCancel ==> |r.tasks| == |s.tasks| && r.jobs == s.jobs)
      && (t.intent.runSideEffectAfterCancel ==>
            && |r.tasks| == |s.tasks| + 1
            && r.tasks[|s.tasks|] == Task(Auto(s.clock), s.nextToken, AfterCancelIntent(t.intent, t.pending[0]), [], Active, false))
  {
    var t := s.tasks[h];
    var s1 := Popped(s, h);
    assert IsRegistered(s, h);
    assert Targeted(s1, [t.key], h) by {
      assert [t.key][0] in s1.jobs && s1.jobs[[t.key][0]].job == h;
    }
    var s2 := CancelKeys(s1, [t.key]);
    assert s2.tasks[h] == Stopped(s1.tasks[h]);
  }

  /**
   * A result the cancel predicate lets through is reduced with the current
   * state, the new state is published and handed to the side-effect, and
   * only the job's own flow advances.
   */
  lemma UncancelledResultIsReduced<S(!new), R(!new), E>(s: Snapshot<S, R, E>, h: nat)
    requires CanEmit(s, h)
    requires !ShouldCancel(s.tasks[h].intent, s.tasks[h].pending[0], s.state)
    ensures var t := s.tasks[h];
      var r := EmitStep(s, h);
      var next := t.intent.reducer(t.pending[0], s.state);
      && r.state == next
      && r.published == Publish(s.published, s.state, next)
      && r.effects == s.effects + SideEffectOutput(t.intent, t.pending[0], next)
      && r.tasks == s.tasks[h := t.(pending := t.pending[1..])]
      && r.jobs == s.jobs && r.nextToken == s.nextToken && r.clock == s.clock
  {
  }

  /**
   * The re-dispatched intent runs the cancelled intent's side-effect exactly
   * once, with the cancelling result and the current state, and leaves the
   * state alone.
   */
  lemma AfterCancelRunsSideEffectOnce<S(!new), R(!new), E>(s: Snapshot<S, R, E>, g: nat, i: Intent3<S, R, E>, result: Option<R>)
    requires Valid(s) && CanEmit(s, g)
    requires s.tasks[g].intent == AfterCancelIntent(i, result) && s.tasks[g].pending == [None]
    ensures var r := EmitStep(s, g);
      && r.state == s.state && r.published == s.published
      && r.effects == s.effects + SideEffectOutput(i, result, s.state)
      && !CanEmit(r, g)
  {
  }

  /** The state after reducing `results` in emission order, from `state`. */
  function Reduced<S, R, E>(i: Intent3<S, R, E>, results: seq<Option<R>>, state: S): S
    decreases |results|
  {
    if results == [] then state else Reduced(i, results[1..], i.reducer(results[0], state))
  }

  /** The side-effect output of reducing `results` in order, each run with the state its result produced. */
  function Effects<S, R, E>(i: Intent3<S, R, E>, results: seq<Option<R>>, state: S): seq<E>
    decreases |results|
  {
    if results == [] then []
    else
      var next := i.reducer(results[0], state);
      SideEffectOutput(i, results[0], next) + Effects(i, results[1..], next)
  }

  /**
   * Job `h` is live, its body runs, and it processes every result: its
   * cancel predicate, if it has one (a mapped intent always does), never
   * holds.
   */
  ghost predicate Drainable<S(!new), R(!new), E>(s: Snapshot<S, R, E>, h: nat)
  {
    && Valid(s) && h < |s.tasks| && s.tasks[h].status == Active && s.tasks[h].started
    && forall r: Option<R>, st: S :: !ShouldCancel(s.tasks[h].intent, r, st)
  }

  lemma EmitKeepsDrainable<S(!new), R(!new), E>(s: Snapshot<S, R, E>, h: nat)
    requires Drainable(s, h) && CanEmit(s, h)
    ensures var r := EmitStep(s, h);
      && Drainable(r, h) && r.tasks[h].intent == s.tasks[h].intent
      && r.tasks[h].pending == s.tasks[h].pending[1..]
      && r.state == s.tasks[h].intent.reducer(s.tasks[h].pending[0], s.state)
      && r.effects == s.effects + SideEffectOutput(s.tasks[h].intent, s.tasks[h].pending[0], r.state)
  {
    EmitPreservesValid(s, h);
  }

  /** Job `h` emitting every result it has left, with no other event in between. */
  ghost function Drain<S(!new), R(!new), E>(s: Snapshot<S, R, E>, h: nat): (r: Snapshot<S, R, E>)
    requires Drainable(s, h)
    ensures Drainable(r, h) && r.tasks[h].pending == []
    decreases |s.tasks[h].pending|
  {
    if s.tasks[h].pending == [] then s
    else
      EmitKeepsDrainable(s, h);
      Drain(EmitStep(s, h), h)
  }

  /** The results of one trigger are processed in emission order: the final state is the left fold of the reducer over them. */
  lemma {:induction false} DrainReducesInOrder<S(!new), R(!new), E>(s: Snapshot<S, R, E>, h: nat)
    requires Drainable(s, h)
    ensures Drain(s, h).state == Reduced(s.tasks[h].intent, s.tasks[h].pending, s.state)
    decreases |s.tasks[h].pending|
  {
    if s.tasks[h].pending != [] {
      DrainUnfolds(s, h);
      DrainReducesInOrder(EmitStep(s, h), h);
    }
  }

  /** The side-effect output of a drain is that of each result, in order, run with the state it produced. */
  lemma {:induction false} DrainRunsEffectsInOrder<S(!new), R(!new), E>(s: Snapshot<S, R, E>, h: nat)
    requires Drainable(s, h)
    ensures Drain(s, h).effects == s.effects + Effects(s.tasks[h].intent, s.tasks[h].pending, s.state)
    decreases |s.tasks[h].pending|
  {
    if s.tasks[h].pending != [] {
      var t := s.tasks[h];
      var r := EmitStep(s, h);
      DrainUnfolds(s, h);
      DrainRunsEffectsInOrder(r, h);
      var out := SideEffectOutput(t.intent, t.pending[0], r.state);
      var rest := Effects(t.intent, t.pending[1..], r.state);
      assert Effects(t.intent, t.pending, s.state) == out + rest;
      assert Drain(s, h).effects == r.effects + rest;
      AppendAssociates(s.effects, out, rest);
    }
  }

  /** One emission of a drainable job is the first step of its drain. */
  lemma DrainUnfolds<S(!new), R(!new), E>(s: Snapshot<S, R, E>, h: nat)
    requires Drainable(s, h) && s.tasks[h].pending != []
    ensures var r := EmitStep(s, h);
      && Drainable(r, h) && Drain(s, h) == Drain(r, h)
      && r.tasks[h].intent == s.tasks[h].intent && r.tasks[h].pending == s.tasks[h].pending[1..]
      && r.state == s.tasks[h].intent.reducer(s.tasks[h].pending[0], s.state)
      && r.effects == s.effects + SideEffectOutput(s.tasks[h].intent, s.tasks[h].pending[0], r.state)
  {
    EmitKeepsDrainable(s, h);
  }
}
