/**
 * The store object itself. Its fields are the parts of `Snapshot`; every
 * method is proved to perform exactly the matching step of `Store3Model`
 * and to keep the registry invariant.
 */
module Store3Runtime {
  import opened MviCommon
  import opened Intent3Algebra
  import opened Store3Model

  class Store3<S(!new, ==), R(!new), E> {
    /** `_state.value`. */
    var state: S
    /** The distinct values `state` has taken, in order. */
    var published: seq<S>
    /** The output of the side-effects run so far. */
    var effects: seq<E>
    /** The job registry, `jobs`. */
    var jobs: map<JobKey, IntentJob<S, R, E>>
    /** Every job launched so far: the coroutines of the store's scope. */
    var tasks: seq<Task<S, R, E>>
    /** The next value `Random.nextLong()` hands out. */
    var nextToken: nat
    /** The next value `System.nanoTime()` hands out. */
    var clock: nat

    function Abs(): Snapshot<S, R, E>
      reads this
    {
      Snapshot(state, published, effects, jobs, tasks, nextToken, clock)
    }

    ghost predicate Valid()
      reads this
    {
      Store3Model.Valid(Abs())
    }

    /** `Store3(scope, defaultState)`. */
    constructor (defaultState: S)
      ensures Abs() == Initial(defaultState) && Valid()
    {
      state, published, effects := defaultState, [defaultState], [];
      jobs, tasks, nextToken, clock := map[], [], 0, 0;
    }

    /** `jobs[key]?.cancelJob()`. */
    method CancelJob(key: JobKey)
      modifies this
      ensures Abs() == CancelKey(old(Abs()), key)
    {
      if key in jobs && jobs[key].job < |tasks| {
        var j := jobs[key].job;
        tasks := tasks[j := Stopped(tasks[j])];
      }
    }

    /** `run(id, intent)`. */
    method Run(id: Option<string>, intent: Intent3<S, R, E>)
      requires Valid()
      modifies this
      ensures Abs() == RunStep(old(Abs()), id, intent) && Valid()
    {
      ghost var before := Abs();
      RunPreservesValid(before, id, intent);
      var newJobId := KeyFor(Abs(), id);
      if id.None? {
        clock := clock + 1;
      }
      ghost var stamped := Abs();
      assert stamped == before.(clock := if id.None? then before.clock + 1 else before.clock);
      CancelJob(newJobId);
      InstallJob(newJobId, intent);
      assert Abs() == Register(CancelKey(stamped, newJobId), newJobId, intent);
    }

    /** The rest of `run`: draw a token, create the lazy job, install it under `key` and schedule it. */
    method InstallJob(key: JobKey, intent: Intent3<S, R, E>)
      modifies this
      ensures Abs() == Register(old(Abs()), key, intent)
    {
      var identifier := nextToken;
      nextToken := nextToken + 1;
      var job := |tasks|;
      tasks := tasks + [Task(key, identifier, intent, [], Active, false)];
      jobs := jobs[key := IntentJob(identifier, intent, job)];
    }

    /** `intent(id, builder)`: build the intent, then `run` it. */
    method IntentWithBuilder(id: Option<string>, builder: IntentBuilder<S, R, E>)
      requires Valid()
      modifies this
      ensures Abs() == RunStep(old(Abs()), id, builder.Fields()) && Valid()
    {
      var intent := builder.Build();
      Run(id, intent);
    }

    /** `intent(id) { block }`: a fresh builder, the block, `build()`, `run`. */
    method Intent(id: Option<string>, block: Intent3<S, R, E> -> Intent3<S, R, E>)
      requires Valid()
      modifies this
      ensures Abs() == RunStep(old(Abs()), id, IntentOf(block)) && Valid()
    {
      var builder := new IntentBuilder.Of(IntentOf(block));
      IntentWithBuilder(id, builder);
    }

    /** `triggerIntent { func }`. */
    method TriggerIntent(func: IntentContext<S, R> -> Option<seq<R>>)
      requires Valid()
      modifies this
      ensures Abs() == RunStep(old(Abs()), None, WithTrigger(Default(), func)) && Valid()
    {
      var builder := new IntentBuilder();
      builder.OnTrigger(func);
      IntentWithBuilder(None, builder);
    }

    /** `reducerIntent { func }`. */
    method ReducerIntent(func: IntentContext<S, R> -> S)
      requires Valid()
      modifies this
      ensures Abs() == RunStep(old(Abs()), None, WithReducer(Default(), func)) && Valid()
    {
      var builder := new IntentBuilder();
      builder.Reducer(func);
      IntentWithBuilder(None, builder);
    }

    /** `sideEffectIntent { func }` (and the deprecated `sideEffect { func }`). */
    method SideEffectIntent(func: IntentContext<S, R> -> seq<E>)
      requires Valid()
      modifies this
      ensures Abs() == RunStep(old(Abs()), None, WithSideEffect(Default(), func)) && Valid()
    {
      var builder := new IntentBuilder();
      builder.SideEffect(func);
      IntentWithBuilder(None, builder);
    }

    /** `cancel(*ids)`. */
    method Cancel(keys: seq<JobKey>)
      modifies this
      ensures Abs() == CancelKeys(old(Abs()), keys)
      ensures old(Valid()) ==> Valid()
    {
      var n := 0;
      while n < |keys|
        invariant 0 <= n <= |keys|
        invariant Abs() == CancelKeys(old(Abs()), keys[..n])
      {
        assert keys[..n + 1][..n] == keys[..n];
        CancelJob(keys[n]);
        n := n + 1;
      }
      assert keys[..n] == keys;
      if old(Valid()) {
        CancelKeysPreservesValid(old(Abs()), keys);
      }
    }

    /** `cancelAll()`: cancel the job of every registry entry. */
    method CancelAll()
      requires Valid()
      modifies this
      ensures Abs() == CancelAllJobs(old(Abs())) && Valid()
    {
      ghost var s := Abs();
      var remaining := jobs.Keys;
      ghost var done: set<JobKey> := {};
      while remaining != {}
        invariant remaining + done == s.jobs.Keys && remaining !! done
        invariant Abs().(tasks := s.tasks) == s && |tasks| == |s.tasks|
        invariant forall h :: 0 <= h < |tasks| ==>
          tasks[h] == if IsRegistered(s, h) && s.tasks[h].key in done then Stopped(s.tasks[h]) else s.tasks[h]
        decreases remaining
      {
        var k :| k in remaining;
        assert Registers(s, k);
        CancelJob(k);
        remaining := remaining - {k};
        done := done + {k};
      }
      assert tasks == CancelAllJobs(s).tasks;
      CancelAllPreservesValid(s);
    }

    /** `processTriggeredValue(intent, result, jobId)`. */
    method ProcessTriggeredValue(intent: Intent3<S, R, E>, result: Option<R>, jobId: JobKey)
      requires Valid()
      modifies this
      ensures Abs() == Store3Model.ProcessTriggeredValue(old(Abs()), intent, result, jobId) && Valid()
    {
      ProcessPreservesValid(Abs(), intent, result, jobId);
      var shouldCancel := ShouldCancel(intent, result, state);
      if shouldCancel {
        RunCancellationAndSideEffectIfNeeded(result, intent, jobId);
      } else {
        var oldStateValue := state;
        var next := intent.reducer(result, oldStateValue);
        published := Publish(published, oldStateValue, next);
        state := next;
        effects := effects + SideEffectOutput(intent, result, state);
      }
    }

    /** `runCancellationAndSideEffectIfNeeded(result, intent, jobId)`. */
    method RunCancellationAndSideEffectIfNeeded(result: Option<R>, intent: Intent3<S, R, E>, jobId: JobKey)
      requires Valid()
      modifies this
      ensures Abs() == Store3Model.RunCancellationAndSideEffectIfNeeded(old(Abs()), result, intent, jobId) && Valid()
    {
      Cancel([jobId]);
      if intent.runSideEffectAfterCancel {
        var builder := new IntentBuilder();
        builder.SideEffect((c: IntentContext<S, R>) => SideEffectOutput(intent, result, c.state));
        IntentWithBuilder(None, builder);
      }
    }

    /** The body of job `h` starts: `intent.onTrigger(_state.value) ?: flowOf(null)`, read now. */
    method Start(h: nat)
      requires Valid() && CanStart(Abs(), h)
      modifies this
      ensures Abs() == StartStep(old(Abs()), h) && Valid()
    {
      StartPreservesValid(Abs(), h);
      var t := tasks[h];
      var flow := Emissions(t.intent, state);
      tasks := tasks[h := t.(started := true, pending := flow)];
    }

    /** The flow of job `h` emits its next result and the store processes it. */
    method Emit(h: nat)
      requires Valid() && CanEmit(Abs(), h)
      modifies this
      ensures Abs() == EmitStep(old(Abs()), h) && Valid()
    {
      PopPreservesValid(Abs(), h);
      var t := tasks[h];
      var result := t.pending[0];
      tasks := tasks[h := t.(pending := t.pending[1..])];
      ProcessTriggeredValue(t.intent, result, t.key);
    }

    /** Job `h` completes and its `invokeOnCompletion` handler runs. */
    method Complete(h: nat)
      requires Valid() && CanComplete(Abs(), h)
      modifies this
      ensures Abs() == CompleteStep(old(Abs()), h) && Valid()
    {
      CompletePreservesValid(Abs(), h);
      var t := tasks[h];
      tasks := tasks[h := t.(status := Finished, pending := [])];
      if t.key in jobs && jobs[t.key].identifier == t.token {
        jobs := jobs - {t.key};
      }
    }
  }
}
