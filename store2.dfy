/**
 * The earlier store object. Its fields are the parts of `Store2Model.Snapshot`;
 * every method is proved to perform exactly the matching step of the model
 * and to keep its invariant.
 */
module Store2Runtime {
  import opened MviCommon
  import opened Intent2Algebra
  import opened Store2Model

  class Store2<S(!new, ==), R(!new), E> {
    /** The constructor's `defaultState`. */
    const defaultState: S
    /** `_state.value`. */
    var state: S
    /** The distinct values `state` has taken, in order. */
    var published: seq<S>
    /** The output of the side-effects run so far. */
    var effects: seq<E>
    /** Where the collector `init` launches stands. */
    var collector: Collector
    /** The accumulator of the collector's `runningReduce`; `None` until an element reaches it. */
    var acc: Option<Intent2<S, R, E>>
    /** `pause.value`. */
    var pause: bool
    /** The job registry, `jobs`. */
    var jobs: map<string, Entry>
    /** Every job launched so far. */
    var tasks: seq<Job<S, R, E>>
    /** The next value `Random.nextLong()` hands out. */
    var nextToken: nat

    function Abs(): Snapshot<S, R, E>
      reads this
    {
      Snapshot(defaultState, state, published, effects, collector, acc, pause, jobs, tasks, nextToken)
    }

    ghost predicate Valid()
      reads this
    {
      Store2Model.Valid(Abs())
    }

    /** `Store2(scope, defaultState)`. */
    constructor (defaultState: S)
      ensures Abs() == Initial(defaultState) && Valid()
    {
      this.defaultState := defaultState;
      state, published, effects, collector, acc, pause := defaultState, [defaultState], [], Idle, None, false;
      jobs, tasks, nextToken := map[], [], 0;
    }

    /** One element of the intent stream reaches the collector, if it is subscribed. */
    method Deliver(env: Intent2<S, R, E>)
      requires Ready(Abs())
      requires acc.None? && collector == Subscribed ==> env.state.Some?
      modifies this
      ensures Abs() == Store2Model.Deliver(old(Abs()), env)
    {
      if collector == Subscribed {
        var a := if acc.None? then env else FoldStep(acc.value, env);
        var oldState := state;
        acc := Some(a);
        state := a.state.value;
        published := Publish(published, oldState, state);
        effects := effects + OnEachEffects(a);
      }
    }

    /** `init()`; `collectorFirst` says whether the launched collector subscribes before the seed is emitted. */
    method Init(collectorFirst: bool)
      requires Valid() && collector == Idle
      modifies this
      ensures Abs() == InitStep(old(Abs()), collectorFirst) && Valid()
    {
      InitPreservesValid(Abs(), collectorFirst);
      pause := false;
      collector := if collectorFirst then Subscribed else Queued;
      Deliver(Seed(Some(defaultState), None));
    }

    /** The queued collector subscribes to the intent stream. */
    method Subscribe()
      requires Valid() && collector == Queued
      modifies this
      ensures Abs() == SubscribeStep(old(Abs())) && Valid()
    {
      SubscribePreservesValid(Abs());
      collector := Subscribed;
    }

    /** `cancelFlows()`. */
    method CancelFlows()
      requires Valid()
      modifies this
      ensures Abs() == Store2Model.CancelFlows(old(Abs())) && Valid()
    {
      CancelFlowsPreservesValid(Abs());
      pause := true;
    }

    /** `intent(id) { block }`, that is `intentInternal(id, block)`. */
    method Intent(id: string, block: BuilderFields<S, R, E> -> BuilderFields<S, R, E>)
      requires Valid()
      modifies this
      ensures Abs() == LaunchStep(old(Abs()), id, block(DefaultFields())) && Valid()
    {
      ghost var before := Abs();
      LaunchPreservesValid(before, id, block(DefaultFields()));
      CancelJob(id);
      ghost var cancelled := Abs();
      var intent := LaunchNewJob(block);
      InstallJob(id, intent);
      assert Abs() == Register(cancelled, id, Build(block(DefaultFields())));
    }

    /** `jobs[id]?.second?.cancel()`. */
    method CancelJob(id: string)
      modifies this
      ensures Abs() == CancelId(old(Abs()), id)
    {
      if id in jobs && jobs[id].job < |tasks| {
        var j := jobs[id].job;
        tasks := tasks[j := Stopped(tasks[j])];
      }
    }

    /** Draw the token, schedule the launched job, and register it under a non-empty id. */
    method InstallJob(id: string, intent: Intent2<S, R, E>)
      modifies this
      ensures Abs() == Register(old(Abs()), id, intent)
    {
      var identifier := nextToken;
      nextToken := nextToken + 1;
      var job := |tasks|;
      tasks := tasks + [Job(id, identifier, intent, [], Active, false)];
      if id != "" {
        jobs := jobs[id := Entry(identifier, job)];
      }
    }

    /** The start of `launchNewJob`: a fresh builder, the block, `build()`. */
    method LaunchNewJob(block: BuilderFields<S, R, E> -> BuilderFields<S, R, E>) returns (intent: Intent2<S, R, E>)
      ensures intent == IntentOf(block)
    {
      var builder := new IntentBuilder();
      var configured := new IntentBuilder.Of(block(builder.Fields()));
      intent := configured.Build();
    }

    /** The body of job `h` runs: it asks the trigger for a flow from the current `state`. */
    method Start(h: nat)
      requires Valid() && CanStart(Abs(), h)
      modifies this
      ensures Abs() == StartStep(old(Abs()), h) && Valid()
    {
      StartPreservesValid(Abs(), h);
      var t := tasks[h];
      var flow := Emissions(t.intent, state);
      tasks := tasks[h := t.(started := true, pending := flow)];
    }

    /** The flow of job `h` emits its next result, wrapped in an envelope, into the intent stream. */
    method Emit(h: nat)
      requires Valid() && CanEmit(Abs(), h)
      modifies this
      ensures Abs() == EmitStep(old(Abs()), h) && Valid()
    {
      EmitPreservesValid(Abs(), h);
      var t := tasks[h];
      var envelope := Envelope(t.intent, state, t.pending[0]);
      tasks := tasks[h := t.(pending := t.pending[1..])];
      Deliver(envelope);
    }

    /** The `collect` loop of job `h`: every remaining result of its flow is emitted in order. */
    method Collect(h: nat)
      requires Valid() && h < |tasks|
      modifies this
      ensures Abs() == DrainJob(old(Abs()), h) && Valid()
    {
      while CanEmit(Abs(), h)
        invariant Valid() && h < |tasks|
        invariant DrainJob(Abs(), h) == DrainJob(old(Abs()), h)
        decreases |tasks[h].pending|
      {
        DrainUnfolds(Abs(), h);
        Emit(h);
      }
    }

    /** Job `h` completes and, for a non-empty id, its `invokeOnCompletion` handler runs. */
    method Complete(h: nat)
      requires Valid() && CanComplete(Abs(), h)
      modifies this
      ensures Abs() == CompleteStep(old(Abs()), h) && Valid()
    {
      CompletePreservesValid(Abs(), h);
      var t := tasks[h];
      tasks := tasks[h := t.(status := Finished, pending := [])];
      if t.id != "" && t.id in jobs && jobs[t.id].identifier == t.token {
        jobs := jobs - {t.id};
      }
    }
  }
}
