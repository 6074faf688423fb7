# QuickMVI stores in Dafny

QuickMVI is a small Kotlin MVI library. A *store* holds a state. Callers
submit *intents*. An intent has:

- an optional trigger that produces a flow of results;
- a reducer that folds each result into the state;
- an optional side-effect that observes the new state.

This project models the library's two store generations and proves properties
of both.

- **`Store3`** (the current store):
  - Every intent runs as its own coroutine job in a registry keyed by intent id.
  - Submitting under an id cancels the job already under it.
  - A token (`Random.nextLong()`) stops the completion of a replaced job from evicting its successor.
  - An optional cancel predicate can stop a job on a result, optionally re-dispatching the side-effect.
  - The intent algebra is modelled too: builder, `rebuild`, `map` and `composite`.
- **`Store2`** (the earlier store):
  - All intents feed one shared stream of `Intent2` envelopes.
  - `init` launches one collector that folds the stream with `runningReduce`, runs each folded element's side-effect, and emits its state.
  - Its registry skips the empty id.

Layout:

| file | module | contents |
|---|---|---|
| `common.dfy` | `MviCommon` | `Option` (Kotlin's nullable), `IntentContext`, job `Status`, `Publish` (a state flow does not re-emit a value equal to its current one), and what both stores share: a flow's passes and an optional side-effect's output |
| `intent3.dfy` | `Intent3Algebra` | `Intent3`, the builder class and the pure combinators |
| `store3_model.dfy` | `Store3Model` | `Store3` as a pure state machine (`RunStep`, `StartStep`, `EmitStep`, `CompleteStep`, `CancelKeys`, `CancelAllJobs`), its invariant `Valid`, and the registry and reduction lemmas |
| `store3.dfy` | `Store3Runtime` | the `Store3` class; each method is proved to perform the model's step and to keep `Valid` |
| `store3_scenarios.dfy` | `Store3Scenarios` | the library's `Store3` test expectations as lemmas over model steps, and a run where a job starts after another job's result is reduced |
| `intent2.dfy` | `Intent2Algebra` | `Intent2`, builder fields and builder class, `build`, `rebuild` |
| `store2_model.dfy` | `Store2Model` | the fold step, `runningReduce` and a reference fold; `Store2` as a state machine (`InitStep`, `SubscribeStep`, `LaunchStep`, `StartStep`, `EmitStep`, `CompleteStep`, `CancelFlows`) with its invariant and lemmas |
| `store2.dfy` | `Store2Runtime` | the `Store2` class, proved against `Store2Model` |
| `store2_scenarios.dfy` | `Store2Scenarios` | the script of the common module's `Store3` test, replayed on `Store2` under both orders of `init`'s collector and seed |

Modelling choices:

- **Scheduling.** Coroutines are replaced by explicit, sequential events:
  - an intent is submitted and its job scheduled;
  - a job's body starts and asks its trigger for a flow (`Start`);
  - a job's flow emits its next result (`Emit`);
  - a job completes and its completion handler runs (`Complete`);
  - for `Store2`, `init` runs, and a queued collector subscribes (`Subscribe`).

  Any interleaving of these events is a run of the model.
- **Triggers.** A trigger is a function from the state to a finite list of results, or to `None` for a `null` flow. A `null` flow is processed as `flowOf(null)`: one pass with result `None`.
- **Side-effects.** A side-effect's observable output is a list of values of a type `E`. The store appends it to its `effects` log.
- **Published states.** `published` is the sequence of distinct values `state` takes, in order. A collector of the state flow sees a subsequence of it that ends in the current value: the flow is conflated, so a value replaced before the collector resumes may be skipped.
- **Builder blocks.** A builder block (`IntentBuilder.() -> Unit`) is modelled by its net effect on the builder's fields: a function from fields to fields.
- **Results.** Results have one type parameter `R` per store, where Kotlin uses `Any?` and `as?` casts.
- **`Random.nextLong()`.** Modelled by a counter `nextToken`.
- **`System.nanoTime()`.** Modelled by a counter `clock`. Its string is the generated id, `JobKey.Auto(stamp)`. Neither supplier ever collides.
- **Trigger timing.** A job's body reads `_state.value` and asks the trigger for its flow when the body starts, not when the intent is submitted. `Store3` creates the job lazily and calls `job.start()` after registering it (mvi.kt lines 115 and 121-122). `Store2`'s `scope.launch` only schedules the body (lines 116-119 of its mvi.kt). The start is its own event, `StartStep`, so another job's result may be reduced in between. `Store3Scenarios.LateStartSeesReducedState` and `Store2Model.StartAfterEmitSeesReducedState` show the flow then comes from the reduced state. `Store3Model.RunAndStart` and `Store2Model.LaunchAndStart` are the runs in which the body starts at once.
- **Cancelling a job.** `Stopped` drops the results the job had not yet emitted.
- **`cancel` and the registry.** `cancel(ids)` only calls `job.cancel()` on the job registered under each id (mvi.kt lines 163-169); it does not touch `jobs`. The entry is removed when that job's completion handler runs, and only if the stored token is still the job's (lines 109-113). See `Store3Model.CancelKeys` and `Store3Model.CompleteStep`.
- **`Store2` collector.** The intent stream replays nothing to a late subscriber. Before a collector subscribes, an emitted envelope is lost (`Store2Model.EmitBeforeInitIsDropped`). `init` launches its collector with `scope.launch` (line 33), which only schedules it, and then emits the seed (line 60). Which comes first depends on the dispatcher, and `InitStep`'s `collectorFirst` argument chooses:
  - collector first: the seed passes through `runningReduce` unreduced and the default state is published (`Store2Model.InitPublishesDefault`);
  - seed first: the seed is lost (`Store2Model.QueuedInitLosesSeed`). The first result any job emits then passes through `runningReduce` unreduced: the state stays as it was, and the side-effect sees that state (`Store2Model.FirstResultAfterLostSeedIsNotReduced`).
- **`Store2` pause.** `launchNewJob` never applies `makeCancellableIfNeeded`. So `cancelFlows` does not affect any emission (`Store2Model.CancelFlowsIsInert`), and every result is reduced (`Store2Model.EveryResultReduced`).

## Model

Source paths: `S3` is `common/src/commonMain/kotlin/com/marzec/mvi/mvi.kt` and `S2` is `common/src/commonMain/kotlin/com.marzec.mvi/mvi.kt`; tests are cited in full. The functions in the two scenario files that build the intents, reducers and side-effects a test declares are fixtures. They are not listed; the scenario lemmas that use them are.

| member | source | states |
|---|---|---|
| MviCommon.IntentContext.ResultNonNull | common/src/commonMain/kotlin/com/marzec/mvi/mvi.kt:250-255 | `resultNonNull()` returns the context's result; calling it without a result is excluded by a precondition |
| MviCommon.Publish | common/src/commonMain/kotlin/com/marzec/mvi/mvi.kt:139-143 | emitting into a state flow: the sequence of published values grows by the new state exactly when it differs from the current one, keeps its prefix, ends in the new state, and never gains two equal neighbours |
| MviCommon.Passes | common/src/commonMain/kotlin/com/marzec/mvi/mvi.kt:122 | a job processes the trigger's results in order, each as a present result, or a single `null` result when the trigger gives `null` |
| MviCommon.SideEffectRun | common/src/commonMain/kotlin/com/marzec/mvi/mvi.kt:144 | an absent side-effect outputs nothing; a present one outputs what it gives for the result and state |
| Intent3Algebra.Default | common/src/commonMain/kotlin/com/marzec/mvi/mvi.kt:182-188 | an `Intent3` built from defaults has no trigger, no cancel predicate, the identity reducer, no side-effect and the flag off |
| Intent3Algebra.WithTrigger | common/src/commonMain/kotlin/com/marzec/mvi/mvi.kt:199-206 | `onTrigger { func }` makes the trigger run `func` with the state and no result; every other field is unchanged |
| Intent3Algebra.WithCancelTrigger | common/src/commonMain/kotlin/com/marzec/mvi/mvi.kt:208-217 | `cancelTrigger(flag) { func }` records the flag and a predicate that runs `func` on (state, result); trigger, reducer and side-effect are unchanged |
| Intent3Algebra.WithReducer | common/src/commonMain/kotlin/com/marzec/mvi/mvi.kt:219-224 | `reducer { func }` makes the reducer run `func` on (state, result); every other field is unchanged |
| Intent3Algebra.WithSideEffect | common/src/commonMain/kotlin/com/marzec/mvi/mvi.kt:226-231 | `sideEffect { func }` sets the side-effect to `func` on (state, result); every other field is unchanged |
| Intent3Algebra.IntentBuilder.constructor | common/src/commonMain/kotlin/com/marzec/mvi/mvi.kt:191-197 | a fresh builder holds the defaults |
| Intent3Algebra.IntentBuilder.Of | common/src/commonMain/kotlin/com/marzec/mvi/mvi.kt:259-264 | a builder constructed from an intent's fields holds exactly those fields |
| Intent3Algebra.IntentBuilder.OnTrigger | common/src/commonMain/kotlin/com/marzec/mvi/mvi.kt:199-206 | the builder's fields become `WithTrigger` of the old fields |
| Intent3Algebra.IntentBuilder.CancelTrigger | common/src/commonMain/kotlin/com/marzec/mvi/mvi.kt:208-217 | the builder's fields become `WithCancelTrigger` of the old fields |
| Intent3Algebra.IntentBuilder.Reducer | common/src/commonMain/kotlin/com/marzec/mvi/mvi.kt:219-224 | the builder's fields become `WithReducer` of the old fields |
| Intent3Algebra.IntentBuilder.SideEffect | common/src/commonMain/kotlin/com/marzec/mvi/mvi.kt:226-231 | the builder's fields become `WithSideEffect` of the old fields |
| Intent3Algebra.IntentBuilder.Build | common/src/commonMain/kotlin/com/marzec/mvi/mvi.kt:233-239 | `build()` copies all five fields unchanged |
| Intent3Algebra.IntentOf | common/src/commonMain/kotlin/com/marzec/mvi/mvi.kt:242-248 | the top-level `intent { block }`: the block applied to the default intent; no contract of its own, `BuildKeepsDefaults` states what it keeps |
| Intent3Algebra.Rebuild | common/src/commonMain/kotlin/com/marzec/mvi/mvi.kt:257-265 | the block applied to the intent's own fields, with the intent passed along; no contract of its own, `RebuildNoOp` states the no-op case |
| Intent3Algebra.MapBase | common/src/commonMain/kotlin/com/marzec/mvi/mvi.kt:282-306 | `map` before `setUp`. When `stateMapper` gives `null`, the trigger is `null`, the predicate false, the side-effect silent. Otherwise each callback runs the inner one on the projected state. The reducer is `stateReducer` over the inner reducer; the flag is the inner one |
| Intent3Algebra.Map | common/src/commonMain/kotlin/com/marzec/mvi/mvi.kt:282-309 | `setUp` applied to the inner intent and the base mapped intent; no contract of its own, `MapWithoutSetUp` states the default `setUp` case |
| Intent3Algebra.Composite | common/src/commonMain/kotlin/com/marzec/mvi/mvi.kt:311-314 | `map` with the identity projection and the inner reducer applied directly; no contract of its own, `CompositeActsAsInner` states it |
| Intent3Algebra.BuildKeepsDefaults | common/src/commonMain/kotlin/com/marzec/mvi/mvi.kt:233-248 | `intent { reducer { … } }` keeps the default for every field the block does not set |
| Intent3Algebra.RebuildNoOp | common/src/commonMain/kotlin/com/marzec/mvi/mvi.kt:257-265 | `rebuild` with a block that does nothing returns an intent equal to the original |
| Intent3Algebra.MapWithoutSetUp | common/src/commonMain/kotlin/com/marzec/mvi/mvi.kt:282-309 | `map` with the default `setUp` is the base mapped intent, so its `runSideEffectAfterCancel` is always the inner one's |
| Intent3Algebra.CompositeActsAsInner | common/src/commonMain/kotlin/com/marzec/mvi/mvi.kt:311-314 | `composite()` gives, on every state and result, the same trigger, reducer, cancel decision, side-effect output and flag as the inner intent |
| Store3Model.Initial | common/src/commonMain/kotlin/com/marzec/mvi/mvi.kt:16-28 | a new store publishes its default state, has no jobs and satisfies the invariant |
| Store3Model.Emissions | common/src/commonMain/kotlin/com/marzec/mvi/mvi.kt:122 | the passes of `intent.onTrigger(state) ?: flowOf(null)` in the state the body starts in; no contract of its own, `MviCommon.Passes` states it |
| Store3Model.Stopped | common/src/commonMain/kotlin/com/marzec/mvi/mvi.kt:167-169 | cancelling a live job stops it and discards its unprocessed results; an already stopped job is left as it is |
| Store3Model.CancelKey | common/src/commonMain/kotlin/com/marzec/mvi/mvi.kt:104 | `jobs[key]?.cancelJob()` stops exactly the job registered under the key and changes nothing else, registry included |
| Store3Model.ShouldCancel | common/src/commonMain/kotlin/com/marzec/mvi/mvi.kt:134 | without a cancel predicate the result never cancels; with one, it cancels exactly when the predicate holds for (result, state) |
| Store3Model.SideEffectOutput | common/src/commonMain/kotlin/com/marzec/mvi/mvi.kt:144 | an intent without a side-effect outputs nothing; otherwise the output is the side-effect's for the result and state |
| Store3Model.CancelAllJobs | common/src/commonMain/kotlin/com/marzec/mvi/mvi.kt:34-36 | `cancelAll` stops every registered job, leaves every unregistered job as it is, and changes nothing else, registry included |
| Store3Model.KeyFor | common/src/commonMain/kotlin/com/marzec/mvi/mvi.kt:103 | an explicit id is the key; without one the key is the current clock stamp |
| Store3Model.CancelKeys | common/src/commonMain/kotlin/com/marzec/mvi/mvi.kt:163-165 | `cancel(ids)` stops exactly the jobs registered under a listed id and changes nothing else, registry included |
| Store3Model.RunStep | common/src/commonMain/kotlin/com/marzec/mvi/mvi.kt:102-116 | `run` resolves the key (explicit id or a fresh clock stamp), stops the job registered under it, installs a live, not yet started job with a fresh token, and registers it; state, published values and effects are unchanged |
| Store3Model.Register | common/src/commonMain/kotlin/com/marzec/mvi/mvi.kt:106-114 | a fresh token is drawn, a live job not yet started is appended after the unchanged earlier jobs, and the key's entry names it with its token; state, published values, effects and clock are unchanged |
| Store3Model.Valid | common/src/commonMain/kotlin/com/marzec/mvi/mvi.kt:102-146 | the registry invariant: the published values end in the state with no equal neighbours; each entry names an unfinished job of its key that holds the entry's token and intent; every live job is registered; a stopped or unstarted job holds no results; tokens strictly increase and are below the next token; automatic keys are below the clock |
| Store3Model.StartStep | common/src/commonMain/kotlin/com/marzec/mvi/mvi.kt:115-122 | job `h` is marked started and now holds the passes of its trigger in the state current at the start; its key, token, intent and status, every other job, the state, published values, effects, registry, tokens and clock are unchanged, and the published values still end in the state |
| Store3Model.RunAndStart | common/src/commonMain/kotlin/com/marzec/mvi/mvi.kt:102-122 | `run` whose job starts at once: as `RunStep`, but the new job has started and holds the passes of the trigger in the state at submission |
| Store3Model.EmitStep | common/src/commonMain/kotlin/com/marzec/mvi/mvi.kt:124-126 | an emission keeps the published values ending in the state; what it does to state, registry and effects is stated by `UncancelledResultIsReduced` and `CancelPredicateStopsJob` |
| Store3Model.CompleteStep | common/src/commonMain/kotlin/com/marzec/mvi/mvi.kt:109-113 | the job becomes finished with nothing pending, every other job and the state, published values, effects, tokens and clock are unchanged; `CurrentCompletionRemovesEntry` and `ReplacedCompletionKeepsSuccessor` state the registry |
| Store3Model.AfterCancelIntent | common/src/commonMain/kotlin/com/marzec/mvi/mvi.kt:154-159 | the intent re-dispatched after a cancel has no trigger or predicate, leaves the state as it is, and outputs exactly the cancelled intent's side-effect for the cancelling result |
| Store3Model.RunCancellationAndSideEffectIfNeeded | common/src/commonMain/kotlin/com/marzec/mvi/mvi.kt:148-161 | the job registered under `jobId` is stopped; state, published values and effects do not change; with `runSideEffectAfterCancel` exactly one more job, running `AfterCancelIntent(intent, result)`, live and not started, is installed and registered under a fresh automatic key, without it the registry, tokens and clock are unchanged |
| Store3Model.AfterCancelKeyIsFresh | common/src/commonMain/kotlin/com/marzec/mvi/mvi.kt:103-104 | in a valid store the automatic key drawn for the re-dispatch names no job, so the cancellation stops exactly the job registered under `jobId` and no other |
| Store3Model.ProcessTriggeredValue | common/src/commonMain/kotlin/com/marzec/mvi/mvi.kt:129-146 | when the predicate does not hold, the state becomes `reducer(result, old)`, is published, and the side-effect runs with the new state; when it holds, neither state nor published stream nor effects change |
| Store3Model.CancelKeysPreservesValid | common/src/commonMain/kotlin/com/marzec/mvi/mvi.kt:163-169 | `cancel` keeps the registry invariant: each entry names an unfinished job of its key holding its token, each live job is registered, stopped jobs hold no results, tokens strictly increase |
| Store3Model.CancelAllPreservesValid | common/src/commonMain/kotlin/com/marzec/mvi/mvi.kt:34-36 | `cancelAll` keeps the registry invariant |
| Store3Model.RunPreservesValid | common/src/commonMain/kotlin/com/marzec/mvi/mvi.kt:102-116 | `run` keeps the registry invariant and never restarts a stopped job |
| Store3Model.RunAndStartPreservesValid | common/src/commonMain/kotlin/com/marzec/mvi/mvi.kt:102-122 | `run` followed by the job's start keeps the registry invariant |
| Store3Model.StartPreservesValid | common/src/commonMain/kotlin/com/marzec/mvi/mvi.kt:115-122 | a job's start keeps the registry invariant |
| Store3Model.StartKeepsRegistry | common/src/commonMain/kotlin/com/marzec/mvi/mvi.kt:115-122 | after a start every registry entry still names an unfinished job of its key holding its token |
| Store3Model.StartKeepsOrder | common/src/commonMain/kotlin/com/marzec/mvi/mvi.kt:115-122 | after a start jobs not started and stopped jobs still hold no results, and tokens still increase and stay below the next one |
| Store3Model.CancelFreesKey | common/src/commonMain/kotlin/com/marzec/mvi/mvi.kt:102-104 | after `jobs[newJobId]?.cancelJob()` on a valid store no live job holds the key, so the job started next is the only live one under it |
| Store3Model.RegisterPreservesValid | common/src/commonMain/kotlin/com/marzec/mvi/mvi.kt:106-115 | registering a fresh live job under a key no live job holds, with a fresh token, keeps the invariant |
| Store3Model.ProcessPreservesValid | common/src/commonMain/kotlin/com/marzec/mvi/mvi.kt:129-161 | processing a result, including a cancel and a re-dispatch, keeps the invariant |
| Store3Model.UncancelledResultIsReduced | common/src/commonMain/kotlin/com/marzec/mvi/mvi.kt:133-146 | when the cancel predicate is false, the result is reduced into the state, the new state is published, the side-effect output is appended, and the registry, tokens and clock are untouched |
| Store3Model.EmitPreservesValid | common/src/commonMain/kotlin/com/marzec/mvi/mvi.kt:122-126 | a job emitting its next result keeps the invariant |
| Store3Model.CompletePreservesValid | common/src/commonMain/kotlin/com/marzec/mvi/mvi.kt:109-113 | a completion handler keeps the invariant |
| Store3Model.AtMostOneActivePerKey | common/src/commonMain/kotlin/com/marzec/mvi/mvi.kt:102-116 | two live jobs never share a key |
| Store3Model.RunReplacesJob | common/src/commonMain/kotlin/com/marzec/mvi/mvi.kt:102-116 | submitting under an id stops every earlier job of that id, so none of them can emit again; the entry points to the new job, which is the id's only live job |
| Store3Model.RunWithoutIdCancelsNothing | common/src/commonMain/kotlin/com/marzec/mvi/mvi.kt:103-104 | an intent without an id takes a fresh key and stops no other job |
| Store3Model.ReplacedCompletionKeepsSuccessor | common/src/commonMain/kotlin/com/marzec/mvi/mvi.kt:109-113 | the completion of a job whose entry was overwritten leaves the registry unchanged |
| Store3Model.CurrentCompletionRemovesEntry | common/src/commonMain/kotlin/com/marzec/mvi/mvi.kt:109-113 | the completion of the registered job removes its entry and no other |
| Store3Model.CancelSignalsOnlyListed | common/src/commonMain/kotlin/com/marzec/mvi/mvi.kt:163-165 | `cancel(ids)` stops a job exactly when it is the one registered under a listed id; every other job, and the registry itself, is unchanged |
| Store3Model.CancelAllStopsEveryJob | common/src/commonMain/kotlin/com/marzec/mvi/mvi.kt:34-36 | after `cancelAll` no job is live |
| Store3Model.TriggerlessIsOnePass | common/src/commonMain/kotlin/com/marzec/mvi/mvi.kt:122 | a job whose trigger gives `null` in the state it starts in holds exactly one pending result, `null`, and can emit it |
| Store3Model.DefaultIntentIsInert | common/src/commonMain/kotlin/com/marzec/mvi/mvi.kt:182-188 | the default intent's one pass leaves state, published stream and effects unchanged |
| Store3Model.CancelPredicateStopsJob | common/src/commonMain/kotlin/com/marzec/mvi/mvi.kt:134-137 | when the predicate holds for an emitted result, the reducer is not applied, the job can emit no more, and exactly one intent (the re-dispatch) is launched when the flag is set, none otherwise |
| Store3Model.AfterCancelRunsSideEffectOnce | common/src/commonMain/kotlin/com/marzec/mvi/mvi.kt:154-159 | the re-dispatched job's one pass leaves the state alone and outputs the cancelled intent's side-effect for the cancelling result, with the current state |
| Store3Model.DrainReducesInOrder | common/src/commonMain/kotlin/com/marzec/mvi/mvi.kt:124-145 | a live, started job whose cancel predicate never holds (none at all, or a mapped intent's that never fires), run to its end, leaves the state its reducer gives folded over its results in emission order |
| Store3Model.DrainRunsEffectsInOrder | common/src/commonMain/kotlin/com/marzec/mvi/mvi.kt:124-145 | for the same job (live, started, its cancel predicate never holding), the run to its end appends, in emission order, the side-effect output of each result, each run with the state its own result produced |
| Store3Runtime.Store3.constructor | common/src/commonMain/kotlin/com/marzec/mvi/mvi.kt:16-28 | the new store is the model's initial store and satisfies the invariant |
| Store3Runtime.Store3.CancelJob | common/src/commonMain/kotlin/com/marzec/mvi/mvi.kt:167-169 | performs the model's cancellation of one key |
| Store3Runtime.Store3.Run | common/src/commonMain/kotlin/com/marzec/mvi/mvi.kt:102-116 | performs `RunStep` and keeps the invariant |
| Store3Runtime.Store3.InstallJob | common/src/commonMain/kotlin/com/marzec/mvi/mvi.kt:106-114 | the new state is the old one with a fresh token drawn, a live job not yet started appended, and that job registered under the key |
| Store3Runtime.Store3.Start | common/src/commonMain/kotlin/com/marzec/mvi/mvi.kt:115-122 | performs `StartStep`, reading the flow from the current state, and keeps the invariant |
| Store3Runtime.Store3.IntentWithBuilder | common/src/commonMain/kotlin/com/marzec/mvi/mvi.kt:48-54 | runs the builder's intent |
| Store3Runtime.Store3.Intent | common/src/commonMain/kotlin/com/marzec/mvi/mvi.kt:40-46 | runs the intent a block gives a fresh builder |
| Store3Runtime.Store3.TriggerIntent | common/src/commonMain/kotlin/com/marzec/mvi/mvi.kt:56-58 | runs, without an id, the default intent with the trigger set |
| Store3Runtime.Store3.ReducerIntent | common/src/commonMain/kotlin/com/marzec/mvi/mvi.kt:67-69 | runs, without an id, the default intent with the reducer set |
| Store3Runtime.Store3.SideEffectIntent | common/src/commonMain/kotlin/com/marzec/mvi/mvi.kt:76-83 | runs, without an id, the default intent with the side-effect set |
| Store3Runtime.Store3.Cancel | common/src/commonMain/kotlin/com/marzec/mvi/mvi.kt:163-165 | its loop over the ids performs `CancelKeys` and keeps the invariant |
| Store3Runtime.Store3.CancelAll | common/src/commonMain/kotlin/com/marzec/mvi/mvi.kt:34-36 | its loop over the registry performs `CancelAllJobs` and keeps the invariant |
| Store3Runtime.Store3.ProcessTriggeredValue | common/src/commonMain/kotlin/com/marzec/mvi/mvi.kt:129-146 | performs the model's result processing and keeps the invariant |
| Store3Runtime.Store3.RunCancellationAndSideEffectIfNeeded | common/src/commonMain/kotlin/com/marzec/mvi/mvi.kt:148-161 | cancels the job and, when the flag is set, runs the re-dispatched intent |
| Store3Runtime.Store3.Emit | common/src/commonMain/kotlin/com/marzec/mvi/mvi.kt:124-126 | a job's next result is processed as `EmitStep` |
| Store3Runtime.Store3.Complete | common/src/commonMain/kotlin/com/marzec/mvi/mvi.kt:109-113 | a completion handler runs as `CompleteStep` |
| Store3Scenarios.AppendIntentLaunches | lib/src/commonTest/kotlin/com/marzec/mvi/Store3Test.kt:60-66 | the appending intent starts one live job whose flow holds `1, 2`, from the state `[0]` |
| Store3Scenarios.AppendIntentEmits | lib/src/commonTest/kotlin/com/marzec/mvi/Store3Test.kt:60-72 | each result of the appending job is added to the end of the state, and the longer list is published |
| Store3Scenarios.TriggerAppendsResults | lib/src/commonTest/kotlin/com/marzec/mvi/Store3Test.kt:60-72 | trigger `1, 2` appended to `[0]` is published as `[0], [0,1], [0,1,2]` |
| Store3Scenarios.FirstIntentReducesOne | lib/src/commonTest/kotlin/com/marzec/mvi/Store3Test.kt:74-85 | the first id-less intent reduces `1` under a clock key |
| Store3Scenarios.SecondIntentReducesTwo | lib/src/commonTest/kotlin/com/marzec/mvi/Store3Test.kt:86-95 | the second id-less intent reduces `2`: `0, 1, 2` with side-effects `1, 2` |
| Store3Scenarios.TwoIntentsRunIndependently | lib/src/commonTest/kotlin/com/marzec/mvi/Store3Test.kt:74-96 | the two intents get distinct keys, 0 and 1, and are published as `0, 1, 2` |
| Store3Scenarios.SameIdReplacesJob | lib/src/commonTest/kotlin/com/marzec/mvi/Store3Test.kt:98-123 | resubmitting under `"id"` stops the first job before its `-1`; `0, 1, 2` is published |
| Store3Scenarios.SameIdFirstJob | lib/src/commonTest/kotlin/com/marzec/mvi/Store3Test.kt:100-113 | the first job under `"id"` reduces `1`, keeps `-1` pending, and is the one the id names |
| Store3Scenarios.SameIdSecondJob | lib/src/commonTest/kotlin/com/marzec/mvi/Store3Test.kt:115-122 | the second intent under `"id"` cancels the first job, reduces `2` for `0, 1, 2` in all, and the id then names only the new job |
| Store3Scenarios.ReducerIntentRunsOnce | lib/src/commonTest/kotlin/com/marzec/mvi/Store3Test.kt:138-148 | `reducer { 1 }` runs once (`0, 1`), and the job's completion empties the registry |
| Store3Scenarios.ReducerIntentLaunches | lib/src/commonTest/kotlin/com/marzec/mvi/Store3Test.kt:138-143 | the triggerless intent runs as one live job under the first clock key, holding a single pass with no result |
| Store3Scenarios.ReducerIntentReduces | lib/src/commonTest/kotlin/com/marzec/mvi/Store3Test.kt:138-147 | that one pass replaces `0` by `1`, published as `0, 1`, and leaves the job with nothing pending |
| Store3Scenarios.ReducerIntentCompletes | common/src/commonMain/kotlin/com/marzec/mvi/mvi.kt:109-113 | the job's completion removes its entry, leaving the registry empty |
| Store3Scenarios.CancellingIntentLaunches | lib/src/commonTest/kotlin/com/marzec/mvi/Store3Test.kt:150-165 | the cancelling intent, submitted under its id, starts one live job holding `1, 2, 3, 4`, and the store is valid |
| Store3Scenarios.CancellingIntentReducesOne | lib/src/commonTest/kotlin/com/marzec/mvi/Store3Test.kt:150-171 | the cancelling intent reduces its first result `1` |
| Store3Scenarios.CancellingIntentStopsAtTwo | lib/src/commonTest/kotlin/com/marzec/mvi/Store3Test.kt:166-171 | result `2` meets the predicate: the job stops without reducing, drops `3, 4`, and the re-dispatch is launched |
| Store3Scenarios.RedispatchedSideEffectRecordsTwo | lib/src/commonTest/kotlin/com/marzec/mvi/Store3Test.kt:173-183 | the re-dispatched side-effect records `2` and leaves the state at `1` |
| Store3Scenarios.SideEffectAfterCancel | lib/src/commonTest/kotlin/com/marzec/mvi/Store3Test.kt:150-184 | whole run: published `0, 1`, side-effect output `2` |
| Store3Scenarios.MappedIntentUsesInnerReducer | lib/src/commonTest/kotlin/com/marzec/mvi/Store3Test.kt:213-238 | the mapped intent from `success(1)` publishes `success(2)` and records `20` |
| Store3Scenarios.MappedDoubling | common/src/commonMain/kotlin/com/marzec/mvi/mvi.kt:282-309 | on the state `success(1)` the mapped intent triggers `2` from the inner state `1`, does not cancel, reduces `2` to `success(2)` through the inner reducer, and its side-effect records `20` from the projected new state |
| Store3Scenarios.CompositeAdding | common/src/commonMain/kotlin/com/marzec/mvi/mvi.kt:311-314 | `composite` whose `setUp` overrides the trigger as `×10` and the reducer as `inner + 1`, over an inner intent with trigger `2, 3`, gives trigger `20, 30`, reducer `state + result + 1` and the inner side-effect |
| Store3Scenarios.CompositeReducesTwenty | lib/src/commonTest/kotlin/com/marzec/mvi/Store3Test.kt:240-263 | from `10`, the first result `20` gives `31`, recorded by the side-effect |
| Store3Scenarios.CompositeReducesThirty | lib/src/commonTest/kotlin/com/marzec/mvi/Store3Test.kt:240-263 | the next result `30` gives `62` |
| Store3Scenarios.CompositeOverridesTriggerAndReducer | lib/src/commonTest/kotlin/com/marzec/mvi/Store3Test.kt:240-265 | whole run: published `10, 31, 62`, side-effects `31, 62` |
| Store3Scenarios.TenfoldOfState | common/src/commonMain/kotlin/com/marzec/mvi/mvi.kt:121-122 | an intent whose trigger passes the state it starts in and whose reducer makes ten times the result |
| Store3Scenarios.BothSubmitted | common/src/commonMain/kotlin/com/marzec/mvi/mvi.kt:102-116 | two id-less intents, the constant `1` reducer then the tenfold one, are both installed on `0`, neither started |
| Store3Scenarios.ReducerRunsFirst | common/src/commonMain/kotlin/com/marzec/mvi/mvi.kt:121-146 | the first job starts and reduces `1`, published as `0, 1`, while the second job still waits |
| Store3Scenarios.TenfoldStartsLate | common/src/commonMain/kotlin/com/marzec/mvi/mvi.kt:121-146 | the second job, started now, reads `1` and publishes `10`: `0, 1, 10` |
| Store3Scenarios.LateStartSeesReducedState | common/src/commonMain/kotlin/com/marzec/mvi/mvi.kt:121-122 | whole run: a job started after another job's result was reduced takes its flow from the reduced state `1`, not from `0` |
| Store3Scenarios.EarlyStartSeesSubmittedState | common/src/commonMain/kotlin/com/marzec/mvi/mvi.kt:121-122 | the same job started before that result takes its flow from `0` |
| Intent2Algebra.DefaultFields | common/src/commonMain/kotlin/com.marzec.mvi/mvi.kt:144-150 | a fresh builder has no trigger, the identity reducer, no side-effect and both flags off |
| Intent2Algebra.Seed | common/src/commonMain/kotlin/com.marzec.mvi/mvi.kt:132-141 | `Intent2(state, result)` carries the given state and result and the defaults for every other field, `paused` false |
| Intent2Algebra.WithTrigger | common/src/commonMain/kotlin/com.marzec.mvi/mvi.kt:152-163 | `onTrigger(isCancellable, runAfterCancel) { func }` records both flags and a trigger running `func` with no result; reducer and side-effect are unchanged |
| Intent2Algebra.WithReducer | common/src/commonMain/kotlin/com.marzec.mvi/mvi.kt:165-171 | `reducer { func }` sets the reducer only |
| Intent2Algebra.WithSideEffect | common/src/commonMain/kotlin/com.marzec.mvi/mvi.kt:173-179 | `sideEffect { func }` sets the side-effect only |
| Intent2Algebra.Build | common/src/commonMain/kotlin/com.marzec.mvi/mvi.kt:181-189 | `build()` copies the five builder fields and leaves `state` and `result` null and `paused` false |
| Intent2Algebra.IntentBuilder.constructor | common/src/commonMain/kotlin/com.marzec.mvi/mvi.kt:144-150 | a fresh builder holds the defaults |
| Intent2Algebra.IntentBuilder.Of | common/src/commonMain/kotlin/com.marzec.mvi/mvi.kt:202-207 | a builder constructed from given fields holds exactly those |
| Intent2Algebra.IntentBuilder.OnTrigger | common/src/commonMain/kotlin/com.marzec.mvi/mvi.kt:152-163 | the builder's fields become `WithTrigger` of the old ones |
| Intent2Algebra.IntentBuilder.Reducer | common/src/commonMain/kotlin/com.marzec.mvi/mvi.kt:165-171 | the builder's fields become `WithReducer` of the old ones |
| Intent2Algebra.IntentBuilder.SideEffect | common/src/commonMain/kotlin/com.marzec.mvi/mvi.kt:173-179 | the builder's fields become `WithSideEffect` of the old ones |
| Intent2Algebra.IntentBuilder.Build | common/src/commonMain/kotlin/com.marzec.mvi/mvi.kt:181-189 | the built intent holds the builder's fields, no state, no result, not paused |
| Intent2Algebra.FieldsOf | common/src/commonMain/kotlin/com.marzec.mvi/mvi.kt:202-207 | building the extracted fields gives back the intent with no state, no result and not paused |
| Intent2Algebra.IntentOf | common/src/commonMain/kotlin/com.marzec.mvi/mvi.kt:117 | the built intent has the fields the block gives a fresh builder, no state, no result, and is not paused |
| Intent2Algebra.Rebuild | common/src/commonMain/kotlin/com.marzec.mvi/mvi.kt:199-208 | the rebuilt intent has the fields the block gives a builder holding the intent's own, no state, no result, and is not paused |
| Intent2Algebra.RebuildNoOp | common/src/commonMain/kotlin/com.marzec.mvi/mvi.kt:199-208 | `rebuild` with a no-op block keeps trigger, reducer, side-effect and both flags, and yields null state and result and `paused` false |
| Intent2Algebra.RebuildBuiltIsIdentity | common/src/commonMain/kotlin/com.marzec.mvi/mvi.kt:199-208 | a no-op `rebuild` of a built intent is that intent |
| Intent2Algebra.FlagsOnlyFromTrigger | common/src/commonMain/kotlin/com.marzec.mvi/mvi.kt:152-163 | a block that sets only the reducer and side-effect leaves both flags off and the trigger null |
| Store2Model.FoldStep | common/src/commonMain/kotlin/com.marzec.mvi/mvi.kt:35-48 | a paused element keeps the accumulated state; any other makes it `new.reducer(new.result, old.state)`. Result, side-effect, `paused` and both flags come from the new element; trigger and reducer stay the accumulator's |
| Store2Model.OnEachEffects | common/src/commonMain/kotlin/com.marzec.mvi/mvi.kt:49-53 | the side-effect is invoked with the folded result and state exactly when `!paused \|\| runSideEffectAfterCancel`, otherwise nothing is output |
| Store2Model.RunningReduce | common/src/commonMain/kotlin/com.marzec.mvi/mvi.kt:34-48 | `runningReduce` gives one accumulator per element; the first element passes through unreduced, then each accumulator is the fold step of the previous one with that element |
| Store2Model.RunningReduceFolds | common/src/commonMain/kotlin/com.marzec.mvi/mvi.kt:35-40 | the k-th accumulator's state is the reference left fold of the seed's state over the next k elements, skipping paused ones |
| Store2Model.RunningReduceKeepsSeedCallbacks | common/src/commonMain/kotlin/com.marzec.mvi/mvi.kt:41-48 | every accumulator keeps the seed's trigger and reducer, and carries the current element's result, side-effect and `paused` |
| Store2Model.MakeCancellableIfNeeded | common/src/commonMain/kotlin/com.marzec.mvi/mvi.kt:63-71 | a cancellable trigger's envelopes take the current `pause` value; any other flow is unchanged |
| Store2Model.PausedElementKeepsState | common/src/commonMain/kotlin/com.marzec.mvi/mvi.kt:36-53 | an envelope paused by `makeCancellableIfNeeded` keeps the accumulated state, and its side-effect runs only with `runSideEffectAfterCancel` |
| Store2Model.Initial | common/src/commonMain/kotlin/com.marzec.mvi/mvi.kt:9-29 | a new store has its default state, no collector launched, no jobs, `pause` false |
| Store2Model.Deliver | common/src/commonMain/kotlin/com.marzec.mvi/mvi.kt:34-57 | with no subscribed collector an element is lost. The first element a subscribed collector takes becomes the accumulator unreduced; each later one is folded. The new state is emitted into `_state` and the `onEach` side-effect output is appended. The registry is untouched |
| Store2Model.DeliverAll | common/src/commonMain/kotlin/com.marzec.mvi/mvi.kt:34-57 | taking a run of elements keeps an existing accumulator and the collector's standing |
| Store2Model.DeliverAllFollowsRunningReduce | common/src/commonMain/kotlin/com.marzec.mvi/mvi.kt:34-57 | after a run of elements the store's accumulator is the matching element of `runningReduce` over the stream so far |
| Store2Model.DeliverAllFoldsState | common/src/commonMain/kotlin/com.marzec.mvi/mvi.kt:34-57 | after a run of elements the store's state is the seed state with every element's state change applied in order |
| Store2Model.InitPublishesDefault | common/src/commonMain/kotlin/com.marzec.mvi/mvi.kt:31-61 | when the collector subscribes before the seed is emitted, `init` clears `pause` and the seed `Intent2(defaultState, null)` passes unreduced: the default state is published, with no side-effect output |
| Store2Model.InitStep | common/src/commonMain/kotlin/com.marzec.mvi/mvi.kt:31-61 | `init` clears `pause` and leaves the collector launched, subscribed or queued as `collectorFirst` says, before the seed is emitted |
| Store2Model.SubscribeStep | common/src/commonMain/kotlin/com.marzec.mvi/mvi.kt:33 | a queued collector subscribes and nothing else changes |
| Store2Model.QueuedInitLosesSeed | common/src/commonMain/kotlin/com.marzec.mvi/mvi.kt:31-61 | when the seed is emitted before the collector subscribes, it is lost: no accumulator, and state, published values, effects, jobs and registry unchanged |
| Store2Model.FirstResultAfterLostSeedIsNotReduced | common/src/commonMain/kotlin/com.marzec.mvi/mvi.kt:34-57 | with the seed lost, the first emitted result becomes the accumulator unreduced: the state and published values stay, and the side-effect runs with the unreduced state |
| Store2Model.Emissions | common/src/commonMain/kotlin/com.marzec.mvi/mvi.kt:119 | the passes of `intent.onTrigger(state) ?: flowOf(null)` in the state the body starts in; no contract of its own, `MviCommon.Passes` states it |
| Store2Model.Stopped | common/src/commonMain/kotlin/com.marzec.mvi/mvi.kt:100 | cancelling a live job stops it and discards its unemitted results |
| Store2Model.CancelId | common/src/commonMain/kotlin/com.marzec.mvi/mvi.kt:100 | `jobs[id]?.second?.cancel()` stops exactly the job registered under `id` and changes nothing else, registry included |
| Store2Model.SideEffectOutput | common/src/commonMain/kotlin/com.marzec.mvi/mvi.kt:52 | an element without a side-effect outputs nothing; otherwise the output is the side-effect's for the result and state |
| Store2Model.LaunchStep | common/src/commonMain/kotlin/com.marzec.mvi/mvi.kt:99-117 | `intentInternal` stops the job registered under the id, launches the built intent's job, not yet started, with a fresh token, and registers it only for a non-empty id |
| Store2Model.Register | common/src/commonMain/kotlin/com.marzec.mvi/mvi.kt:102-113 | a fresh token is drawn, a live job not yet started is appended after the unchanged earlier jobs, and it is registered with its token only under a non-empty id |
| Store2Model.Valid | common/src/commonMain/kotlin/com.marzec.mvi/mvi.kt:31-119 | the invariant: the store is ready with no equal neighbours in its published values; before the first fold the state is the published default; an accumulator only exists with a subscribed collector; the empty id is never registered; each entry names an unfinished job of its id holding its token; every live named job is registered; a stopped or unstarted job holds no results; no job is paused; tokens strictly increase and are below the next token |
| Store2Model.StartStep | common/src/commonMain/kotlin/com.marzec.mvi/mvi.kt:116-119 | job `h` is marked started and now holds the passes of its trigger in `_state` as it is at the start; its id, token, intent and status, every other job, the state, published values, effects, registry, tokens, collector, accumulator and pause are unchanged, and the store stays ready |
| Store2Model.LaunchAndStart | common/src/commonMain/kotlin/com.marzec.mvi/mvi.kt:99-119 | `intentInternal` whose job starts at once: as `LaunchStep`, but the new job has started and holds the passes of the trigger in the state at submission |
| Store2Model.CompleteStep | common/src/commonMain/kotlin/com.marzec.mvi/mvi.kt:104-109 | the job becomes finished with nothing pending; every other job and the state, published values, effects, collector and tokens are unchanged |
| Store2Model.Envelope | common/src/commonMain/kotlin/com.marzec.mvi/mvi.kt:121-127 | each envelope is the job's intent carrying the current state and that emission's result, with the intent's `paused` flag |
| Store2Model.EmitStep | common/src/commonMain/kotlin/com.marzec.mvi/mvi.kt:116-129 | a job's emission removes its first pending result and leaves registry, tokens and `pause` untouched |
| Store2Model.CancelFlows | common/src/commonMain/kotlin/com.marzec.mvi/mvi.kt:80-84 | `cancelFlows` sets `pause` and changes nothing else |
| Store2Model.DrainJob | common/src/commonMain/kotlin/com.marzec.mvi/mvi.kt:119-128 | running a job's `collect` loop to its end keeps the invariant and leaves the job with nothing to emit |
| Store2Model.InitPreservesValid | common/src/commonMain/kotlin/com.marzec.mvi/mvi.kt:31-61 | `init` keeps the invariant: the empty id is never registered, entries name unfinished jobs of their id with their token, live named jobs are registered, stopped jobs hold no results, no job is paused, tokens increase |
| Store2Model.LaunchPreservesValid | common/src/commonMain/kotlin/com.marzec.mvi/mvi.kt:99-117 | `intentInternal` keeps the invariant |
| Store2Model.LaunchAndStartPreservesValid | common/src/commonMain/kotlin/com.marzec.mvi/mvi.kt:99-119 | `intentInternal` followed by the job's start keeps the invariant |
| Store2Model.StartPreservesValid | common/src/commonMain/kotlin/com.marzec.mvi/mvi.kt:116-119 | a job's start keeps the invariant |
| Store2Model.StartKeepsRegistry | common/src/commonMain/kotlin/com.marzec.mvi/mvi.kt:116-119 | after a start every registry entry still names an unfinished job of its id holding its token |
| Store2Model.StartKeepsOrder | common/src/commonMain/kotlin/com.marzec.mvi/mvi.kt:116-119 | after a start jobs not started and stopped jobs still hold no results, no job is paused, and tokens still increase and stay below the next one |
| Store2Model.SubscribePreservesValid | common/src/commonMain/kotlin/com.marzec.mvi/mvi.kt:33 | a queued collector's subscription keeps the invariant |
| Store2Model.CancelFreesId | common/src/commonMain/kotlin/com.marzec.mvi/mvi.kt:100 | after `jobs[id]?.second?.cancel()` on a valid store no live job holds a non-empty `id` |
| Store2Model.RegisterPreservesValid | common/src/commonMain/kotlin/com.marzec.mvi/mvi.kt:102-114 | registering a fresh live job with a fresh token, under an id no live job holds, keeps the invariant |
| Store2Model.EmitPreservesValid | common/src/commonMain/kotlin/com.marzec.mvi/mvi.kt:116-129 | an emission keeps the invariant |
| Store2Model.CompletePreservesValid | common/src/commonMain/kotlin/com.marzec.mvi/mvi.kt:104-109 | a completion handler keeps the invariant |
| Store2Model.CancelFlowsPreservesValid | common/src/commonMain/kotlin/com.marzec.mvi/mvi.kt:80-84 | `cancelFlows` keeps the invariant |
| Store2Model.EmptyIdCancelsNothing | common/src/commonMain/kotlin/com.marzec.mvi/mvi.kt:100-104 | an intent with the empty id is not registered, leaves the registry as it was, and leaves every earlier job unchanged |
| Store2Model.LaunchReplacesJob | common/src/commonMain/kotlin/com.marzec.mvi/mvi.kt:99-114 | submitting under a non-empty id stops that id's earlier jobs and no other job, and registers the new job |
| Store2Model.ReplacedCompletionKeepsSuccessor | common/src/commonMain/kotlin/com.marzec.mvi/mvi.kt:105-109 | the completion of a job whose entry was overwritten leaves the registry unchanged |
| Store2Model.CurrentCompletionRemovesEntry | common/src/commonMain/kotlin/com.marzec.mvi/mvi.kt:105-109 | the completion of the registered job removes exactly its entry |
| Store2Model.EveryResultReduced | common/src/commonMain/kotlin/com.marzec.mvi/mvi.kt:116-129 | once the collector holds an accumulator every emitted result is reduced, because no envelope is paused: state `reducer(result, old)`, published, side-effect run with the new state |
| Store2Model.StartAfterEmitSeesReducedState | common/src/commonMain/kotlin/com.marzec.mvi/mvi.kt:116-121 | a job started after another job's result was reduced takes its flow from the reduced state |
| Store2Model.EmitBeforeInitIsDropped | common/src/commonMain/kotlin/com.marzec.mvi/mvi.kt:14-18 | before a collector subscribes an emitted result changes neither state, nor published values, nor effects |
| Store2Model.CancelFlowsIsInert | common/src/commonMain/kotlin/com.marzec.mvi/mvi.kt:80-84 | an emission gives the same store with or without a preceding `cancelFlows`, apart from the flag |
| Store2Model.DrainReducesEveryResult | common/src/commonMain/kotlin/com.marzec.mvi/mvi.kt:119-128 | once the collector holds an accumulator, running a live job to its end reduces all its results in order, and each side-effect sees the state its own result produced |
| Store2Model.DrainBeforeInitDropsResults | common/src/commonMain/kotlin/com.marzec.mvi/mvi.kt:14-18 | before a collector subscribes, running a job to its end changes neither state, nor published values, nor effects |
| Store2Runtime.Store2.constructor | common/src/commonMain/kotlin/com.marzec.mvi/mvi.kt:9-29 | the new store is the model's initial store and satisfies the invariant |
| Store2Runtime.Store2.Deliver | common/src/commonMain/kotlin/com.marzec.mvi/mvi.kt:34-57 | the collector's handling of one element, as the model's `Deliver` |
| Store2Runtime.Store2.Init | common/src/commonMain/kotlin/com.marzec.mvi/mvi.kt:31-61 | performs `InitStep` under the given order of collector and seed, and keeps the invariant |
| Store2Runtime.Store2.Subscribe | common/src/commonMain/kotlin/com.marzec.mvi/mvi.kt:33 | performs `SubscribeStep` and keeps the invariant |
| Store2Runtime.Store2.CancelFlows | common/src/commonMain/kotlin/com.marzec.mvi/mvi.kt:80-84 | sets `pause` and keeps the invariant |
| Store2Runtime.Store2.Intent | common/src/commonMain/kotlin/com.marzec.mvi/mvi.kt:88-114 | performs `LaunchStep` and keeps the invariant |
| Store2Runtime.Store2.CancelJob | common/src/commonMain/kotlin/com.marzec.mvi/mvi.kt:100 | the new state is the old one with the job registered under `id`, if any, stopped |
| Store2Runtime.Store2.InstallJob | common/src/commonMain/kotlin/com.marzec.mvi/mvi.kt:102-114 | the new state is the old one with a fresh token drawn, a live job not yet started appended, and that job registered only under a non-empty id |
| Store2Runtime.Store2.LaunchNewJob | common/src/commonMain/kotlin/com.marzec.mvi/mvi.kt:116-117 | the job's intent is the block applied to a fresh builder, then built |
| Store2Runtime.Store2.Start | common/src/commonMain/kotlin/com.marzec.mvi/mvi.kt:116-119 | performs `StartStep`, reading the flow from the current state, and keeps the invariant |
| Store2Runtime.Store2.Emit | common/src/commonMain/kotlin/com.marzec.mvi/mvi.kt:120-127 | performs `EmitStep` and keeps the invariant |
| Store2Runtime.Store2.Collect | common/src/commonMain/kotlin/com.marzec.mvi/mvi.kt:119-128 | its loop emits the job's results until none is left, performing `DrainJob` |
| Store2Runtime.Store2.Complete | common/src/commonMain/kotlin/com.marzec.mvi/mvi.kt:104-109 | performs `CompleteStep` and keeps the invariant |
| Store2Scenarios.InitPublishesZero | common/src/commonMain/kotlin/com.marzec.mvi/mvi.kt:31-61 | with the collector subscribed first, `init` on a store of `0` publishes `0` and has run nothing |
| Store2Scenarios.FirstIntentReducesOne | common/src/commonMain/kotlin/com.marzec.mvi/mvi.kt:99-128 | the common `Store3` test's first intent on `Store2`: an empty-id intent with trigger `1`, started at once, gives `0, 1`, and its side-effect records `1` |
| Store2Scenarios.SecondIntentReducesTwo | common/src/commonMain/kotlin/com.marzec.mvi/mvi.kt:99-128 | the test's second intent, trigger `2`, gives `0, 1, 2`, side-effects `1, 2`, and the registry stays empty |
| Store2Scenarios.QueuedInitLeavesNoAccumulator | common/src/commonMain/kotlin/com.marzec.mvi/mvi.kt:31-61 | with the seed emitted before the collector subscribes, the subscribed collector holds no accumulator and `0` alone is published |
| Store2Scenarios.FirstIntentAfterLostSeedKeepsZero | common/src/commonMain/kotlin/com.marzec.mvi/mvi.kt:34-57 | the first intent's result `1` then passes through unreduced: the state stays `0`, and the side-effect records `0` |
| Store2Scenarios.SecondIntentAfterLostSeedReducesTwo | common/src/commonMain/kotlin/com.marzec.mvi/mvi.kt:34-57 | the second intent's result is reduced: `0, 2` is published and the side-effects record `0, 2` |

## Left out

- Coroutine machinery is left out: real concurrency, dispatchers, `withContext(stateThread)`, `newSingleThreadContext`, delays, and suspension. Jobs advance by explicit sequential events, and the model does not decide which interleaving a dispatcher would choose.
- `Random.nextLong()` and `System.nanoTime()` are modelled by counters that never collide. The real suppliers could, in principle, collide.
- The state flow's rule that an equal value is not re-emitted comes from the coroutine library, not from this code. `Publish` assumes it.
- The scenarios read `toString()` of an `Int` as the `Int` itself.
- MviCommon.IntResult: a `null` result is read as `0`, where the source's `resultNonNull()` would throw; no scenario reaches that case.
- MviCommon.IntentContext.ResultNonNull: the `!!` crash on a missing result is a precondition, not a modelled exception. Exceptions thrown by user callbacks are not modelled.
- `init` of `Store3` only runs its `initialAction`, a caller callback. `onNewState` is an open no-op hook. Neither is modelled.
- `identifier`, `collectState`, `mapToState` and the Compose glue are UI-facing, so they are not part of this model.
- Side-effects that themselves submit intents are not modelled, because a side-effect's output is plain data. This covers the test "running few intents in side effect".
- The deprecated `Store3` helpers `onTrigger` and `reduce` only return a builder (mvi.kt lines 60-74). They are covered by the builder methods.
- `Store3` cancellation drops a cancelled job's unprocessed results at once. A real job may finish processing the result in hand first.
- Store2's shared flow is modelled as an unbounded, in-order channel whose emission and collection are one step. Left out: its buffer of 30 extra elements, the `DROP_OLDEST` overflow policy, the `combine(pause)` operator's timing, the `scope.launch` around `pause.emit(true)`, and the `println`.
- The state flow's conflation is left out: `published` holds every distinct value `state` takes, and which of them a slow collector skips is not modelled.
- A trigger's flow is modelled as the finite list of its results, fixed when the job's body starts. A flow that reads the state while it runs, suspends, or never ends is not modelled.
- In `Store2`, a dispatcher that runs a launched body inline inside `scope.launch` could finish the job before `intentInternal` reads `job.isActive` (lines 110-112); the job would then never be registered. The model's job bodies always start after `intentInternal` returns.
- Store2Model.InitStep: it requires that `init` has not run yet (no collector launched). A second call would start a second collector over the same stream; that is not modelled.
- Store2Runtime.Store2.Init: the same single-call precondition as `Store2Model.InitStep`.
- Store2's `sideEffectIntent` has its body commented out and does nothing, so it is not modelled.
- Store2's `cancelFlowsIf` is a protected flow operator whose only effect is `cancelFlows`, which is modelled. The operator itself is not.
- Store2's `as?` casts of results are left out, because the model has a single result type.
