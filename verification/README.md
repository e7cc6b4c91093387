# Route swapping and route-homogeneous serving: a verified model

Neural-Scalpel serves many "routes" from one base model. A route is a set of weight
deltas. The hot-swap runtime adds a route's deltas to the live weights in place, runs
inference, and restores the weights from snapshots that are checked by checksum. Around it,
schedulers make sure that one batch never mixes routes. This project models that machinery
in Dafny and proves what it promises, and, where it promises more than it keeps, exactly
when it keeps it.

## How the model is laid out

| file | what it models |
|---|---|
| `RuntimeState.dfy`, `FailurePolicy.dfy` | the phase machine and the failure policy |
| `RouteRegistry.dfy`, `PayloadValidator.dfy`, `LayerNames.dfy` | manifests and their status, pre-swap validation, layer-name resolution |
| `Tensors.dfy` | tensors of an arbitrary type with unknown operations |
| `HotSwapModel.dfy`, `HotSwapRuntime.dfy` | the runtime, as functions on values and as an object changed in place; every method equals its function |
| `RouteWeights.dfy`, `CaptureChecks.dfy` | the reference meaning of a route, what capture, apply and rollback do relative to it, and which captures leave a tensor unchecked |
| `InferRuns.dfy`, `ResidentRuns.dfy` | runs of `infer`, and runs of `ensure_route` and `clear_active_route` |
| `RouteAdmission.dfy`, `ServedCalls.dfy` | where a resident route comes from and how long it is served, and when a call without faults is served |
| `ConcurrentInfer.dfy`, `SoloInfer.dfy`, `QuarantineEscapes.dfy` | `infer` from many threads as a step system, its agreement with the sequential function, and when worker quarantine lasts there |
| `SchedulerPatch.dfy`, `RoundRobin.dfy`, `ForwardHook.dfy` | the vLLM scheduler patch, its fairness, and the patch with the model-runner hook and the runtime end to end |
| `AsyncScheduler.dfy`, `ProxyBatching.dfy`, `TokenBucket.dfy`, `MockPipeline.dfy` | the asyncio scheduler, the proxy's batch tasks and rate limiter, the in-process pipeline |
| `Sparsity.dfy`, `Q8Quant.dfy` | energy-preserving sparsification and the Q8_0 codec, in exact reals |

Components that the source updates in place are classes; each of their methods is proved
equal to a specification function, and the theorems are about those functions.

Tensor addition is an unknown function, so no theorem about weights uses any algebra of
floating point. Equality of checksums means equality of tensors only where a theorem says
so (`Collisionless`). Resolving a layer name is an unknown function of the name and the
model's keys in the runtime proofs; what the real one returns is in `LayerNames.dfy`.

Exceptions of the outside world are inputs of a call: the clone or the checksum of any
captured layer may raise, a reload may raise, the add of any layer may raise leaving any
value in its tensor, inference may raise an `Exception`, a rollback may leave any value in any tensor it
restores and may raise, and computing a checksum to verify it may raise. Clocks, request
bodies, backend answers, the sort's tie order and the conversions to and from half
precision are inputs too.

In the concurrent model a step is one phase transition, one registry update, or one piece
of work (capture, apply, the inference call, copy back, verify) on data that only the
lock holder touches. Threads outside the lock, and registry calls, interleave with these
in every order.

## What fails, and exactly when

- Computing a checksum can raise after the clone is stored. A rollback of that snapshot
  restores its tensor but cannot check it, so damage goes unnoticed and the worker is READY
  again, in the same call (`ChecksumFaultHidesDamage`) or in a later one that reuses the
  snapshot and in which nothing raises (`ReuseHidesDamage`). A call contains every rollback
  fault exactly when each snapshot it reuses has a checksum, or, if it captures afresh, when
  the checksum that raises is not the first one of its tensor (`ContainedIffNotStranded`).
- Computing a checksum to verify a rollback can raise outside the `try` around the copying.
  The phase stays ROLLING_BACK. An `infer` call ends READY at the base model or in
  quarantine exactly unless this happens to it (`InferEnds`); over a run the worker is stuck
  exactly when it happened to the latest call that got to the lock, and the next such call
  with a clean rollback puts it back in service (`RunEnds`). With `ensure_route` an
  eviction that ends this way leaves the old route named as active over the base model
  (`EscapedEvictionIsStale`), and the hook then runs a batch of that route on base weights
  (`StalePassAfterEscape`), exactly when the worker was stuck with that route named as
  active before the pass (`PassIsExact`).
- `ensure_route` returns normally without the requested route's weights in exactly two
  cases: asked for the base model when evicting the old route quarantined the worker
  (`BaseReturnsAfterFailedEviction`), and asked for the route a stuck worker still names as
  active (`NormalReturnIsExact`).
- `infer` while a route is resident restores the base model but leaves the route named as
  active, so a later `ensure_route` skips its swap (`InferWhileResident`). A clean `infer`
  respects what is resident exactly when it does not get to the lock while a route is
  (`InferRespectsResidencyIff`).
- A payload block without a uri passes validation, and every call on the route then raises
  (`UriLessPayloadNeverServed`). A call without faults on a worker in service is served
  exactly when it gets to the lock, every layer can be captured or has a snapshot, and the
  manifest has no payload block, or one with a uri, or no layers (`InferServedIff`,
  `EnsureServedIff`).
- A route that is revoked or quarantined while it is resident goes on being served, to every
  tenant: on a worker that is not quarantined a call for a withdrawn route raises exactly
  when it is not the active one (`WithdrawnServedIffActive`).
- Quarantine of the worker is absorbing for sequential calls (`QuarantineAbsorbs`) but not
  for concurrent ones. It lasts in every run exactly when no thread is between the guard
  and the release of the lock, except with a payload that no file can make valid
  (`QuarantineLastsIff`); two threads suffice to quarantine a worker in service and put it
  back (`QuarantineIsNotAbsorbing`).
- Reused snapshots accept a route as fresh ones would exactly when every layer would pass
  the capture's checks (`ReuseAgreesIff`). Cached deltas end a call as validation would
  exactly when validation would give the same deltas (`CacheAgreesIff`), with the same
  result and weights exactly when the route cannot be swapped in anyway or its present
  payload is valid and gives the same weights (`CacheLooksFreshIff`). The comments present
  both as pure optimisations; while payloads do not change, the weights of successful calls
  are indeed the same (`ShortcutsRefineReset`).
- In the scheduler patch a route whose id is the empty string at the head of the waiting
  queue makes the target fall back to the base model and starves every other route behind
  it. Round robin holds of a route exactly when this does not block it
  (`RoundRobinIffNotBlocked`).
- The asyncio scheduler is described as fair across routes, yet with a clock that does not
  go back the selected route is the only one served for as long as it is never emptied
  (`OthersStarve`), and submits to it can keep that up for any number of fetches
  (`StarvingRun`).
- A maximum batch size of zero never drains the asyncio scheduler
  (`ZeroBatchSizeNeverDrains`), and the mock scheduler is stuck exactly when the slice
  keeps nothing (`StuckIff`).
- The rate limiter's balance goes negative exactly when its clock goes back by more than
  the tokens in store (`OverdrawnIffClockWentBack`).

## Model

| member | source | states |
|---|---|---|
| RuntimeState.RuntimeStateMachine.Transition | neural_scalpel/experimental/runtime_state.py:151-187 | a transition succeeds exactly along the table, records itself and sets or clears the quarantine fields; a refused one changes nothing; every record is an edge of the table |
| RuntimeState.TableReadBackwards | neural_scalpel/experimental/runtime_state.py:85-119 | the table of successors agrees, edge by edge, with one of predecessors written down on its own |
| RuntimeState.SwapFollowsSnapshot | neural_scalpel/experimental/runtime_state.py:85-119 | a walk along the table that starts READY and touches the weights has captured a snapshot since it last was READY |
| RuntimeState.QuarantineIsTerminal | neural_scalpel/experimental/runtime_state.py:109-118 | worker quarantine ends every walk and is entered only from a rollback or a route quarantine |
| FailurePolicy.ScopesAreSeparate | neural_scalpel/experimental/failure_policy.py:67-142 | a payload failure never costs the worker and costs the route unless the file was only too large; the worker is lost exactly to the five rollback, stuck-state and transition failures |
| FailurePolicy.VerdictsByClass | neural_scalpel/experimental/failure_policy.py:67-142 | which classes lead to each action, scope, target phase, status code and critical flag, listed by column |
| RouteRegistry.RouteRegistry.RegisterRoute | neural_scalpel/route/registry.py:28-61 | a manifest that passes every check becomes the route with PRODUCTION status; otherwise nothing changes |
| RouteRegistry.RouteRegistry.GetVerifiedRoute | neural_scalpel/route/registry.py:63-86 | hands out the stored manifest exactly when the route is present, its status, if any, is PRODUCTION, its model hash is the caller's, and its tenant is absent, empty or the caller's |
| RouteRegistry.ExecutableMeans | neural_scalpel/route/verifier.py:45-58 | the test the runtime proofs use is that condition on the manifest's and the registry's fields, both ways |
| RouteRegistry.RouteRegistry.RevokeRoute | neural_scalpel/route/registry.py:100-103 | revokes a known route and raises on an unknown one |
| RouteRegistry.RouteRegistry.QuarantineRoute | neural_scalpel/route/registry.py:105-109 | quarantines a known route with its reason and raises on an unknown one |
| RouteRegistry.ApplyMeans | neural_scalpel/route/registry.py:54-109 | for every call and route id: a verified registration opens the route to exactly the callers its manifest admits, a revocation or a quarantine withdraws it with that status, all other ids and refused calls change nothing |
| RouteRegistry.WithdrawnStays | neural_scalpel/route/registry.py:54-109 | a withdrawn route stays unusable for every model and tenant through any run of registry calls that does not register it again |
| LayerNames.ResolveLayerName | neural_scalpel/experimental/runtime.py:175-218 | the answer is always a key of the model; a name that is a key stands for itself; the first spelling that is a key wins, then the only key that ends in the name, then the only key the name ends in; it fails exactly when there is none of these |
| LayerNames.FirstPresent | neural_scalpel/experimental/runtime.py:199-202 | the first of the spellings, in the order they are tried, that is a key, and none exactly when no spelling is |
| LayerNames.CandidateFamilies | neural_scalpel/experimental/runtime.py:180-197 | for every rest of a name, which spellings stand for which: "model." dropped or added, "model.layers." and "model.model.layers." for each other, both for "layers." |
| LayerNames.EndsWithMeans | neural_scalpel/experimental/runtime.py:205-209 | the suffix test holds exactly when something put before the suffix gives the string |
| PayloadValidator.Validate | neural_scalpel/route/payload_validator.py:49-173 | the loop computes the specification's result, and succeeds exactly when there is no uri or the file and every layer fit, read on their fields |
| PayloadValidator.ValidatesIff | neural_scalpel/route/payload_validator.py:63-173 | with a uri it succeeds exactly when the file is present, of known size within the limit, hashes to a non-empty declared hash, and parses, and every layer's tensor, under its payload key or else its name, is there, has the declared shape and dtype and is finite; each name then has its last layer's tensor, and no other name has one |
| PayloadValidator.FileErrorClass | neural_scalpel/route/payload_validator.py:63-122 | the error class for the first thing wrong with the file, in the order of the checks |
| PayloadValidator.LayerErrorClass | neural_scalpel/route/payload_validator.py:124-173 | the error class for the first layer that does not fit, and for the first thing wrong with it |
| PayloadValidator.FirstFailureWins | neural_scalpel/route/payload_validator.py:124-173 | the error raised is that of the first layer that fails a check, all earlier layers passing |
| PayloadValidator.LastLayerWins | neural_scalpel/route/payload_validator.py:124-173 | on success a name has the tensor of the last layer that bears it, and only borne names have one |
| HotSwapRuntime.HotSwapRuntime.CaptureSnapshot | neural_scalpel/experimental/runtime.py:249-295 | the dictionaries afterwards, for every place a clone or checksum can raise and for reused snapshots; the weights stay |
| HotSwapRuntime.HotSwapRuntime.ApplySwap | neural_scalpel/experimental/runtime.py:297-343 | the weights and success of the specification function, layer by layer, at every failure point; what that function adds to which tensor is stated without it in RouteWeights.ApplyExact and RouteWeights.MissingDeltaFails |
| HotSwapRuntime.HotSwapRuntime.Rollback | neural_scalpel/experimental/runtime.py:345-353 | whatever the order of the dictionary, every restored tensor gets its snapshot or what the fault left, all others stay |
| HotSwapRuntime.HotSwapRuntime.VerifyRollback | neural_scalpel/experimental/runtime.py:355-363 | true exactly when every stored checksum matches its live tensor; it raises when there is one that cannot be computed |
| HotSwapRuntime.HotSwapRuntime.ApplyVerdict | neural_scalpel/experimental/runtime.py:220-245 | quarantines the route and the phase, or the worker by force, as the policy table prescribes |
| HotSwapRuntime.HotSwapRuntime.PerformRollback | neural_scalpel/experimental/runtime.py:571-613 | copies back by force of phase, then READY with one more rollback counted, or worker quarantine, or ROLLING_BACK when verification raises |
| HotSwapRuntime.HotSwapRuntime.Infer | neural_scalpel/experimental/runtime.py:367-480 | whole state, result and the weights inference saw, for every combination of the modelled faults |
| HotSwapRuntime.HotSwapRuntime.EnsureRoute | neural_scalpel/experimental/runtime.py:482-560 | whole state and result, with the skip, the eviction, the delta cache, the undo of a failed swap, and rollbacks that raise |
| HotSwapRuntime.HotSwapRuntime.ClearActiveRoute | neural_scalpel/experimental/runtime.py:562-569 | a resident route is rolled back and forgotten, and true exactly then; it stays named when verification raises |
| RouteWeights.CaptureSound | neural_scalpel/experimental/runtime.py:249-295 | captured at the base model, fresh or reused, every snapshot holds the base value of the tensor its name resolves to, and success covers every layer |
| RouteWeights.ApplyExact | neural_scalpel/experimental/runtime.py:297-343 | applied to the base model, tensor k is the base value with, in the order of the layers that resolve to k, the delta of the layer's name added, else the delta of k, else the dummy only when there is no payload block; a swap that fails has changed only tensors that snapshots restore |
| RouteWeights.MissingDeltaFails | neural_scalpel/experimental/runtime.py:334-340 | under a payload block a layer with a delta under neither name makes the swap fail, whatever else it holds |
| RouteWeights.RollbackRestores | neural_scalpel/experimental/runtime.py:345-363 | copying every snapshot restores the base model and verifies, whatever the partial swap left |
| RouteWeights.VerifiedMeansRestored | neural_scalpel/experimental/runtime.py:355-363 | with collision-free checksums of every restored tensor, a rollback that verifies has restored the base model, whatever it copied |
| RouteWeights.RollbackEnds | neural_scalpel/experimental/runtime.py:571-613 | a safe rollback ends READY at the base model, or in worker quarantine after a torn copy, or ROLLING_BACK exactly when verification raises, whatever checksums there are; the last two can still be restored |
| RouteWeights.DetectionNeedsChecksums | neural_scalpel/experimental/runtime.py:294-295 | faulty rollbacks are always detected if and only if every tensor they restore has a checksum |
| CaptureChecks.SnapshotsCheckedIff | neural_scalpel/experimental/runtime.py:262-295 | every tensor a capture leaves restorable has a checksum, if and only if it had one before, for reused snapshots, or the checksum that raises is not the first one of its tensor, for fresh ones |
| CaptureChecks.CaptureExact | neural_scalpel/experimental/runtime.py:249-295 | snapshots that cover every layer are reused unchanged; otherwise a capture that succeeds holds exactly its own layers, each with the tensor it resolves to, that tensor's value and its checksum |
| CaptureChecks.ReuseAgreesIff | neural_scalpel/experimental/runtime.py:262-292 | reused snapshots accept a route exactly as a fresh capture would, if and only if there are none for it or every layer passes the capture's checks |
| RouteWeights.UncheckedTensorCorrupted | neural_scalpel/experimental/runtime.py:355-363 | a tensor without a checksum can be left with any value while the worker goes back to READY |
| RouteWeights.SwapInExact | neural_scalpel/experimental/runtime.py:432-449 | the locked swap leaves the route's exact weights in phase SWAPPED, or damage the snapshots can undo |
| InferRuns.InferEnds | neural_scalpel/experimental/runtime.py:367-480 | a call ends READY at base, in worker quarantine, or stuck, the last exactly when it raises out of the verification of its rollback; a normal return means the first; inference saw base plus its own route; a clean call that gets to the lock recovers a stuck worker |
| InferRuns.ContainedIffChecked | neural_scalpel/experimental/runtime.py:403-480 | a call contains every rollback fault if and only if each tensor it restores has a checksum |
| InferRuns.ContainedIffNotStranded | neural_scalpel/experimental/runtime.py:249-295 | the same in terms of the state and the call: each reused snapshot has a checksum, or, captured afresh, the checksum that raises is not the first one of its tensor |
| InferRuns.ChecksumFaultHidesDamage | neural_scalpel/experimental/runtime.py:294-295 | a failing input: a checksum that raises and a torn copy leave a READY worker with a wrong weight |
| InferRuns.ReuseHidesDamage | neural_scalpel/experimental/runtime.py:262-295 | another: after a checksum fault with a clean rollback, the next call reuses the snapshot, nothing raises in its capture, and a torn copy goes unnoticed |
| InferRuns.QuarantineAbsorbs | neural_scalpel/experimental/runtime.py:382-387 | from worker quarantine on, every sequential call is refused and nothing but the registry changes |
| InferRuns.RunEnds | neural_scalpel/experimental/runtime.py:367-480 | over every sequential run whose rollbacks are safe the worker is READY at base, or quarantined for good, or stuck, the last exactly when the latest call that got to the lock raised out of the verification of its rollback |
| InferRuns.EveryRunEndsAtBase | neural_scalpel/experimental/runtime.py:367-480 | while verification computes its checksums every run of safe rollbacks, or of any rollbacks when every capture computes collision-free checksums, ends READY at base or in quarantine, and without rollback faults at base |
| InferRuns.PayloadFailureIsContained | neural_scalpel/experimental/runtime.py:403-424 | from any phase but quarantine a payload failure changes only its own route's status, withdrawing it exactly when the policy scopes the failure to the route, and then enters ROUTE_QUARANTINED exactly from the four phases that may go there |
| InferRuns.RouteScopedFailureLocksOut | neural_scalpel/experimental/failure_policy.py:67-142 | after a route-scoped failure every later call on the route is refused with weights untouched until its id is registered again |
| InferRuns.PayloadFailuresNeverQuarantineWorker | neural_scalpel/experimental/failure_policy.py:67-97 | no sequence of payload failures, however long, changes a weight or the phase |
| ResidentRuns.EnsureKeeps | neural_scalpel/experimental/runtime.py:482-560 | one call with safe rollbacks keeps the invariant; a normal return names the requested route as active; quarantine needs a torn rollback; the worker is left stuck exactly when the last rollback raises out of its verification or nothing is rolled back in a stuck phase |
| ResidentRuns.ShortcutsRefineReset | neural_scalpel/experimental/runtime.py:262-569 | after any run, whatever its history, the active route's payload validates and a worker neither quarantined nor stuck holds exactly base plus its deltas; without rollback faults it is neither |
| RouteAdmission.ActiveWasSwappedIn | neural_scalpel/experimental/runtime.py:511-555 | in every run, whatever its faults, the active route was swapped in by a call of the run to whose tenant the registry of that moment gave it, and has been active since |
| RouteAdmission.ActiveWasOpen | neural_scalpel/experimental/runtime.py:511-555 | at that call the route was in the registry, in production where it had a status, for this model, and its tenant absent, empty or the caller's |
| RouteAdmission.WithdrawnServedIffActive | neural_scalpel/experimental/runtime.py:496-518 | until it is registered again, a call for a withdrawn route on a worker not quarantined raises if and only if the route is not the active one |
| ServedCalls.SwapsInIff | neural_scalpel/experimental/runtime.py:249-343 | without faults the swap gets through if and only if snapshots are reused or every layer can be captured, and there is no payload block, or one with a uri, or no layer |
| ServedCalls.InferServedIff | neural_scalpel/experimental/runtime.py:367-480 | a call without faults at base returns, having seen base plus its own deltas, if and only if it gets to the lock and its swap gets through |
| ServedCalls.InferenceRunsIff | neural_scalpel/experimental/runtime.py:367-480 | however inference and the rollback after it end, inference runs, on base plus its own deltas, if and only if the call gets to the lock and its swap gets through |
| ServedCalls.ReturnedIff | neural_scalpel/experimental/runtime.py:450-480 | for every state and fault, a call returns an output if and only if inference ran and did not raise and the rollback ended READY; a refused call runs nothing and changes no weight |
| ServedCalls.EnsureReports | neural_scalpel/experimental/runtime.py:482-560 | a normal return leaves the requested route active and is true exactly when it was not before; an exception leaves active the old route or the base model |
| ServedCalls.ClearReports | neural_scalpel/experimental/runtime.py:562-569 | it raises exactly when there is a checksum to compute for the resident route and it raises; else base is active, and true means a route was |
| ServedCalls.UriLessPayloadNeverServed | neural_scalpel/experimental/runtime.py:334-340 | the failing input: a payload block without a uri passes validation and every call then raises |
| ServedCalls.EnsureServedIff | neural_scalpel/experimental/runtime.py:482-560 | a call without faults returns if and only if the worker is not quarantined and the route is active or base, or executable with a valid payload and a swap that gets through, on a worker not stuck without a route to evict |
| ResidentRuns.SwapAccounting | neural_scalpel/experimental/runtime.py:482-613 | without rollback faults, swaps plus failed swaps equal rollbacks plus one if a route is resident, and the phase is SWAPPED exactly then, READY otherwise |
| ResidentRuns.NormalReturnIsExact | neural_scalpel/experimental/runtime.py:493-560 | a normal return means a route that was active or that the registry gives to the tenant, with a valid payload, and its weights, unless base was asked for and the eviction quarantined the worker, or the worker was stuck with that route named as active; each exception exactly then |
| ResidentRuns.CacheAgreesIff | neural_scalpel/experimental/runtime.py:520-531 | a call that finds its deltas in the cache ends as if it had validated the payload afresh, if and only if that would give the cached deltas |
| ServedCalls.CacheLooksFreshIff | neural_scalpel/experimental/runtime.py:520-531 | its result and weights are those of a fresh validation, if and only if the manifest cannot be swapped in at all, or the present payload is valid and gives the same weights |
| ResidentRuns.InferRespectsResidencyIff | neural_scalpel/experimental/runtime.py:382-473 | an infer call with a clean rollback keeps the resident invariant if and only if it does not get to the lock while a route is resident |
| ResidentRuns.InferWhileResident | neural_scalpel/experimental/runtime.py:432-468 | the failing input: it raises and restores base but leaves the route named as active, and ensure_route then skips its swap |
| ResidentRuns.EscapedEvictionIsStale | neural_scalpel/experimental/runtime.py:496-505 | an eviction whose verification raises leaves the old route named as active over base weights, and asking for it again returns at once |
| ConcurrentInfer.PushTolerated | neural_scalpel/experimental/runtime.py:235-242 | a route quarantine pushed from outside the lock is tolerated wherever the lock holder is |
| ConcurrentInfer.RunKeeps | neural_scalpel/experimental/runtime.py:367-480 | the invariant of every reachable state, in every interleaving, without rollback faults or with faults that can be detected |
| ConcurrentInfer.EveryInterleavingIsIsolated | neural_scalpel/experimental/runtime.py:389-480 | every inference function runs on exactly base plus its own route, as a registry of the run gave it to its tenant and its payload file validated, and a free lock means READY with every weight at base |
| ConcurrentInfer.IsolationSurvivesFaults | neural_scalpel/experimental/runtime.py:389-613 | with rollback faults of any kind, collision-free checksums and no capture that fails to compute one, the passes are still exact, and a free lock means base, or a quarantined or stuck worker that can be restored |
| QuarantineEscapes.QuietRun | neural_scalpel/experimental/runtime.py:382-387 | while no thread is between the guard and the lock, no run of a quarantined worker changes a weight or the phase or runs inference |
| QuarantineEscapes.QuarantineLastsIff | neural_scalpel/experimental/runtime.py:382-428 | in every reachable state, whatever faults led there, worker quarantine lasts in every run if and only if no thread is between the guard and its release of the lock, except with a payload no file can make valid |
| QuarantineEscapes.QuarantineIsNotAbsorbing | neural_scalpel/experimental/runtime.py:571-577 | from a worker in service and any executable route, two threads: one quarantines the worker, the other, past the guard, puts it back in service |
| SoloInfer.SoloIsInfer | neural_scalpel/experimental/runtime.py:367-480 | an uninterrupted thread of the step system ends with the state, result and seen weights of the sequential infer, faults included |
| SchedulerPatch.ShelveQueue | integrations/vllm_route_plugin/scheduler_patch.py:46-64 | the queue keeps the target's requests and the rest is returned, both in order |
| SchedulerPatch.RestoreQueue | integrations/vllm_route_plugin/scheduler_patch.py:66-71 | the shelved requests stand in front in their original order |
| SchedulerPatch.Scheduler.ChooseTarget | integrations/vllm_route_plugin/scheduler_patch.py:76-87 | the target is the route of the first running, else first waiting request, else the base model |
| SchedulerPatch.RouteOfMeans | integrations/vllm_route_plugin/scheduler_patch.py:26-37 | a request belongs to its own non-empty route id, else to the one recorded for it, else to the base model, and to no other route |
| SchedulerPatch.Scheduler.Schedule | integrations/vllm_route_plugin/scheduler_patch.py:73-128 | the queues, the active route and the outcome; on the requests' fields: a returned batch is the original's and all of it belongs to its route, and the mixed-batch error is raised exactly when no route has all of it |
| SchedulerPatch.TargetMeans | integrations/vllm_route_plugin/scheduler_patch.py:76-87 | the target is the route that the first running, else the first waiting request belongs to, the base model standing in for an empty id and for empty lists |
| SchedulerPatch.StepConserves | integrations/vllm_route_plugin/scheduler_patch.py:89-107 | no request is lost or duplicated, whether the original scheduler returns or raises |
| SchedulerPatch.StepKeepsOrder | integrations/vllm_route_plugin/scheduler_patch.py:46-107 | every other route's waiting requests are exactly as before, in order; the target's are what the original scheduler left |
| SchedulerPatch.NoOpPartitions | integrations/vllm_route_plugin/scheduler_patch.py:46-107 | with an original scheduler that leaves its lists alone, whether it returns an empty batch or raises, the queue becomes its stable partition, non-matching first |
| SchedulerPatch.BatchesStayHomogeneous | integrations/vllm_route_plugin/scheduler_patch.py:73-128 | over every run from an empty running list, all running requests belong to one route, by their fields, all requests of a batch to the route it is returned under, and the mixed-batch error is unreachable |
| RoundRobin.RouteTakesItsTurn | integrations/vllm_route_plugin/scheduler_patch.py:76-107 | a route with p routes ahead of it becomes the target within p + 1 schedules that start idle, whatever arrives, finishes or runs in between |
| RoundRobin.BlockedRouteStarves | integrations/vllm_route_plugin/scheduler_patch.py:76-87 | a blocked route is never the target of a run whose schedules start idle, however long |
| RoundRobin.RoundRobinIffNotBlocked | integrations/vllm_route_plugin/scheduler_patch.py:76-107 | round robin holds of a waiting route if and only if no empty route id blocks it |
| ForwardHook.PatchedModelForward | integrations/vllm_route_plugin/model_runner_hook.py:19-59 | the runtime's state and the weights the forward saw, with the clean-up on error |
| ForwardHook.PatchedScheduleAndActivate | integrations/vllm_route_plugin/scheduler_patch.py:99-128 | the patched schedule, with the active route of the plugin set exactly when a batch is returned |
| ForwardHook.ActivatedIsShared | integrations/vllm_route_plugin/scheduler_patch.py:113-123 | the route a batch is activated under is the one all of it shares, and is never the empty id |
| ForwardHook.PassIsExact | integrations/vllm_route_plugin/model_runner_hook.py:36-52 | a pass is of a route with a valid payload and runs on its weights unless evicting for the base model quarantines the worker, or the worker is stuck with that route named as active; each exactly then |
| ForwardHook.HookOutcome | integrations/vllm_route_plugin/model_runner_hook.py:36-59 | the hook raises exactly when ensure_route or the forward does; the forward ran exactly when ensure_route returned; after an exception no route is left active unless the clean-up raises |
| ForwardHook.HookKeeps | integrations/vllm_route_plugin/model_runner_hook.py:42-59 | the hook leaves the worker stuck exactly when its last rollback raises out of its verification or it starts stuck and rolls nothing back |
| ForwardHook.EveryPassOnItsRoute | integrations/vllm_route_plugin/model_runner_hook.py:19-59 | in every alternation of patched schedules and forwards, each forward pass on a worker neither quarantined nor stuck runs on the weights of the one route its batch shares, whose payload validates and which an earlier call swapped in with the registry's leave; without rollback faults every pass does |
| ForwardHook.StalePassAfterEscape | integrations/vllm_route_plugin/model_runner_hook.py:54-59 | the failing input: a forward that raises and a clean-up that raises out of its verification make the next batch of the route run on base weights |
| AsyncScheduler.RouteAwareScheduler.SubmitRequest | neural_scalpel/serving/scheduler.py:61-90 | the request and its future join their route's accumulator, made when absent |
| AsyncScheduler.RouteAwareScheduler.FetchNextSafeBatch | neural_scalpel/serving/scheduler.py:94-124 | the batch cut from the oldest accumulator and the queues left, empty ones removed |
| AsyncScheduler.OldestFrom | neural_scalpel/serving/scheduler.py:104-108 | the selected accumulator is the first, in dictionary order, of the smallest creation time |
| AsyncScheduler.SubmitMeans | neural_scalpel/serving/scheduler.py:82-88 | a request joins the end of its route's accumulator, which keeps its creation time; a route without one gets one created now, last in the dictionary; other routes stay |
| AsyncScheduler.FetchMeans | neural_scalpel/serving/scheduler.py:100-124 | the batch is the first max requests, or all, of the accumulator created first, with their futures; what is left keeps its creation time and place, and only an emptied route goes |
| AsyncScheduler.ValidateBatchHomogeneity | neural_scalpel/serving/scheduler.py:128-153 | passes exactly when every request carries the batch's route |
| AsyncScheduler.NothingLostNothingMixed | neural_scalpel/serving/scheduler.py:61-124 | for every interleaving, per route the dispatched then the pending pairs of request and future are the submitted ones in order; batches are single-route, within the maximum; no empty queue is kept |
| AsyncScheduler.CeilRoundsUp | neural_scalpel/serving/scheduler.py:112-124 | the batches a queue of n takes are n divided by the maximum, rounded up |
| AsyncScheduler.DrainCount | neural_scalpel/serving/scheduler.py:94-124 | a drain takes exactly the sum over routes of those batches and then nothing |
| AsyncScheduler.ServedToTheEnd | neural_scalpel/serving/scheduler.py:94-124 | in every run whose clock does not go back, a selected route that is not emptied is selected again, whatever is submitted in between |
| AsyncScheduler.DrainIsContiguous | neural_scalpel/serving/scheduler.py:94-124 | a drain serves each route in one contiguous stretch, oldest first |
| AsyncScheduler.OthersStarve | neural_scalpel/serving/scheduler.py:104-122 | with a clock that does not go back the selected route is the only one served for as long as it is never emptied |
| AsyncScheduler.StarvingRun | neural_scalpel/serving/scheduler.py:104-122 | and for every n there is a run of submits to it and n fetches that all serve it, whoever else waits |
| AsyncScheduler.ZeroBatchSizeNeverDrains | neural_scalpel/serving/scheduler.py:112-124 | with a maximum of zero a fetch hands out an empty batch and changes nothing |
| ProxyBatching.ProxyGateway.InferEndpoint | neural_scalpel/serving/vllm_proxy.py:199-208 | the request is queued with its future and one batch task is started |
| ProxyBatching.ProxyGateway.BeginBatch | neural_scalpel/serving/vllm_proxy.py:149-164 | a task cuts up to 32 requests with their futures from its route's queue, or ends when there are none |
| ProxyBatching.ProxyGateway.SettleBatch | neural_scalpel/serving/vllm_proxy.py:177-185 | each future of the batch that is not done gets its answer, the others stay |
| ProxyBatching.NoRequestStranded | neural_scalpel/serving/vllm_proxy.py:145-208 | in every interleaving a route's pending requests never exceed its outstanding tasks, resolved futures hold the answer to their own request, and once all tasks finished none is pending and every future is done |
| ProxyBatching.BatchIsFront | neural_scalpel/serving/vllm_proxy.py:149-160 | a task with the lock takes exactly the first 32 requests of its route, or all when fewer, with their futures; the rest and the other routes' queues stay |
| ProxyBatching.ServedInOrder | neural_scalpel/serving/vllm_proxy.py:145-208 | in every interleaving a route's requests go into batches in the order of arrival, each once and beside its future |
| ProxyBatching.TakenInTurn | neural_scalpel/serving/vllm_proxy.py:145-208 | the first 32 k requests of a route are in batches by the time its tasks have had the lock k times |
| ProxyBatching.CancelledForGood | neural_scalpel/serving/vllm_proxy.py:177-185 | a client that goes away before its answer is never given one |
| ProxyBatching.DoneIsFinal | neural_scalpel/serving/vllm_proxy.py:177-185 | a future that is done is never set again |
| ProxyBatching.BatchSettlesItsOwn | neural_scalpel/serving/vllm_proxy.py:174-185 | finishing a batch answers each of its live futures with the result of the request at its place, a crash fails each of them, no other future changes |
| TokenBucket.RateLimiter.Consume | neural_scalpel/serving/vllm_proxy.py:75-89 | refill, cap and spend of one key, the other keys untouched |
| TokenBucket.GrantedIffCovered | neural_scalpel/serving/vllm_proxy.py:75-89 | a call is granted if and only if the capacity and the balance with its refill cover it |
| TokenBucket.CreditLaws | neural_scalpel/serving/vllm_proxy.py:75-89 | what a key can spend is the capacity before its first call, grows with the clock up to the capacity, and falls by exactly the tokens of a granted call of its own, and by nothing else |
| TokenBucket.CreditIsExact | neural_scalpel/serving/vllm_proxy.py:75-89 | over every run, the credit at the end is the least of the starting credit and of a full bucket at each call, each plus the refill and less what was accepted since: no token is lost or made |
| TokenBucket.AcceptedIsPaidFor | neural_scalpel/serving/vllm_proxy.py:81-89 | what a run accepts of a key is at most its credit at the start plus the refill, less its credit at the end |
| TokenBucket.WindowBound | neural_scalpel/serving/vllm_proxy.py:68-89 | in every window of every run with a nondecreasing clock, accepted tokens are at most capacity plus rate times length, and balances stay in [0, capacity] |
| TokenBucket.KeysIndependent | neural_scalpel/serving/vllm_proxy.py:75-89 | what a key is granted depends on its own calls only |
| TokenBucket.OverdrawnIffClockWentBack | neural_scalpel/serving/vllm_proxy.py:82-89 | whatever is asked for, a balance turns negative if and only if the clock goes back by more than the tokens in store |
| MockPipeline.RouteAwareBlockAllocator.Allocate | neural_scalpel/serving/vllm_internal_mock.py:42-49 | the first free block, tagged with the route, or an error when none is free |
| MockPipeline.GroupByRoute | neural_scalpel/serving/vllm_internal_mock.py:77-82 | each route's group is its pending requests in order, and routes without any have none |
| MockPipeline.RouteAwareScheduler.ScheduleNextBatch | neural_scalpel/serving/vllm_internal_mock.py:69-95 | the batch is the slice of the front route's group, and exactly its requests leave the queue |
| MockPipeline.RouteAwareModelRunner.ExecuteForwardPass | neural_scalpel/serving/vllm_internal_mock.py:123-166 | the whole state and error, with guard, homogeneity check, swap, access checks, allocation and rollback |
| MockPipeline.StepKeeps | neural_scalpel/serving/vllm_internal_mock.py:69-166 | running out of blocks is the only error, raised exactly when the batch exceeds the free blocks; leakage and mixed-batch errors never occur; one swap per batch of a real route |
| MockPipeline.GuardsInOrder | neural_scalpel/serving/vllm_internal_mock.py:123-150 | quarantine, then the empty batch, then a second route in the batch, each without any change; then a block of the first request with another route's tag counts one leak and is rolled back; read on the fields |
| MockPipeline.ServeGrants | neural_scalpel/serving/vllm_internal_mock.py:151-154 | each request gets the free blocks that fall to its places in the batch, in order, and nothing else is given out |
| MockPipeline.CompletedIff | neural_scalpel/serving/vllm_internal_mock.py:123-166 | over every run the completed requests are exactly the first of those dispatched, as many as there were free blocks, and they are the ones that hold blocks |
| MockPipeline.RunKeeps | neural_scalpel/serving/vllm_internal_mock.py:37-166 | in every run each block has at most one owner and its owner's route tag, and free plus owned blocks are the total |
| MockPipeline.NothingLost | neural_scalpel/serving/vllm_internal_mock.py:66-95 | per route, dispatched then pending requests are those that were pending and then added, in order |
| MockPipeline.BoundedWait | neural_scalpel/serving/vllm_internal_mock.py:69-95 | with a batch size of at least one, the request at position i is dispatched within i + 1 dispatches, whatever arrives and whether or not they fail |
| MockPipeline.StuckIff | neural_scalpel/serving/vllm_internal_mock.py:86-93 | a dispatch makes no progress if and only if the slice keeps nothing, and then the queue is unchanged |
| MockPipeline.BatchIsSlice | neural_scalpel/serving/vllm_internal_mock.py:84-89 | the batch is the front route's first max requests, or with a negative limit all but the last so many |
| Sparsity.SumPermuted | neural_scalpel/core/math.py:260-264 | the sum of energies does not depend on the order the sort puts them in |
| Sparsity.CumSumSorted | neural_scalpel/core/math.py:264-267 | the cumulative energies are nondecreasing, as the search requires |
| Sparsity.ClampIff | neural_scalpel/core/math.py:266-269 | the clamp acts if and only if more than the total energy is asked for |
| Sparsity.KeepsEnough | neural_scalpel/core/math.py:257-275 | the thresholded vector keeps at least the energy asked for, or all there is |
| Sparsity.NothingToSpare | neural_scalpel/core/math.py:266-271 | raising the threshold past its tie class falls below the energy asked for, if and only if that is positive |
| Sparsity.ThresholdIsGreatest | neural_scalpel/core/math.py:260-271 | the threshold is the greatest magnitude whose entries, with all larger ones, hold the energy asked for |
| Sparsity.TiesDoNotMatter | neural_scalpel/core/math.py:262-271 | however the sort breaks ties, the threshold is the same |
| Sparsity.SparsifyLosesLittle | neural_scalpel/core/math.py:245-276 | every entry is kept or zeroed, zeroed ones are smaller than every kept one, and at most the share 1 - p of the energy is lost; only the empty delta fails |
| Sparsity.SparsifyExact | neural_scalpel/core/math.py:245-276 | entry i of the result is kept exactly when the entries of larger magnitude hold less than the energy asked for, or, when none is asked for, when no entry is larger; that is when it is at least as large as the smallest kept entry |
| Sparsity.SortExists | neural_scalpel/core/math.py:262 | every vector has a descending sort, so the theorems about sorts are not empty |
| Q8Quant.PackRoundTrip | neural_scalpel/io/gguf_bridge.py:112-137 | unpacking the 34-byte blocks gives back the scales and the signed levels |
| Q8Quant.QuantizedAt | neural_scalpel/io/gguf_bridge.py:127-138 | element 32 j + i goes into byte 34 j + 2 + i as its level in two's complement, at the scale d in half precision in bytes 34 j and 34 j + 1, 127 d being the largest magnitude of the row |
| Q8Quant.DequantizedAt | neural_scalpel/io/gguf_bridge.py:102-113 | of any bytes, element k is the signed byte 34 (k / 32) + 2 + k % 32 times the scale of its block, in half precision |
| Q8Quant.DequantizeShort | neural_scalpel/io/gguf_bridge.py:108-113 | less than one block gives zeros; whole blocks too few for the shape are the only error |
| Q8Quant.LevelInRange | neural_scalpel/io/gguf_bridge.py:109-111 | a level stays within [-127, 127] |
| Q8Quant.RowRoundTrip | neural_scalpel/io/gguf_bridge.py:109-138 | in one block the clamp never acts and each element comes back near |
| Q8Quant.LevelError | neural_scalpel/io/gguf_bridge.py:109-138 | a level times the stored scale misses the element by at most d / 2 + 127e-12 + 127 times the scale's rounding error |
| Q8Quant.LargestLevel | neural_scalpel/io/gguf_bridge.py:109-111 | the largest element of a block takes level 127 if and only if the scale exceeds 253e-12 |
| Q8Quant.RoundTrip | neural_scalpel/io/gguf_bridge.py:102-138 | n elements become ceil(n / 32) blocks of 34 bytes and come back as exactly n elements in order, each within the bound before the last rounding, for every arithmetic accurate enough |
| Q8Quant.ExactRoundTrip | neural_scalpel/io/gguf_bridge.py:102-138 | exact arithmetic with any half-precision conversions is accurate enough |

## Left out

- HotSwapRuntime.HotSwapRuntime.ApplySwap: the reload with no validated deltas raises or finds nothing; what else the loader could return is not modelled, and validation returns no deltas only when there is no uri or no layer.
- HotSwapRuntime.HotSwapRuntime.EnsureRoute: exceptions that are not an `Exception` escape its handler, and the hook's, in the same way and are not modelled.
- HotSwapRuntime.HotSwapRuntime.Infer: a model without an accessible state dict, failures of logging and the messages of exceptions are not modelled; nor is an inference function that raises what is not an `Exception` (KeyboardInterrupt, SystemExit), which the handlers do not catch, so that the lock is released with the route's weights live in FORWARDING.
- ResidentRuns.EnsureKeeps: `ensure_route` is taken as sequential, because its first steps are outside the lock.
- ConcurrentInfer.EveryInterleavingIsIsolated: `infer` threads and registry calls only; `ensure_route` does not run beside them.
- RuntimeState.RuntimeStateMachine.Transition: timestamps of history records.
- RouteRegistry.RouteRegistry.RegisterRoute: schema, hash, signature, licence and verdict checks are one boolean input; storage on disk.
- SchedulerPatch.Scheduler.Schedule: the original scheduler only moves requests among the lists it is given, and returning None without raising is not modelled; queues are first-come first-served, not priority queues.
- RoundRobin.RouteTakesItsTurn: aborts are excluded from fairness runs, and the claim is about the waiting queue, since with only skipped requests the target falls back to the base model.
- ForwardHook.EveryPassOnItsRoute: a forward pass runs on the batch of the last schedule, as vLLM alternates them; attributes set on the scheduler output are left out.
- AsyncScheduler.RouteAwareScheduler.FetchNextSafeBatch: negative batch sizes, and the fresh creation time stamped on the batch handed out; the background drain loop and its timer.
- ProxyBatching.NoRequestStranded: task cancellation and failing lock acquisition; the backend call returns errors as bodies, so it is an input.
- TokenBucket.WindowBound: floating-point rounding and races between threads.
- MockPipeline.RouteAwareModelRunner.ExecuteForwardPass: the block lists and statuses that requests carry are two tables of the runner, and a request's route does not change after it is made; requests of a failed batch stay dropped, as in the source.
- Sparsity.SparsifyLosesLittle: broadcasting of unequal shapes, the sparse storage format and rounding.
- Q8Quant.ExactRoundTrip: rounding of single-precision arithmetic, infinities and NaN; the other tensor types of the file format.
- LayerNames.ResolveLayerName: kept apart from the runtime proofs, which hold for every way of resolving names.
- Timings, audit files, Prometheus counters, HTTP, authentication, and the legacy transition and swap methods of the runtime.
- `kv_cache_policy.py`, `vllm_bridge.py`, the Q4_0 branch, and the alignment and decomposition code: no two-sided property to prove.
