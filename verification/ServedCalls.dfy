/** When a call without faults is served: a route is swapped in exactly when its manifest
    lets it be. */
module ServedCalls {
  import opened Prelude
  import opened Tensors
  import opened RuntimeState
  import opened FailurePolicy
  import opened RouteRegistry
  import opened PayloadValidator
  import opened HotSwapModel
  import opened RouteWeights
  import opened CaptureChecks
  import InferRuns
  import opened ResidentRuns

  // The manifest has a delta for each of its layers once it validates: it has no payload
  // block, so that deltas are simulated, or one with a uri, or nothing to apply.
  predicate Appliable(m: Manifest) {
    m.payload.None? || HasUri(m) || m.layers == []
  }

  // A swap at the base model gets through.
  ghost predicate Acceptable<T>(ops: ModelOps<T>, base: Weights<T>, st: Store<T>, m: Manifest) {
    && (Golden(st, m.layers) || forall j :: 0 <= j < |m.layers| ==> Capturable(ops, base, m.layers[j]))
    && Appliable(m)
  }

  // ----- Applying -----

  // The deltas are what validation of some payload file gave.
  ghost predicate Validated<T(!new)>(ops: ModelOps<T>, m: Manifest, deltas: map<string, T>, maxBytes: nat) {
    exists file: PayloadFile<T> :: ValidatePayload(ops, m, file, maxBytes) == Ok(deltas)
  }

  lemma LayerHasDelta<T(!new)>(ops: ModelOps<T>, m: Manifest, deltas: map<string, T>, maxBytes: nat, i: nat)
    requires Validated(ops, m, deltas, maxBytes) && HasUri(m) && i < |m.layers|
    ensures m.layers[i].name in deltas
  {
    var file: PayloadFile<T> :| ValidatePayload(ops, m, file, maxBytes) == Ok(deltas);
    ValidationIsFailClose(ops, m, file, maxBytes);
    assert FromLastLayer(OpenPayload(m, file, maxBytes).value, m.layers, deltas, m.layers[i].name);
    assert NamedFrom(m.layers, 0, m.layers[i].name);
  }

  // Each layer names a live tensor and has a delta for it.
  ghost predicate LayersHaveDeltas<T>(w: Weights<T>, names: map<string, string>, m: Manifest, deltas: map<string, T>) {
    forall i :: 0 <= i < |m.layers| ==>
      var name := m.layers[i].name;
      Target(names, name) in w && !ChooseDelta(deltas, m, name, Target(names, name)).NoDelta?
  }

  lemma {:induction false} AppliesAll<T>(
      ops: ModelOps<T>, w: Weights<T>, names: map<string, string>, m: Manifest, deltas: map<string, T>, i: nat)
    requires i <= |m.layers| && LayersHaveDeltas(w, names, m, deltas)
    ensures ApplyLayers(ops, w, names, m, deltas, i, NoApplyFault).1
    decreases |m.layers| - i
  {
    if i < |m.layers| {
      var (w', ok) := ApplyLayer(ops, w, names, m, deltas, i, NoApplyFault);
      AppliesAll(ops, w', names, m, deltas, i + 1);
    }
  }

  lemma SnapshotNamesTensor<T>(ops: ModelOps<T>, base: Weights<T>, st: Store<T>, name: string)
    requires Sound(ops, base, st) && name in st.snapshots
    ensures Target(st.names, name) in base
  {
  }

  lemma AppliesIff<T(!new)>(
      ops: ModelOps<T>, base: Weights<T>, st: Store<T>, m: Manifest, deltas: map<string, T>, maxBytes: nat)
    requires Sound(ops, base, st) && HasLayers(st, m.layers) && Validated(ops, m, deltas, maxBytes)
    ensures ApplySwap(ops, base, st.names, m, deltas, NoApplyFault).1 <==> Appliable(m)
  {
    if Appliable(m) {
      forall i | 0 <= i < |m.layers|
        ensures var name := m.layers[i].name;
          Target(st.names, name) in base && !ChooseDelta(deltas, m, name, Target(st.names, name)).NoDelta?
      {
        SnapshotNamesTensor(ops, base, st, m.layers[i].name);
        if HasUri(m) {
          LayerHasDelta(ops, m, deltas, maxBytes, i);
        }
      }
      AppliesAll(ops, base, st.names, m, deltas, 0);
    } else {
      NothingToApply(ops, base, st, m, deltas, maxBytes, NoApplyFault);
    }
  }

  // A payload block without a uri validates to no deltas, and the first layer then raises.
  lemma NothingToApply<T(!new)>(
      ops: ModelOps<T>, base: Weights<T>, st: Store<T>, m: Manifest, deltas: map<string, T>, maxBytes: nat,
      fault: ApplyFault<T>)
    requires Sound(ops, base, st) && HasLayers(st, m.layers) && Validated(ops, m, deltas, maxBytes)
    requires !Appliable(m)
    ensures !ApplySwap(ops, base, st.names, m, deltas, fault).1
  {
    SnapshotNamesTensor(ops, base, st, m.layers[0].name);
    assert deltas == map[];
    assert !ApplyLayer(ops, base, st.names, m, deltas, 0, fault).1;
  }

  // ----- Swapping in -----

  lemma CapturesIff<T>(ops: ModelOps<T>, base: Weights<T>, st: Store<T>, m: Manifest)
    ensures CaptureSnapshot(ops, base, st, m.layers, NoCaptureFault).1 <==>
      Golden(st, m.layers) || forall j :: 0 <= j < |m.layers| ==> Capturable(ops, base, m.layers[j])
  {
    FreshAccepts(ops, base, m.layers, 0, EmptyStore());
  }

  lemma SwapsInIff<T(!new)>(
      ops: ModelOps<T>, base: Weights<T>, s: Runtime<T>, m: Manifest, deltas: map<string, T>, maxBytes: nat)
    requires InferRuns.AtBase(ops, base, s) && Validated(ops, m, deltas, maxBytes)
    ensures SwapIn(ops, s, m, deltas, NoCaptureFault, NoApplyFault).1 <==> Acceptable(ops, base, s.store, m)
  {
    CapturesIff(ops, base, s.store, m);
    CaptureSound(ops, base, s.store, m.layers, NoCaptureFault);
    var (st, captured) := CaptureSnapshot(ops, base, s.store, m.layers, NoCaptureFault);
    if captured {
      AppliesIff(ops, base, st, m, deltas, maxBytes);
    }
  }

  // ----- What a caller is told -----

  // The rollback raises out of its verification exactly when a checksum that there is to
  // compute raises; the phase then says so, as it says the two other ends.
  lemma RollbackReports<T>(ops: ModelOps<T>, s: Runtime<T>, o: RollbackOutcome<T>)
    ensures var p := PerformRollback(ops, s, o);
      && p == s.(weights := p.weights, phase := p.phase, rollbacks := p.rollbacks)
      && p.weights == RollBack(s.weights, s.store, o)
      && p.phase in {RollingBack, WorkerQuarantined, Ready}
      && (p.phase == RollingBack <==> o.VerifyRaises? && s.store.checksums.Keys != {})
      && p.rollbacks == s.rollbacks + (if p.phase == Ready then 1 else 0)
      && (p.phase == Ready ==> !(o.Torn? && o.raises) && VerifyRollback(ops, p.weights, s.store))
      && (o.Torn? && o.raises ==> p.phase == WorkerQuarantined)
      && (o == Restored && VerifyRollback(ops, p.weights, s.store) ==> p.phase == Ready)
  {
  }

  // Whatever struck, infer returns an output exactly when inference ran and did not raise
  // and the rollback after it ended in READY; before the lock it runs nothing.
  lemma ReturnedIff<T>(cfg: Config<T>, s: Runtime<T>, c: InferCall<T>)
    ensures var out := Infer(cfg, s, c);
      && (out.result == Returned <==> out.seen.Some? && !c.inferenceRaises && out.state.phase == Ready)
      && (out.result == Refused ==> out.seen == None && out.state.weights == s.weights && out.state.store == s.store)
  {
  }

  // ensure_route that returns leaves its route active, and says whether it was not before;
  // one that raises leaves active the old route or the base model.
  lemma EnsureReports<T>(cfg: Config<T>, s: Runtime<T>, c: EnsureCall<T>)
    ensures var out := EnsureRoute(cfg, s, c);
      && (out.result.Ok? ==> out.state.active == c.routeId && (out.result.value <==> s.active != c.routeId))
      && (out.result == Ok(false) ==> out.state == s)
      && (out.result.Err? ==> out.state.active in {s.active, BASE})
  {
  }

  // It counts a swap exactly when it returns true for a route.
  lemma EnsureCounts<T>(cfg: Config<T>, s: Runtime<T>, c: EnsureCall<T>)
    ensures var out := EnsureRoute(cfg, s, c);
      out.state.swaps == s.swaps + (if out.result == Ok(true) && c.routeId != BASE then 1 else 0)
  {
    if Attempts(cfg, s, c) {
      var deltas := DeltasUsed(cfg, s, c);
      AttemptIsSwap(cfg, s, c);
      SwapCounts(cfg, Evicted(cfg, s, c, deltas), s.registry.routes[c.routeId], deltas, c);
    }
  }

  lemma SwapCounts<T>(cfg: Config<T>, s: Runtime<T>, m: Manifest, deltas: map<string, T>, c: EnsureCall<T>)
    ensures var out := SwapOrUndo(cfg, s, m, deltas, c);
      out.result in {Ok(true), Err(())} && out.state.swaps == s.swaps + (if out.result.Ok? then 1 else 0)
  {
  }

  // clear_active_route raises exactly when the rollback of a resident route does; otherwise
  // the base model is active, and it says whether it was not before.
  lemma ClearReports<T>(cfg: Config<T>, s: Runtime<T>, o: RollbackOutcome<T>)
    ensures var (s', res) := ClearActiveRoute(cfg, s, o);
      && (res.Err? <==> s.active != BASE && o.VerifyRaises? && s.store.checksums.Keys != {})
      && (res.Ok? ==> s'.active == BASE && (res.value <==> s.active != BASE))
      && (res.Err? ==> s'.active == s.active && s'.phase == RollingBack)
      && (s.active == BASE ==> s' == s)
  {
  }

  // ----- infer -----

  ghost predicate Faultless<T>(c: InferCall<T>) {
    c.captureFault == NoCaptureFault && c.applyFault == NoApplyFault && !c.inferenceRaises && c.rollback == Restored
  }

  // A call without faults on a worker in service returns exactly when the registry and the
  // payload let it get to the lock and its manifest can be captured and applied; inference
  // has then run on the base model plus its own deltas.
  lemma InferServedIff<T(!new)>(cfg: Config<T>, base: Weights<T>, s: Runtime<T>, c: InferCall<T>)
    requires InferRuns.AtBase(cfg.ops, base, s) && Faultless(c)
    ensures var out := Infer(cfg, s, c);
      && (out.result == Returned <==>
            InferRuns.Reaches(cfg, s, c) && Acceptable(cfg.ops, base, s.store, s.registry.routes[c.routeId]))
      && (out.result == Returned ==>
            out.seen
              == Some(BasePlus(cfg.ops, base, s.registry.routes[c.routeId], InferRuns.DeltasFor(cfg, s, c).value)))
  {
    if InferRuns.Reaches(cfg, s, c) {
      var m, deltas := s.registry.routes[c.routeId], InferRuns.DeltasFor(cfg, s, c).value;
      assert Validated(cfg.ops, m, deltas, cfg.maxBytes);
      SwapsInIff(cfg.ops, base, s, m, deltas, cfg.maxBytes);
      InferRuns.InferEnds(cfg, base, s, c);
    } else {
      InferRuns.RefusedCall(cfg, s, c);
    }
  }

  // However inference and the rollback after it end, inference runs exactly when the call
  // reaches the lock and its manifest can be captured and applied, and sees its own deltas
  // on the base model.
  lemma InferenceRunsIff<T(!new)>(cfg: Config<T>, base: Weights<T>, s: Runtime<T>, c: InferCall<T>)
    requires InferRuns.AtBase(cfg.ops, base, s) && c.captureFault == NoCaptureFault && c.applyFault == NoApplyFault
    ensures var out := Infer(cfg, s, c);
      && (out.seen.Some? <==>
            InferRuns.Reaches(cfg, s, c) && Acceptable(cfg.ops, base, s.store, s.registry.routes[c.routeId]))
      && (out.seen.Some? ==>
            out.seen.value
              == BasePlus(cfg.ops, base, s.registry.routes[c.routeId], InferRuns.DeltasFor(cfg, s, c).value))
  {
    if InferRuns.Reaches(cfg, s, c) {
      var m, deltas := s.registry.routes[c.routeId], InferRuns.DeltasFor(cfg, s, c).value;
      assert Validated(cfg.ops, m, deltas, cfg.maxBytes);
      SwapsInIff(cfg.ops, base, s, m, deltas, cfg.maxBytes);
      SwapInExact(cfg.ops, base, s, m, deltas, NoCaptureFault, NoApplyFault);
    } else {
      InferRuns.RefusedCall(cfg, s, c);
    }
  }

  // A payload block without a uri passes validation, and then every call raises.
  lemma UriLessPayloadNeverServed<T(!new)>(cfg: Config<T>, base: Weights<T>, s: Runtime<T>, c: InferCall<T>)
    requires InferRuns.AtBase(cfg.ops, base, s) && s.phase == Ready
    requires Executable(s.registry, c.routeId, cfg.modelHash, c.tenant) && !Appliable(s.registry.routes[c.routeId])
    ensures InferRuns.Reaches(cfg, s, c) && Infer(cfg, s, c).result == Raised && Infer(cfg, s, c).seen == None
  {
    var m := s.registry.routes[c.routeId];
    assert Validated(cfg.ops, m, map[], cfg.maxBytes) by {
      assert ValidatePayload(cfg.ops, m, c.file, cfg.maxBytes) == Ok(map[]);
    }
    CaptureSound(cfg.ops, base, s.store, m.layers, c.captureFault);
    var (st, captured) := CaptureSnapshot(cfg.ops, base, s.store, m.layers, c.captureFault);
    if captured {
      NothingToApply(cfg.ops, base, st, m, map[], cfg.maxBytes, c.applyFault);
    }
    assert !SwapIn(cfg.ops, s, m, map[], c.captureFault, c.applyFault).1;
  }

  // ----- ensure_route -----

  ghost predicate FaultlessEnsure<T>(c: EnsureCall<T>) {
    c.captureFault == NoCaptureFault && c.applyFault == NoApplyFault && c.evict == Restored && c.undo == Restored
  }

  // The swap of ensure_route at the base model: its result and the weights it leaves.
  lemma SwapOutcome<T(!new)>(
      cfg: Config<T>, base: Weights<T>, s: Runtime<T>, m: Manifest, deltas: map<string, T>, c: EnsureCall<T>)
    requires InferRuns.AtBase(cfg.ops, base, s) && FaultlessEnsure(c) && Validated(cfg.ops, m, deltas, cfg.maxBytes)
    ensures var out := SwapOrUndo(cfg, s, m, deltas, c);
      && (out.result == if Acceptable(cfg.ops, base, s.store, m) then Ok(true) else Err(()))
      && (out.state.weights
            == if Acceptable(cfg.ops, base, s.store, m) then BasePlus(cfg.ops, base, m, deltas) else base)
  {
    SwapsInIff(cfg.ops, base, s, m, deltas, cfg.maxBytes);
    SwapInExact(cfg.ops, base, s, m, deltas, NoCaptureFault, NoApplyFault);
    var (s', swapped) := SwapIn(cfg.ops, s, m, deltas, NoCaptureFault, NoApplyFault);
    if !swapped {
      RollbackEnds(cfg.ops, base, s', Restored);
    }
  }

  // From a stuck phase with no route named as active, the swap only rolls back.
  lemma StuckSwapFails<T>(cfg: Config<T>, s: Runtime<T>, m: Manifest, deltas: map<string, T>, c: EnsureCall<T>)
    requires s.phase != Ready
    ensures SwapOrUndo(cfg, s, m, deltas, c).result == Err(())
  {
  }

  // A call of ensure_route without faults returns exactly when the worker is not
  // quarantined and the route is active already, or is the base model, or is executable
  // with a valid payload and a manifest that can be captured and applied, unless the
  // worker is stuck with nothing to evict.
  lemma EnsureServedIff<T(!new)>(cfg: Config<T>, world: World<T>, base: Weights<T>, s: Runtime<T>, c: EnsureCall<T>)
    requires Inv(cfg, world, base, s) && InWorld(world, Ensure(c)) && FaultlessEnsure(c)
    ensures EnsureRoute(cfg, s, c).result.Ok? <==>
      && s.phase != WorkerQuarantined
      && (|| c.routeId in {BASE, s.active}
          || (&& Executable(s.registry, c.routeId, cfg.modelHash, c.tenant) && DeltasOf(cfg, world, c.routeId).Ok?
              && (s.active != BASE || s.phase == Ready)
              && Acceptable(cfg.ops, base, s.store, world.manifest(c.routeId))))
  {
    if s.phase != WorkerQuarantined && c.routeId !in {BASE, s.active} {
      EvictKeeps(cfg, world, base, s, c.evict);
      if Attempts(cfg, s, c) {
        AttemptServedIff(cfg, world, base, s, c);
      }
    }
  }

  lemma AttemptServedIff<T(!new)>(cfg: Config<T>, world: World<T>, base: Weights<T>, s: Runtime<T>, c: EnsureCall<T>)
    requires Inv(cfg, world, base, s) && InWorld(world, Ensure(c)) && FaultlessEnsure(c) && Attempts(cfg, s, c)
    ensures EnsureRoute(cfg, s, c).result.Ok? <==>
      (s.active != BASE || s.phase == Ready) && Acceptable(cfg.ops, base, s.store, world.manifest(c.routeId))
    ensures DeltasOf(cfg, world, c.routeId).Ok?
  {
    var deltas, m := DeltasUsed(cfg, s, c), s.registry.routes[c.routeId];
    var s1 := Evicted(cfg, s, c, deltas);
    AttemptIsSwap(cfg, s, c);
    EvictKeeps(cfg, world, base, s, c.evict);
    assert m == world.manifest(c.routeId) && DeltasOf(cfg, world, c.routeId) == Ok(deltas);
    assert Validated(cfg.ops, m, deltas, cfg.maxBytes);
    if s1.phase == Ready {
      SwapOutcome(cfg, base, s1, m, deltas, c);
    } else {
      StuckSwapFails(cfg, s1, m, deltas, c);
    }
  }

  // ----- Stale deltas -----

  // Two outcomes that a caller cannot tell apart by the result and the weights.
  ghost predicate LooksAlike<T>(a: EnsureOutcome<T>, b: EnsureOutcome<T>) {
    a.result == b.result && a.state.weights == b.state.weights
  }

  // Deltas cached from an earlier payload are served in place of the present one's: result
  // and weights are those of a fresh validation exactly when the manifest cannot be swapped
  // in at all, or the present payload is valid and gives the same weights.
  lemma CacheLooksFreshIff<T(!new)>(cfg: Config<T>, base: Weights<T>, s: Runtime<T>, c: EnsureCall<T>)
    requires InferRuns.AtBase(cfg.ops, base, s) && s.active == BASE && c.routeId != BASE && FaultlessEnsure(c)
    requires c.routeId in s.cache && Executable(s.registry, c.routeId, cfg.modelHash, c.tenant)
    requires Validated(cfg.ops, s.registry.routes[c.routeId], s.cache[c.routeId], cfg.maxBytes)
    ensures var m := s.registry.routes[c.routeId];
      var anew := ValidatePayload(cfg.ops, m, c.file, cfg.maxBytes);
      LooksAlike(EnsureRoute(cfg, s, c), EnsureRoute(cfg, s.(cache := s.cache - {c.routeId}), c)) <==>
        || !Acceptable(cfg.ops, base, s.store, m)
        || (anew.Ok? && BasePlus(cfg.ops, base, m, anew.value) == BasePlus(cfg.ops, base, m, s.cache[c.routeId]))
  {
    var m, bare := s.registry.routes[c.routeId], s.(cache := s.cache - {c.routeId});
    AttemptOutcome(cfg, base, s, c);
    if ValidatePayload(cfg.ops, m, c.file, cfg.maxBytes).Ok? {
      AttemptOutcome(cfg, base, bare, c);
    }
  }

  lemma AttemptOutcome<T(!new)>(cfg: Config<T>, base: Weights<T>, s: Runtime<T>, c: EnsureCall<T>)
    requires InferRuns.AtBase(cfg.ops, base, s) && s.active == BASE && FaultlessEnsure(c) && Attempts(cfg, s, c)
    requires Validated(cfg.ops, s.registry.routes[c.routeId], DeltasUsed(cfg, s, c), cfg.maxBytes)
    ensures var out := EnsureRoute(cfg, s, c); var m := s.registry.routes[c.routeId];
      && (out.result == if Acceptable(cfg.ops, base, s.store, m) then Ok(true) else Err(()))
      && (out.state.weights ==
            if Acceptable(cfg.ops, base, s.store, m) then BasePlus(cfg.ops, base, m, DeltasUsed(cfg, s, c)) else base)
  {
    AttemptIsSwap(cfg, s, c);
    var deltas := DeltasUsed(cfg, s, c);
    SwapOutcome(cfg, base, Evicted(cfg, s, c, deltas), s.registry.routes[c.routeId], deltas, c);
  }
}
