/** The hot-swap runtime as an object: live weights changed in place, dictionaries
    filled and cleared, loops over layers. Each method does exactly what the function
    of the same name in HotSwapModel says. */
module HotSwapRuntime {
  import opened Prelude
  import opened Tensors
  import opened RuntimeState
  import opened FailurePolicy
  import opened RouteRegistry
  import opened PayloadValidator
  import opened HotSwapModel
  import M = HotSwapModel

  // Names that share a tensor share its snapshot, and every name leads to a live tensor.
  // Every method keeps this, in every phase and whatever fails.
  ghost predicate Coherent<T>(keys: set<string>, st: Store<T>) {
    && st.snapshots.Keys <= st.names.Keys
    && st.checksums.Keys <= st.snapshots.Keys
    && (forall n :: n in st.snapshots ==> st.names[n] in keys)
    && (forall a, b :: a in st.snapshots && b in st.snapshots && st.names[a] == st.names[b] ==>
          st.snapshots[a] == st.snapshots[b])
  }

  // Snapshots just taken from the weights `w`.
  ghost predicate TakenFrom<T>(ops: ModelOps<T>, w: Weights<T>, st: Store<T>) {
    && st.snapshots.Keys <= st.names.Keys
    && st.checksums.Keys <= st.snapshots.Keys
    && (forall n :: n in st.names ==> st.names[n] in w && ops.resolve(n, w.Keys) == Some(st.names[n]))
    && (forall n :: n in st.snapshots ==> st.snapshots[n] == w[st.names[n]])
  }

  lemma CaptureTakes<T>(ops: ModelOps<T>, w: Weights<T>, layer: Layer, i: nat, fault: CaptureFault, st: Store<T>)
    requires TakenFrom(ops, w, st)
    ensures TakenFrom(ops, w, CaptureLayer(ops, w, layer, i, fault, st).0)
  {
  }

  class HotSwapRuntime<T(!new)> {
    const cfg: Config<T>
    const machine: RuntimeStateMachine
    const registry: RouteRegistry
    var weights: Weights<T>
    var snapshots: map<string, T>
    var checksums: map<string, string>
    var nameMapping: map<string, string>
    var deltaCache: map<RouteId, map<string, T>>
    var activeRouteId: RouteId
    var swapCount: nat
    var rollbackCount: nat

    ghost function Snaps(): Store<T>
      reads this
    {
      Store(snapshots, checksums, nameMapping)
    }

    ghost function State(): Runtime<T>
      reads this, machine, registry
    {
      Runtime(weights, machine.phase, Snaps(), deltaCache, activeRouteId, swapCount, rollbackCount, registry.View())
    }

    ghost predicate Valid()
      reads this, machine
    {
      machine.Valid() && Coherent(weights.Keys, Snaps())
    }

    constructor (cfg: Config<T>, model: Weights<T>, registry: RouteRegistry)
      ensures Valid() && this.cfg == cfg && this.registry == registry && fresh(machine)
      ensures State() == Runtime(model, Ready, EmptyStore(), map[], BASE, 0, 0, registry.View())
    {
      this.cfg := cfg;
      this.registry := registry;
      machine := new RuntimeStateMachine();
      weights := model;
      snapshots, checksums, nameMapping, deltaCache := map[], map[], map[], map[];
      activeRouteId, swapCount, rollbackCount := BASE, 0, 0;
    }

    method CaptureSnapshot(layers: seq<Layer>, fault: CaptureFault) returns (ok: bool)
      requires Valid()
      modifies this`snapshots, this`checksums, this`nameMapping
      ensures Valid()
      ensures (Snaps(), ok) == M.CaptureSnapshot(cfg.ops, weights, old(Snaps()), layers, fault)
      ensures State() == old(State()).(store := Snaps())
    {
      if snapshots.Keys != {} && forall i :: 0 <= i < |layers| ==> layers[i].name in snapshots {
        return true;
      }
      snapshots, checksums, nameMapping := map[], map[], map[];
      ok := CaptureLayers(layers, fault);
    }

    // The capture loop.
    method CaptureLayers(layers: seq<Layer>, fault: CaptureFault) returns (ok: bool)
      requires Snaps() == EmptyStore()
      modifies this`snapshots, this`checksums, this`nameMapping
      ensures Coherent(weights.Keys, Snaps())
      ensures (Snaps(), ok) == M.CaptureLayers(cfg.ops, weights, layers, 0, fault, EmptyStore())
    {
      for i := 0 to |layers|
        invariant M.CaptureLayers(cfg.ops, weights, layers, 0, fault, EmptyStore())
            == M.CaptureLayers(cfg.ops, weights, layers, i, fault, Snaps())
        invariant TakenFrom(cfg.ops, weights, Snaps())
      {
        CaptureTakes(cfg.ops, weights, layers[i], i, fault, Snaps());
        var captured := CaptureLayer(layers[i], i, fault);
        if !captured {
          return false;
        }
      }
      return true;
    }

    // The body of the capture loop.
    method CaptureLayer(layer: Layer, i: nat, fault: CaptureFault) returns (ok: bool)
      modifies this`snapshots, this`checksums, this`nameMapping
      ensures (Snaps(), ok) == M.CaptureLayer(cfg.ops, weights, layer, i, fault, old(Snaps()))
    {
      var resolved := cfg.ops.resolve(layer.name, weights.Keys);
      if resolved.None? || resolved.value !in weights {
        return false;
      }
      nameMapping := nameMapping[layer.name := resolved.value];
      var live := weights[resolved.value];
      if layer.shape != Some(cfg.ops.shape(live)) || layer.dtype != Some(cfg.ops.dtype(live))
          || fault == CloneRaises(i) {
        return false;
      }
      snapshots := snapshots[layer.name := live];
      if fault == ChecksumRaises(i) {
        return false;
      }
      checksums := checksums[layer.name := cfg.ops.checksum(live)];
      return true;
    }

    method ApplySwap(m: Manifest, deltas: map<string, T>, fault: ApplyFault<T>) returns (ok: bool)
      requires Valid()
      modifies this`weights
      ensures Valid() && weights.Keys == old(weights.Keys)
      ensures (weights, ok) == M.ApplySwap(cfg.ops, old(weights), nameMapping, m, deltas, fault)
      ensures State() == old(State()).(weights := weights)
    {
      if deltas.Keys == {} && m.payload.Some? && fault.ReloadRaises? {
        return false;
      }
      for i := 0 to |m.layers|
        invariant weights.Keys == old(weights.Keys)
        invariant ApplyLayers(cfg.ops, old(weights), nameMapping, m, deltas, 0, fault)
            == ApplyLayers(cfg.ops, weights, nameMapping, m, deltas, i, fault)
      {
        var applied := ApplyLayer(m, deltas, i, fault);
        if !applied {
          return false;
        }
      }
      return true;
    }

    // The body of the apply loop.
    method ApplyLayer(m: Manifest, deltas: map<string, T>, i: nat, fault: ApplyFault<T>) returns (ok: bool)
      requires i < |m.layers|
      modifies this`weights
      ensures weights.Keys == old(weights.Keys)
      ensures (weights, ok) == M.ApplyLayer(cfg.ops, old(weights), nameMapping, m, deltas, i, fault)
    {
      var name := m.layers[i].name;
      var target := if name in nameMapping then nameMapping[name] else name;
      if target !in weights {
        return true;
      }
      if name !in deltas && target !in deltas && m.payload.Some? {
        return false;
      }
      if fault.AddRaises? && fault.at == i {
        weights := weights[target := fault.left];
        return false;
      }
      var live := weights[target];
      if name in deltas {
        weights := weights[target := cfg.ops.add(live, deltas[name])];
      } else if target in deltas {
        weights := weights[target := cfg.ops.add(live, deltas[target])];
      } else {
        weights := weights[target := cfg.ops.addDummy(live)];
      }
      return true;
    }

    // Copies the snapshots back in an arbitrary order of the dictionary.
    method Rollback(o: RollbackOutcome<T>) returns (ok: bool)
      requires Valid()
      modifies this`weights
      ensures Valid() && weights.Keys == old(weights.Keys)
      ensures State() == old(State()).(weights := RollBack(old(weights), Snaps(), o))
      ensures ok == !(o.Torn? && o.raises)
    {
      var todo := snapshots.Keys;
      while todo != {}
        invariant todo <= snapshots.Keys && weights.Keys == old(weights.Keys)
        invariant forall k :: k in weights ==>
            weights[k] == RollBack(old(weights), Snaps(), o)[k] || (weights[k] == old(weights)[k] && Pending(todo, k))
        decreases todo
      {
        var name :| name in todo;
        var target := if name in nameMapping then nameMapping[name] else name;
        CopyIsRollback(old(weights), Snaps(), o, name);
        weights := weights[target := if !o.Restored? && target in o.left then o.left[target] else snapshots[name]];
        todo := todo - {name};
      }
      return !(o.Torn? && o.raises);
    }

    // Tensor `k` still has a snapshot to be copied.
    ghost predicate Pending(todo: set<string>, k: string)
      reads this
    {
      exists n :: n in todo && Target(nameMapping, n) == k
    }

    // `faulty` when computing a checksum raises; then so does this, if there is one to compute.
    method VerifyRollback(faulty: bool) returns (ok: bool, raised: bool)
      requires Valid()
      ensures raised == (faulty && checksums.Keys != {})
      ensures !raised ==> ok == M.VerifyRollback(cfg.ops, weights, Snaps())
    {
      var todo := checksums.Keys;
      while todo != {}
        invariant todo <= checksums.Keys && (faulty ==> todo == checksums.Keys)
        invariant forall n :: n in checksums.Keys - todo ==> cfg.ops.checksum(weights[nameMapping[n]]) == checksums[n]
        decreases todo
      {
        if faulty {
          return false, true;
        }
        var name :| name in todo;
        var target := if name in nameMapping then nameMapping[name] else name;
        if cfg.ops.checksum(weights[target]) != checksums[name] {
          return false, false;
        }
        todo := todo - {name};
      }
      return true, false;
    }

    // Quarantines the route or the worker as the policy prescribes; a transition the
    // table does not allow is forced for the worker and skipped for the route.
    method ApplyVerdict(fc: FailureClass, id: RouteId)
      requires Valid()
      modifies machine, registry
      ensures Valid() && State() == M.ApplyVerdict(old(State()), fc, id)
    {
      var verdict := EvaluateFailure(fc);
      if verdict.scope.Some? {
        if verdict.target == WorkerQuarantined {
          var entered := machine.Transition(WorkerQuarantined, "", id);
          if !entered {
            machine.Force(WorkerQuarantined);
          }
        } else if verdict.target == RouteQuarantined {
          var known := registry.QuarantineRoute(id, "");
          var entered := machine.Transition(RouteQuarantined, "", id);
        }
      }
    }

    // A transition attempt as the rest of the runtime sees it.
    method Move(target: Phase, id: RouteId) returns (ok: bool)
      requires Valid()
      modifies machine
      ensures Valid() && ok == Legal(old(machine.phase), target)
      ensures State() == old(State()).(phase := Attempt(old(machine.phase), target))
    {
      ok := machine.Transition(target, "", id);
    }

    // A transition that is forced when the table does not allow it.
    method MoveOrForce(target: Phase)
      requires Valid()
      modifies machine
      ensures Valid() && State() == old(State()).(phase := target)
    {
      var moved := machine.Transition(target, "", activeRouteId);
      if !moved {
        machine.Force(target);
      }
    }

    // `raised` when the verification does.
    method PerformRollback(o: RollbackOutcome<T>) returns (raised: bool)
      requires Valid()
      modifies this`weights, this`rollbackCount, machine, registry
      ensures Valid() && State() == M.PerformRollback(cfg.ops, old(State()), o)
      ensures raised == Escapes(Snaps(), o)
    {
      MoveOrForce(RollingBack);
      var copied := Rollback(o);
      raised := Settle(copied, o.VerifyRaises?);
    }

    // What follows the copying: escalate, or verify and go back into service.
    method Settle(copied: bool, faulty: bool) returns (raised: bool)
      requires Valid() && machine.phase == RollingBack
      modifies this`rollbackCount, machine, registry
      ensures Valid()
      ensures raised == (copied && faulty && checksums.Keys != {})
      ensures State() == if raised then old(State())
                         else if copied && M.VerifyRollback(cfg.ops, weights, Snaps())
                         then old(State()).(phase := Ready, rollbacks := old(rollbackCount) + 1)
                         else old(State()).(phase := WorkerQuarantined)
    {
      if !copied {
        ApplyVerdict(RollbackException, activeRouteId);
        return false;
      }
      var verified;
      verified, raised := VerifyRollback(faulty);
      if raised {
        return;
      }
      if !verified {
        ApplyVerdict(RollbackChecksumMismatch, activeRouteId);
      } else {
        rollbackCount := rollbackCount + 1;
        MoveOrForce(Ready);
      }
    }

    // The part of the locked section that infer and ensure_route share.
    method SwapIn(
        id: RouteId, m: Manifest, deltas: map<string, T>, cf: CaptureFault, af: ApplyFault<T>) returns (ok: bool)
      requires Valid()
      modifies this`weights, this`snapshots, this`checksums, this`nameMapping, machine
      ensures Valid() && (State(), ok) == M.SwapIn(cfg.ops, old(State()), m, deltas, cf, af)
    {
      ok := Move(Verifying, id);
      if ok {
        ok := CaptureIn(m, cf);
        if ok {
          ok := ApplyIn(m, deltas, af);
        }
      }
    }

    method CaptureIn(m: Manifest, cf: CaptureFault) returns (ok: bool)
      requires Valid()
      modifies this`snapshots, this`checksums, this`nameMapping
      ensures Valid() && (State(), ok) == M.CaptureIn(cfg.ops, old(State()), m, cf)
    {
      ok := CaptureSnapshot(m.layers, cf);
    }

    method ApplyIn(m: Manifest, deltas: map<string, T>, af: ApplyFault<T>) returns (ok: bool)
      requires Valid() && machine.phase == Verifying
      modifies this`weights, machine
      ensures Valid() && (State(), ok) == M.ApplyIn(cfg.ops, old(State()), m, deltas, af)
    {
      var captured := Move(SnapshotCaptured, "");
      var swapping := Move(Swapping, "");
      ok := ApplySwap(m, deltas, af);
      if ok {
        var swapped := Move(Swapped, "");
      }
    }

    // `seen` is the weights that the inference function ran on, if it ran.
    method Infer(c: InferCall<T>) returns (result: InferResult, seen: Option<Weights<T>>)
      requires Valid()
      modifies this, machine, registry
      ensures Valid()
      ensures InferOutcome(State(), result, seen) == M.Infer(cfg, old(State()), c)
    {
      if machine.phase == WorkerQuarantined {
        return Refused, None;
      }
      var manifest := registry.GetVerifiedRoute(c.routeId, cfg.modelHash, c.tenant);
      if manifest.None? {
        return Refused, None;
      }
      var validated := Validate(cfg.ops, manifest.value, c.file, cfg.maxBytes);
      if validated.Err? {
        ApplyVerdict(validated.error, c.routeId);
        return Refused, None;
      }
      result, seen := SwapForwardRollback(c, manifest.value, validated.value);
    }

    // The locked section of infer and the check after it.
    method SwapForwardRollback(c: InferCall<T>, m: Manifest, deltas: map<string, T>)
        returns (result: InferResult, seen: Option<Weights<T>>)
      requires Valid()
      modifies this, machine, registry
      ensures Valid()
      ensures InferOutcome(State(), result, seen) == M.SwapForwardRollback(cfg, old(State()), m, deltas, c)
    {
      var swapped := SwapIn(c.routeId, m, deltas, c.captureFault, c.applyFault);
      if !swapped {
        var escaped := PerformRollback(c.rollback);
        return Raised, None;
      }
      var entered := Move(Forwarding, "");
      seen := Some(weights);
      var escaped := PerformRollback(c.rollback);
      result := if c.inferenceRaises || escaped || machine.phase == WorkerQuarantined then Raised else Returned;
    }

    method EnsureRoute(c: EnsureCall<T>) returns (r: Result<bool, ()>)
      requires Valid()
      modifies this, machine, registry
      ensures Valid()
      ensures EnsureOutcome(State(), r) == M.EnsureRoute(cfg, old(State()), c)
    {
      if machine.phase == WorkerQuarantined {
        return Err(());
      }
      if activeRouteId == c.routeId {
        return Ok(false);
      }
      var evicted := ClearActiveRoute(c.evict);
      if evicted.Err? {
        return Err(());
      }
      if c.routeId == BASE {
        return Ok(true);
      }
      r := SwapTo(c);
    }

    method SwapTo(c: EnsureCall<T>) returns (r: Result<bool, ()>)
      requires Valid()
      modifies this, machine, registry
      ensures Valid()
      ensures EnsureOutcome(State(), r) == M.SwapTo(cfg, old(State()), c)
    {
      var manifest := registry.GetVerifiedRoute(c.routeId, cfg.modelHash, c.tenant);
      if manifest.None? {
        return Err(());
      }
      var deltas := GetDeltas(c.routeId, manifest.value, c.file);
      if deltas.Err? {
        return Err(());
      }
      r := SwapOrUndo(c, manifest.value, deltas.value);
    }

    // Cached deltas, or validated ones that are then cached.
    method GetDeltas(id: RouteId, m: Manifest, file: PayloadFile<T>) returns (r: Result<map<string, T>, FailureClass>)
      requires Valid()
      modifies this`deltaCache
      ensures Valid()
      ensures r == if id in old(deltaCache) then Ok(old(deltaCache)[id])
                   else ValidatePayload(cfg.ops, m, file, cfg.maxBytes)
      ensures State() == if r.Ok? then old(State()).(cache := old(deltaCache)[id := r.value]) else old(State())
    {
      if id !in deltaCache {
        r := Validate(cfg.ops, m, file, cfg.maxBytes);
        if r.Ok? {
          deltaCache := deltaCache[id := r.value];
        }
      } else {
        r := Ok(deltaCache[id]);
        assert deltaCache[id := r.value] == deltaCache;
      }
    }

    method SwapOrUndo(c: EnsureCall<T>, m: Manifest, deltas: map<string, T>) returns (r: Result<bool, ()>)
      requires Valid()
      modifies this, machine, registry
      ensures Valid()
      ensures EnsureOutcome(State(), r) == M.SwapOrUndo(cfg, old(State()), m, deltas, c)
    {
      var swapped := SwapIn(c.routeId, m, deltas, c.captureFault, c.applyFault);
      if swapped {
        activeRouteId := c.routeId;
        swapCount := swapCount + 1;
        return Ok(true);
      }
      var escaped := PerformRollback(c.undo);
      if !escaped {
        activeRouteId := BASE;
      }
      return Err(());
    }

    method ClearActiveRoute(o: RollbackOutcome<T>) returns (cleared: Result<bool, ()>)
      requires Valid()
      modifies this, machine, registry
      ensures Valid()
      ensures (State(), cleared) == M.ClearActiveRoute(cfg, old(State()), o)
    {
      if activeRouteId != BASE {
        var escaped := PerformRollback(o);
        if escaped {
          return Err(());
        }
        activeRouteId := BASE;
        return Ok(true);
      }
      return Ok(false);
    }
  }

  // Under coherence every snapshot of a tensor is the one a rollback puts there.
  lemma CopyIsRollback<T>(w: Weights<T>, st: Store<T>, o: RollbackOutcome<T>, n: string)
    requires Coherent(w.Keys, st) && n in st.snapshots
    ensures IsTarget(st, st.names[n])
    ensures RollBack(w, st, o)[st.names[n]]
      == if !o.Restored? && st.names[n] in o.left then o.left[st.names[n]] else st.snapshots[n]
  {
    var k := st.names[n];
    assert Target(st.names, n) == k;
    assert SnapshotOf(st, k) == st.snapshots[n];
  }
}
