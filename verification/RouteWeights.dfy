/** What a route means: the base model with the route's deltas added, tensor by
    tensor. And what capture, apply and rollback each do relative to that. */
module RouteWeights {
  import opened Prelude
  import opened Tensors
  import opened RuntimeState
  import opened RouteRegistry
  import opened HotSwapModel

  // ----- The reference -----

  // Tensor `k` of the base model after the first `n` layers of a route, looking only at the
  // layers that resolve to `k`. Such a layer adds the delta of its name, or else the delta of
  // the tensor, or else, without a payload block, the dummy.
  ghost function TensorUnder<T>(
      ops: ModelOps<T>, base: Weights<T>, m: Manifest, deltas: map<string, T>, k: string, n: nat): T
    requires k in base && n <= |m.layers|
  {
    if n == 0 then base[k]
    else
      var before := TensorUnder(ops, base, m, deltas, k, n - 1);
      var name := m.layers[n - 1].name;
      if ops.resolve(name, base.Keys) != Some(k) then before
      else if name in deltas then ops.add(before, deltas[name])
      else if k in deltas then ops.add(before, deltas[k])
      else if m.payload.None? then ops.addDummy(before)
      else before
  }

  ghost function BasePlus<T>(ops: ModelOps<T>, base: Weights<T>, m: Manifest, deltas: map<string, T>): Weights<T> {
    map k | k in base :: TensorUnder(ops, base, m, deltas, k, |m.layers|)
  }

  // ----- Snapshots of the base model -----

  // Every snapshot holds the base value of the tensor its name resolves to, and
  // every checksum is the checksum of a snapshot.
  ghost predicate Sound<T>(ops: ModelOps<T>, base: Weights<T>, st: Store<T>) {
    && st.snapshots.Keys <= st.names.Keys
    && st.checksums.Keys <= st.snapshots.Keys
    && (forall n :: n in st.names ==> st.names[n] in base && ops.resolve(n, base.Keys) == Some(st.names[n]))
    && (forall n :: n in st.snapshots ==> st.snapshots[n] == base[st.names[n]])
    && (forall n :: n in st.checksums ==> st.checksums[n] == ops.checksum(st.snapshots[n]))
  }

  // Every snapshot can be checked after it is restored.
  ghost predicate Covered<T>(st: Store<T>) {
    st.snapshots.Keys <= st.checksums.Keys
  }

  // Every tensor that a rollback writes is checked afterwards, under some name.
  ghost predicate TargetsChecked<T>(st: Store<T>) {
    forall k :: IsTarget(st, k) ==> Checked(st, k)
  }

  ghost predicate Checked<T>(st: Store<T>, k: string) {
    exists n :: n in st.checksums && Target(st.names, n) == k
  }

  // The live weights differ from the base model only where a snapshot can restore them.
  ghost predicate Restorable<T>(base: Weights<T>, w: Weights<T>, st: Store<T>) {
    && w.Keys == base.Keys
    && forall k :: k in base && !IsTarget(st, k) ==> w[k] == base[k]
  }

  ghost predicate HasLayers<T>(st: Store<T>, layers: seq<Layer>) {
    forall i :: 0 <= i < |layers| ==> layers[i].name in st.snapshots
  }

  // ----- Capture -----

  lemma CaptureLayerSound<T>(
      ops: ModelOps<T>, base: Weights<T>, layer: Layer, i: nat, fault: CaptureFault, st: Store<T>)
    requires Sound(ops, base, st)
    ensures var (st', ok) := CaptureLayer(ops, base, layer, i, fault, st);
      && Sound(ops, base, st')
      && st.snapshots.Keys <= st'.snapshots.Keys
      && (ok ==> layer.name in st'.snapshots)
      && (Covered(st) && !fault.ChecksumRaises? ==> Covered(st'))
  {
  }

  lemma {:induction false} CaptureLayersSound<T>(
      ops: ModelOps<T>, base: Weights<T>, layers: seq<Layer>, i: nat, fault: CaptureFault, st: Store<T>)
    requires i <= |layers| && Sound(ops, base, st)
    requires forall j :: 0 <= j < i ==> layers[j].name in st.snapshots
    ensures var (st', ok) := CaptureLayers(ops, base, layers, i, fault, st);
      && Sound(ops, base, st')
      && (ok ==> HasLayers(st', layers))
      && (Covered(st) && !fault.ChecksumRaises? ==> Covered(st'))
    decreases |layers| - i
  {
    if i < |layers| {
      CaptureLayerSound(ops, base, layers[i], i, fault, st);
      var (st', ok) := CaptureLayer(ops, base, layers[i], i, fault, st);
      if ok {
        CaptureLayersSound(ops, base, layers, i + 1, fault, st');
      }
    }
  }

  // Captured at the base model, fresh or golden, the snapshots are sound; on success
  // every layer of the route has one.
  lemma CaptureSound<T>(ops: ModelOps<T>, base: Weights<T>, st: Store<T>, layers: seq<Layer>, fault: CaptureFault)
    requires Sound(ops, base, st)
    ensures var (st', ok) := CaptureSnapshot(ops, base, st, layers, fault);
      && Sound(ops, base, st')
      && (ok ==> HasLayers(st', layers))
      && (Covered(st) && !fault.ChecksumRaises? ==> Covered(st'))
  {
    CaptureLayersSound(ops, base, layers, 0, fault, EmptyStore());
  }

  // ----- Apply -----

  // Applying a layer that has a snapshot touches only tensors that snapshots restore.
  lemma ApplyLayerSpares<T>(
      ops: ModelOps<T>, base: Weights<T>, st: Store<T>, m: Manifest, deltas: map<string, T>, w: Weights<T>, k: string,
      i: nat, fault: ApplyFault<T>)
    requires HasLayers(st, m.layers) && i < |m.layers| && w.Keys == base.Keys && !IsTarget(st, k)
    ensures var w' := ApplyLayer(ops, w, st.names, m, deltas, i, fault).0;
      w'.Keys == base.Keys && (k in base ==> w'[k] == w[k])
  {
    assert m.layers[i].name in st.snapshots;
  }

  lemma {:induction false} ApplyLayersSpare<T>(
      ops: ModelOps<T>, base: Weights<T>, st: Store<T>, m: Manifest, deltas: map<string, T>, w: Weights<T>, k: string,
      i: nat, fault: ApplyFault<T>)
    requires HasLayers(st, m.layers) && i <= |m.layers| && w.Keys == base.Keys && !IsTarget(st, k)
    ensures var w' := ApplyLayers(ops, w, st.names, m, deltas, i, fault).0;
      w'.Keys == base.Keys && (k in base ==> w'[k] == w[k])
    decreases |m.layers| - i
  {
    if i < |m.layers| {
      ApplyLayerSpares(ops, base, st, m, deltas, w, k, i, fault);
      var (w', ok) := ApplyLayer(ops, w, st.names, m, deltas, i, fault);
      if ok {
        ApplyLayersSpare(ops, base, st, m, deltas, w', k, i + 1, fault);
      }
    }
  }

  lemma {:induction false} ApplyLayersKeys<T>(
      ops: ModelOps<T>, w: Weights<T>, names: map<string, string>, m: Manifest, deltas: map<string, T>, i: nat,
      fault: ApplyFault<T>)
    requires i <= |m.layers|
    ensures ApplyLayers(ops, w, names, m, deltas, i, fault).0.Keys == w.Keys
    decreases |m.layers| - i
  {
    if i < |m.layers| {
      var (w', ok) := ApplyLayer(ops, w, names, m, deltas, i, fault);
      if ok {
        ApplyLayersKeys(ops, w', names, m, deltas, i + 1, fault);
      }
    }
  }

  lemma ApplyLayersRestorable<T>(
      ops: ModelOps<T>, base: Weights<T>, st: Store<T>, m: Manifest, deltas: map<string, T>, fault: ApplyFault<T>)
    requires HasLayers(st, m.layers)
    ensures Restorable(base, ApplyLayers(ops, base, st.names, m, deltas, 0, fault).0, st)
  {
    var w' := ApplyLayers(ops, base, st.names, m, deltas, 0, fault).0;
    ApplyLayersKeys(ops, base, st.names, m, deltas, 0, fault);
    forall k | k in base && !IsTarget(st, k) ensures w'[k] == base[k] {
      ApplyLayersSpare(ops, base, st, m, deltas, base, k, 0, fault);
    }
  }

  // Tensor k of the live weights is the base model's with the first i layers of the route added.
  ghost predicate TensorPartway<T>(
      ops: ModelOps<T>, base: Weights<T>, m: Manifest, deltas: map<string, T>, w: Weights<T>, k: string, i: nat)
    requires i <= |m.layers|
  {
    w.Keys == base.Keys && k in base && w[k] == TensorUnder(ops, base, m, deltas, k, i)
  }

  lemma ApplyLayerTensor<T>(
      ops: ModelOps<T>, base: Weights<T>, st: Store<T>, m: Manifest, deltas: map<string, T>, w: Weights<T>, k: string,
      i: nat, fault: ApplyFault<T>)
    requires Sound(ops, base, st) && HasLayers(st, m.layers) && i < |m.layers|
    requires TensorPartway(ops, base, m, deltas, w, k, i)
    ensures var (w', ok) := ApplyLayer(ops, w, st.names, m, deltas, i, fault);
      ok ==> TensorPartway(ops, base, m, deltas, w', k, i + 1)
  {
  }

  lemma {:induction false} ApplyLayersTensor<T>(
      ops: ModelOps<T>, base: Weights<T>, st: Store<T>, m: Manifest, deltas: map<string, T>, w: Weights<T>, k: string,
      i: nat, fault: ApplyFault<T>)
    requires Sound(ops, base, st) && HasLayers(st, m.layers) && i <= |m.layers|
    requires TensorPartway(ops, base, m, deltas, w, k, i)
    ensures var (w', ok) := ApplyLayers(ops, w, st.names, m, deltas, i, fault);
      ok ==> TensorPartway(ops, base, m, deltas, w', k, |m.layers|)
    decreases |m.layers| - i
  {
    if i < |m.layers| {
      ApplyLayerTensor(ops, base, st, m, deltas, w, k, i, fault);
      var (w', ok) := ApplyLayer(ops, w, st.names, m, deltas, i, fault);
      if ok {
        ApplyLayersTensor(ops, base, st, m, deltas, w', k, i + 1, fault);
      }
    }
  }

  // Folding the deltas into the live base model yields the route's weights or stops
  // with damage that the snapshots can undo.
  lemma ApplyExact<T>(
      ops: ModelOps<T>, base: Weights<T>, st: Store<T>, m: Manifest, deltas: map<string, T>, fault: ApplyFault<T>)
    requires Sound(ops, base, st) && HasLayers(st, m.layers)
    ensures var (w', ok) := ApplySwap(ops, base, st.names, m, deltas, fault);
      Restorable(base, w', st) && (ok ==> w' == BasePlus(ops, base, m, deltas))
  {
    ApplyLayersRestorable(ops, base, st, m, deltas, fault);
    var (w', ok) := ApplyLayers(ops, base, st.names, m, deltas, 0, fault);
    if ok {
      forall k | k in base ensures w'[k] == TensorUnder(ops, base, m, deltas, k, |m.layers|) {
        ApplyLayersTensor(ops, base, st, m, deltas, base, k, 0, fault);
      }
    }
  }

  // Applying stops with an exception where a payload block leaves a layer without a delta.
  lemma {:induction false} MissingDeltaFrom<T>(
      ops: ModelOps<T>, base: Weights<T>, st: Store<T>, m: Manifest, deltas: map<string, T>, w: Weights<T>, i: nat,
      j: nat, fault: ApplyFault<T>)
    requires Sound(ops, base, st) && HasLayers(st, m.layers) && i <= j < |m.layers| && w.Keys == base.Keys
    requires m.payload.Some? && m.layers[j].name !in deltas
    requires forall k :: ops.resolve(m.layers[j].name, base.Keys) == Some(k) ==> k !in deltas
    ensures !ApplyLayers(ops, w, st.names, m, deltas, i, fault).1
    decreases j - i
  {
    var name := m.layers[i].name;
    assert name in st.names && ops.resolve(name, base.Keys) == Some(st.names[name]);
    var (w', ok) := ApplyLayer(ops, w, st.names, m, deltas, i, fault);
    if i < j && ok {
      MissingDeltaFrom(ops, base, st, m, deltas, w', i + 1, j, fault);
    }
  }

  // A layer with neither a delta of its name nor one of its tensor fails the swap of a route
  // with a payload block, whatever else happens.
  lemma MissingDeltaFails<T>(
      ops: ModelOps<T>, base: Weights<T>, st: Store<T>, m: Manifest, deltas: map<string, T>, j: nat,
      fault: ApplyFault<T>)
    requires Sound(ops, base, st) && HasLayers(st, m.layers) && j < |m.layers|
    requires m.payload.Some? && m.layers[j].name !in deltas
    requires forall k :: ops.resolve(m.layers[j].name, base.Keys) == Some(k) ==> k !in deltas
    ensures !ApplySwap(ops, base, st.names, m, deltas, fault).1
  {
    MissingDeltaFrom(ops, base, st, m, deltas, base, 0, j, fault);
  }

  // ----- Rollback -----

  lemma SnapshotIsBase<T>(ops: ModelOps<T>, base: Weights<T>, st: Store<T>, k: string)
    requires Sound(ops, base, st) && IsTarget(st, k)
    ensures k in base && SnapshotOf(st, k) == base[k]
  {
  }

  // A rollback is safe when it copies every snapshot, when it raises out of its verification,
  // or when each tensor it restores is checked afterwards, by a collision-free checksum.
  ghost predicate SafeRollback<T(!new)>(ops: ModelOps<T>, st: Store<T>, o: RollbackOutcome<T>) {
    || o == Restored || Escapes(st, o)
    || (TargetsChecked(st) && (o.VerifyRaises? || Collisionless(ops)))
  }

  lemma RollbackRestores<T>(ops: ModelOps<T>, base: Weights<T>, w: Weights<T>, st: Store<T>)
    requires Sound(ops, base, st) && Restorable(base, w, st)
    ensures RollBack(w, st, Restored) == base && VerifyRollback(ops, base, st)
  {
    forall k | k in base ensures RollBack(w, st, Restored)[k] == base[k] {
      if IsTarget(st, k) {
        SnapshotIsBase(ops, base, st, k);
      }
    }
  }

  // Weights that pass verification are the base model's.
  lemma VerifiedMeansBase<T(!new)>(ops: ModelOps<T>, base: Weights<T>, w: Weights<T>, st: Store<T>)
    requires Sound(ops, base, st) && Restorable(base, w, st) && Collisionless(ops) && TargetsChecked(st)
    requires VerifyRollback(ops, w, st)
    ensures w == base
  {
    forall k | k in base ensures w[k] == base[k] {
      if IsTarget(st, k) {
        CheckedTensorRestored(ops, base, w, st, k);
      }
    }
  }

  // A rollback that passes verification has restored the base model, whatever it copied.
  lemma VerifiedMeansRestored<T(!new)>(
      ops: ModelOps<T>, base: Weights<T>, w: Weights<T>, st: Store<T>, o: RollbackOutcome<T>)
    requires Sound(ops, base, st) && Restorable(base, w, st) && Collisionless(ops) && TargetsChecked(st)
    requires VerifyRollback(ops, RollBack(w, st, o), st)
    ensures RollBack(w, st, o) == base
  {
    VerifiedMeansBase(ops, base, RollBack(w, st, o), st);
  }

  lemma CheckedTensorRestored<T(!new)>(ops: ModelOps<T>, base: Weights<T>, w: Weights<T>, st: Store<T>, k: string)
    requires Sound(ops, base, st) && Collisionless(ops) && VerifyRollback(ops, w, st) && Checked(st, k)
    ensures k in w && k in base && w[k] == base[k]
  {
    var n :| n in st.checksums && Target(st.names, n) == k;
    assert ops.checksum(w[k]) == ops.checksum(base[k]);
  }

  lemma CoveredTargets<T>(st: Store<T>)
    requires Covered(st)
    ensures TargetsChecked(st)
  {
    forall k | IsTarget(st, k) ensures Checked(st, k) {
      var n :| n in st.snapshots && Target(st.names, n) == k;
      assert n in st.checksums;
    }
  }

  // Rolling back ends at the base model and READY, in worker quarantine, or, exactly when
  // verification raises, ROLLING_BACK. A rollback that copies every snapshot and computes
  // its checksums does the first; the others leave what a later rollback can restore.
  lemma RollbackEnds<T(!new)>(ops: ModelOps<T>, base: Weights<T>, s: Runtime<T>, o: RollbackOutcome<T>)
    requires Sound(ops, base, s.store) && Restorable(base, s.weights, s.store)
    requires SafeRollback(ops, s.store, o)
    ensures var s' := PerformRollback(ops, s, o);
      || (s'.phase == WorkerQuarantined && o.Torn? && s' == s.(weights := s'.weights, phase := WorkerQuarantined)
          && Restorable(base, s'.weights, s.store))
      || (Escapes(s.store, o) && s' == s.(weights := s'.weights, phase := RollingBack)
          && Restorable(base, s'.weights, s.store))
      || (!Escapes(s.store, o) && s' == s.(weights := base, phase := Ready, rollbacks := s.rollbacks + 1))
  {
    DamageIsRestorable(base, s.weights, s.store, o);
    if !Escapes(s.store, o) {
      SafeRollbackRestores(ops, base, s, o);
    }
  }

  // A rollback touches nothing that the snapshots cannot restore again.
  lemma DamageIsRestorable<T>(base: Weights<T>, w: Weights<T>, st: Store<T>, o: RollbackOutcome<T>)
    requires Restorable(base, w, st)
    ensures Restorable(base, RollBack(w, st, o), st)
  {
  }

  // A safe rollback that computes its checksums restores the base model, or copies torn
  // tensors and does not pass.
  lemma SafeRollbackRestores<T(!new)>(ops: ModelOps<T>, base: Weights<T>, s: Runtime<T>, o: RollbackOutcome<T>)
    requires Sound(ops, base, s.store) && Restorable(base, s.weights, s.store)
    requires SafeRollback(ops, s.store, o) && !Escapes(s.store, o)
    ensures var w := RollBack(s.weights, s.store, o);
      && (VerifyRollback(ops, w, s.store) ==> w == base)
      && (!o.Torn? ==> VerifyRollback(ops, w, s.store))
  {
    if o == Restored {
      RollbackRestores(ops, base, s.weights, s.store);
    } else if o.VerifyRaises? {
      UncomputedMeansUntouched(base, s, o);
    } else if VerifyRollback(ops, RollBack(s.weights, s.store, o), s.store) {
      VerifiedMeansRestored(ops, base, s.weights, s.store, o);
    }
  }

  // With every restored tensor checked and no checksum to compute, nothing is restored.
  lemma UncomputedMeansUntouched<T>(base: Weights<T>, s: Runtime<T>, o: RollbackOutcome<T>)
    requires Restorable(base, s.weights, s.store) && TargetsChecked(s.store) && s.store.checksums.Keys == {}
    ensures RollBack(s.weights, s.store, o) == base
  {
    forall k ensures !IsTarget(s.store, k) {
      assert !Checked(s.store, k);
    }
  }

  // Whatever a rollback does, the worker is READY afterwards only at the base model.
  ghost predicate RollbackDetected<T(!new)>(ops: ModelOps<T>, base: Weights<T>, s: Runtime<T>) {
    forall o :: PerformRollback(ops, s, o).phase == Ready ==> PerformRollback(ops, s, o).weights == base
  }

  // Faulty rollbacks are always detected exactly when every restored tensor has a
  // checksum. `other` gives for each tensor value a different one.
  lemma DetectionNeedsChecksums<T(!new)>(ops: ModelOps<T>, base: Weights<T>, s: Runtime<T>, other: T -> T)
    requires Sound(ops, base, s.store) && Restorable(base, s.weights, s.store) && Collisionless(ops)
    requires forall t :: other(t) != t
    ensures RollbackDetected(ops, base, s) <==> TargetsChecked(s.store)
  {
    if TargetsChecked(s.store) {
      forall o | PerformRollback(ops, s, o).phase == Ready ensures PerformRollback(ops, s, o).weights == base {
        if VerifyRollback(ops, RollBack(s.weights, s.store, o), s.store) {
          VerifiedMeansRestored(ops, base, s.weights, s.store, o);
        }
      }
    } else {
      var k :| IsTarget(s.store, k) && !Checked(s.store, k);
      SnapshotIsBase(ops, base, s.store, k);
      UncheckedTensorCorrupted(ops, base, s, k, other(base[k]));
    }
  }

  // A tensor whose snapshot has no checksum can be left with any value, and the
  // worker goes back to READY.
  lemma UncheckedTensorCorrupted<T(!new)>(ops: ModelOps<T>, base: Weights<T>, s: Runtime<T>, k: string, v: T)
    requires Sound(ops, base, s.store) && Restorable(base, s.weights, s.store)
    requires IsTarget(s.store, k) && !Checked(s.store, k)
    ensures var s' := PerformRollback(ops, s, Torn(map[k := v], false));
      s'.phase == Ready && s'.weights == base[k := v]
  {
    var st := s.store;
    var w := RollBack(s.weights, st, Torn(map[k := v], false));
    SnapshotIsBase(ops, base, st, k);
    forall j | j in base ensures w[j] == base[k := v][j] {
      if IsTarget(st, j) {
        SnapshotIsBase(ops, base, st, j);
      }
    }
    assert w == base[k := v];
  }

  // ----- The locked swap -----

  lemma ApplyInExact<T(!new)>(
      ops: ModelOps<T>, base: Weights<T>, s: Runtime<T>, m: Manifest, deltas: map<string, T>, af: ApplyFault<T>)
    requires Sound(ops, base, s.store) && s.weights == base && HasLayers(s.store, m.layers)
    ensures var (s', ok) := ApplyIn(ops, s, m, deltas, af);
      && Restorable(base, s'.weights, s'.store)
      && s' == s.(weights := s'.weights, phase := s'.phase)
      && (ok ==> s'.phase == Swapped && s'.weights == BasePlus(ops, base, m, deltas))
  {
    ApplyExact(ops, base, s.store, m, deltas, af);
  }

  // What the locked swap leaves: the route's weights in place, or damage that the
  // snapshots can undo.
  ghost predicate SwapLeaves<T>(
      ops: ModelOps<T>, base: Weights<T>, s: Runtime<T>, m: Manifest, deltas: map<string, T>,
      s': Runtime<T>, ok: bool) {
    && Sound(ops, base, s'.store)
    && Restorable(base, s'.weights, s'.store)
    && s' == s.(weights := s'.weights, phase := s'.phase, store := s'.store)
    && (ok ==> s'.phase == Swapped && s'.weights == BasePlus(ops, base, m, deltas))
  }

  lemma SwapInExact<T(!new)>(
      ops: ModelOps<T>, base: Weights<T>, s: Runtime<T>, m: Manifest, deltas: map<string, T>,
      cf: CaptureFault, af: ApplyFault<T>)
    requires Sound(ops, base, s.store) && s.weights == base
    ensures var (s', ok) := SwapIn(ops, s, m, deltas, cf, af);
      && SwapLeaves(ops, base, s, m, deltas, s', ok)
      && (Covered(s.store) && !cf.ChecksumRaises? ==> Covered(s'.store))
  {
    if Legal(s.phase, Verifying) {
      CaptureSound(ops, base, s.store, m.layers, cf);
      var (s1, captured) := CaptureIn(ops, s.(phase := Verifying), m, cf);
      if captured {
        ApplyInExact(ops, base, s1, m, deltas, af);
        var (s2, applied) := ApplyIn(ops, s1, m, deltas, af);
        assert SwapIn(ops, s, m, deltas, cf, af) == (s2, applied);
        assert SwapLeaves(ops, base, s, m, deltas, s2, applied);
      } else {
        assert SwapIn(ops, s, m, deltas, cf, af) == (s1, false);
      }
    } else {
      assert SwapIn(ops, s, m, deltas, cf, af) == (s, false);
    }
  }
}
