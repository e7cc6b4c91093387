/** Sequential runs of `infer`, mixed with registry calls. */
module InferRuns {
  import opened Prelude
  import opened Tensors
  import opened RuntimeState
  import opened FailurePolicy
  import opened RouteRegistry
  import opened PayloadValidator
  import opened HotSwapModel
  import opened RouteWeights
  import opened CaptureChecks

  // In service: READY, at the base model, with snapshots of the base model only.
  ghost predicate AtBase<T>(ops: ModelOps<T>, base: Weights<T>, s: Runtime<T>) {
    s.phase == Ready && s.weights == base && Sound(ops, base, s.store)
  }

  ghost function DeltasFor<T>(cfg: Config<T>, s: Runtime<T>, c: InferCall<T>): Result<map<string, T>, FailureClass>
    requires c.routeId in s.registry.routes
  {
    ValidatePayload(cfg.ops, s.registry.routes[c.routeId], c.file, cfg.maxBytes)
  }

  // A rollback raised out of its verification: the phase is ROLLING_BACK, or a payload
  // failure made it ROUTE_QUARANTINED since, and the snapshots can restore the base model.
  ghost predicate Stuck<T>(ops: ModelOps<T>, base: Weights<T>, s: Runtime<T>) {
    s.phase in {RollingBack, RouteQuarantined} && Sound(ops, base, s.store) && Restorable(base, s.weights, s.store)
  }

  // The call gets to the lock.
  ghost predicate Reaches<T>(cfg: Config<T>, s: Runtime<T>, c: InferCall<T>) {
    && s.phase != WorkerQuarantined && Executable(s.registry, c.routeId, cfg.modelHash, c.tenant)
    && DeltasFor(cfg, s, c).Ok?
  }

  // The runtime when the rollback of the call begins.
  ghost function BeforeRollback<T>(cfg: Config<T>, s: Runtime<T>, c: InferCall<T>): Runtime<T>
    requires c.routeId in s.registry.routes && DeltasFor(cfg, s, c).Ok?
  {
    var m, deltas := s.registry.routes[c.routeId], DeltasFor(cfg, s, c).value;
    var (s1, swapped) := SwapIn(cfg.ops, s, m, deltas, c.captureFault, c.applyFault);
    if swapped then s1.(phase := Forwarding) else s1
  }

  // The rollback of the call, if it has one, is safe.
  ghost predicate SafeCall<T(!new)>(cfg: Config<T>, s: Runtime<T>, c: InferCall<T>) {
    Reaches(cfg, s, c) ==> SafeRollback(cfg.ops, BeforeRollback(cfg, s, c).store, c.rollback)
  }

  // The call raises out of the verification of its rollback.
  ghost predicate CallEscapes<T(!new)>(cfg: Config<T>, s: Runtime<T>, c: InferCall<T>) {
    Reaches(cfg, s, c) && Escapes(BeforeRollback(cfg, s, c).store, c.rollback)
  }

  lemma LockedCall<T(!new)>(cfg: Config<T>, base: Weights<T>, s: Runtime<T>, c: InferCall<T>)
    requires AtBase(cfg.ops, base, s) || Stuck(cfg.ops, base, s)
    requires Reaches(cfg, s, c)
    ensures var s1 := BeforeRollback(cfg, s, c); var out := Infer(cfg, s, c);
      && Sound(cfg.ops, base, s1.store) && Restorable(base, s1.weights, s1.store)
      && out.state == PerformRollback(cfg.ops, s1, c.rollback)
      && (out.result == Returned ==> out.seen.Some? && s1.phase == Forwarding)
      && (out.result == Returned ==> out.state.phase != WorkerQuarantined && !Escapes(s1.store, c.rollback))
      && out.result != Refused
      && (out.seen.Some? ==> s.phase == Ready)
      && (out.seen.Some? ==>
            out.seen.value == BasePlus(cfg.ops, base, s.registry.routes[c.routeId], DeltasFor(cfg, s, c).value))
      && s1.registry == s.registry
  {
    if s.phase == Ready {
      var m, deltas := s.registry.routes[c.routeId], DeltasFor(cfg, s, c).value;
      SwapInExact(cfg.ops, base, s, m, deltas, c.captureFault, c.applyFault);
    }
  }

  // A call that does not get to the lock changes no weight; a payload failure may withdraw
  // its route and mark a stuck phase.
  lemma RefusedCall<T(!new)>(cfg: Config<T>, s: Runtime<T>, c: InferCall<T>)
    requires !Reaches(cfg, s, c)
    ensures var out := Infer(cfg, s, c);
      && out.result == Refused && out.seen == None
      && out.state == s.(registry := out.state.registry, phase := out.state.phase)
      && out.state.phase in {s.phase, Attempt(s.phase, RouteQuarantined)}
  {
    if s.phase != WorkerQuarantined && Executable(s.registry, c.routeId, cfg.modelHash, c.tenant) {
      ValidationIsFailClose(cfg.ops, s.registry.routes[c.routeId], c.file, cfg.maxBytes);
    }
  }

  // One call, wherever capture, apply, inference or rollback fails: the worker is back
  // in service with every weight as before, or quarantined, or, exactly when the call
  // raises out of the verification of its rollback, stuck. A normal return means the first;
  // inference ran on the base model plus its own route; and a stuck worker is back in service
  // after the next call that gets to the lock and whose rollback is clean.
  lemma InferEnds<T(!new)>(cfg: Config<T>, base: Weights<T>, s: Runtime<T>, c: InferCall<T>)
    requires (AtBase(cfg.ops, base, s) || Stuck(cfg.ops, base, s)) && SafeCall(cfg, s, c)
    ensures var out := Infer(cfg, s, c);
      && (AtBase(cfg.ops, base, out.state) || out.state.phase == WorkerQuarantined || Stuck(cfg.ops, base, out.state))
      && (Stuck(cfg.ops, base, out.state) <==>
            if Reaches(cfg, s, c) then CallEscapes(cfg, s, c) else Stuck(cfg.ops, base, s))
      && (out.result == Returned ==> AtBase(cfg.ops, base, out.state) && out.seen.Some?)
      && (out.seen.Some? ==> AtBase(cfg.ops, base, s) && Reaches(cfg, s, c))
      && (out.seen.Some? ==>
            out.seen.value == BasePlus(cfg.ops, base, s.registry.routes[c.routeId], DeltasFor(cfg, s, c).value))
      && (Reaches(cfg, s, c) && c.rollback == Restored ==> AtBase(cfg.ops, base, out.state))
      && (out.state.phase == WorkerQuarantined ==> c.rollback.Torn?)
  {
    if Reaches(cfg, s, c) {
      LockedCall(cfg, base, s, c);
      RollbackEnds(cfg.ops, base, BeforeRollback(cfg, s, c), c.rollback);
    } else {
      RefusedCall(cfg, s, c);
    }
  }

  // ----- Undetected damage, exactly -----

  // Whatever the rollback of the call does, the worker is READY only at the base model.
  ghost predicate Contains<T(!new)>(cfg: Config<T>, base: Weights<T>, s: Runtime<T>, c: InferCall<T>) {
    forall o :: var e := Infer(cfg, s, c.(rollback := o)).state; e.phase == Ready ==> e.weights == base
  }

  // A call that gets to the lock contains every rollback fault exactly when each tensor
  // it restores has a checksum. `other` gives for each tensor value a different one.
  lemma ContainedIffChecked<T(!new)>(cfg: Config<T>, base: Weights<T>, s: Runtime<T>, c: InferCall<T>, other: T -> T)
    requires AtBase(cfg.ops, base, s) && Reaches(cfg, s, c)
    requires Collisionless(cfg.ops) && forall t :: other(t) != t
    ensures Contains(cfg, base, s, c) <==> TargetsChecked(BeforeRollback(cfg, s, c).store)
  {
    var s1 := BeforeRollback(cfg, s, c);
    LockedCall(cfg, base, s, c);
    DetectionNeedsChecksums(cfg.ops, base, s1, other);
    forall o ensures Infer(cfg, s, c.(rollback := o)).state == PerformRollback(cfg.ops, s1, o) {
      RollbackIsLast(cfg, s, c, o);
    }
  }

  // In terms of the state and the call: snapshots taken earlier are reused as they are, so
  // each must have a checksum; fresh ones must not lack one because its computation raises.
  lemma ContainedIffNotStranded<T(!new)>(
      cfg: Config<T>, base: Weights<T>, s: Runtime<T>, c: InferCall<T>, other: T -> T)
    requires AtBase(cfg.ops, base, s) && Reaches(cfg, s, c)
    requires Collisionless(cfg.ops) && forall t :: other(t) != t
    ensures var layers := s.registry.routes[c.routeId].layers;
      Contains(cfg, base, s, c) <==>
        if Golden(s.store, layers) then TargetsChecked(s.store) else !Strands(cfg.ops, base, layers, c.captureFault)
  {
    ContainedIffChecked(cfg, base, s, c, other);
    SnapshotsCheckedIff(cfg.ops, base, s.store, s.registry.routes[c.routeId].layers, c.captureFault);
    BeforeRollbackStore(cfg, s, c);
  }

  // From READY the snapshots are captured; from a stuck phase nothing is.
  lemma BeforeRollbackStore<T(!new)>(cfg: Config<T>, s: Runtime<T>, c: InferCall<T>)
    requires c.routeId in s.registry.routes && DeltasFor(cfg, s, c).Ok?
    ensures BeforeRollback(cfg, s, c).store ==
      if s.phase != Ready then s.store
      else CaptureSnapshot(cfg.ops, s.weights, s.store, s.registry.routes[c.routeId].layers, c.captureFault).0
  {
  }

  lemma RollbackIsLast<T(!new)>(cfg: Config<T>, s: Runtime<T>, c: InferCall<T>, o: RollbackOutcome<T>)
    requires Reaches(cfg, s, c)
    ensures Infer(cfg, s, c.(rollback := o)).state == PerformRollback(cfg.ops, BeforeRollback(cfg, s, c), o)
  {
  }

  // The route of the call has one layer, of tensor k, and gets past every check.
  ghost predicate OneLayer<T>(
      cfg: Config<T>, base: Weights<T>, s: Runtime<T>, c: InferCall<T>, layer: Layer, k: string) {
    && Reaches(cfg, s, c) && s.registry.routes[c.routeId].layers == [layer]
    && k in base && cfg.ops.resolve(layer.name, base.Keys) == Some(k) && Capturable(cfg.ops, base, layer)
  }

  function StrandedStore<T>(base: Weights<T>, layer: Layer, k: string): Store<T>
    requires k in base
  {
    Store(map[layer.name := base[k]], map[], map[layer.name := k])
  }

  // A checksum that raises leaves the snapshot behind without one.
  lemma ChecksumFaultStrands<T(!new)>(
      cfg: Config<T>, base: Weights<T>, s: Runtime<T>, c: InferCall<T>, layer: Layer, k: string)
    requires AtBase(cfg.ops, base, s) && s.store == EmptyStore() && OneLayer(cfg, base, s, c, layer, k)
    requires c.captureFault == ChecksumRaises(0)
    ensures BeforeRollback(cfg, s, c) == s.(phase := Verifying, store := StrandedStore(base, layer, k))
  {
    var st, m := StrandedStore(base, layer, k), s.registry.routes[c.routeId];
    assert CaptureLayer(cfg.ops, base, layer, 0, c.captureFault, EmptyStore()) == (st, false);
    assert CaptureSnapshot(cfg.ops, base, s.store, m.layers, c.captureFault) == (st, false);
  }

  // The failing input: a checksum that cannot be computed, and a rollback that leaves `v`
  // in the tensor it should restore. The call raises, and the worker is READY with `v` in it.
  lemma ChecksumFaultHidesDamage<T(!new)>(
      cfg: Config<T>, base: Weights<T>, s: Runtime<T>, c: InferCall<T>, layer: Layer, k: string, v: T)
    requires AtBase(cfg.ops, base, s) && s.store == EmptyStore() && OneLayer(cfg, base, s, c, layer, k)
    requires c.captureFault == ChecksumRaises(0) && c.rollback == Torn(map[k := v], false)
    ensures var out := Infer(cfg, s, c);
      out.result == Raised && out.state.phase == Ready && out.state.weights == base[k := v]
  {
    ChecksumFaultStrands(cfg, base, s, c, layer, k);
    StrandedDamage(cfg, base, s, c, layer, k, v);
  }

  lemma StrandedDamage<T(!new)>(
      cfg: Config<T>, base: Weights<T>, s: Runtime<T>, c: InferCall<T>, layer: Layer, k: string, v: T)
    requires AtBase(cfg.ops, base, s) && OneLayer(cfg, base, s, c, layer, k)
    requires BeforeRollback(cfg, s, c).store == StrandedStore(base, layer, k)
    requires c.rollback == Torn(map[k := v], false)
    ensures var e := Infer(cfg, s, c).state; e.phase == Ready && e.weights == base[k := v]
  {
    var s1 := BeforeRollback(cfg, s, c);
    LockedCall(cfg, base, s, c);
    assert Target(s1.store.names, layer.name) == k && layer.name in s1.store.snapshots;
    UncheckedTensorCorrupted(cfg.ops, base, s1, k, v);
  }

  // The damage need not happen in the call whose checksum raised. That call's rollback may
  // be clean; the next call on the route reuses its snapshot, nothing raises in it, and a
  // rollback that leaves `v` behind goes unnoticed all the same.
  lemma ReuseHidesDamage<T(!new)>(
      cfg: Config<T>, base: Weights<T>, s: Runtime<T>, c: InferCall<T>, next: InferCall<T>, layer: Layer, k: string,
      v: T)
    requires AtBase(cfg.ops, base, s) && s.store == EmptyStore() && OneLayer(cfg, base, s, c, layer, k)
    requires c.captureFault == ChecksumRaises(0) && c.rollback == Restored
    requires OneLayer(cfg, base, s, next, layer, k)
    requires next.captureFault == NoCaptureFault && next.rollback == Torn(map[k := v], false)
    ensures var s1 := Infer(cfg, s, c).state; var e := Infer(cfg, s1, next).state;
      AtBase(cfg.ops, base, s1) && e.phase == Ready && e.weights == base[k := v]
  {
    ChecksumFaultStrands(cfg, base, s, c, layer, k);
    LockedCall(cfg, base, s, c);
    RollbackEnds(cfg.ops, base, BeforeRollback(cfg, s, c), Restored);
    var s1 := Infer(cfg, s, c).state;
    BeforeRollbackStore(cfg, s1, next);
    StrandedDamage(cfg, base, s1, next, layer, k, v);
  }

  // ----- Runs -----

  datatype Event<T> = Call(c: InferCall<T>) | Admin(op: RegistryOp)

  ghost function Step<T>(cfg: Config<T>, s: Runtime<T>, e: Event<T>): Runtime<T> {
    match e
    case Call(c) => Infer(cfg, s, c).state
    case Admin(op) => s.(registry := Apply(s.registry, op))
  }

  ghost function Run<T>(cfg: Config<T>, s: Runtime<T>, run: seq<Event<T>>): Runtime<T>
    decreases |run|
  {
    if run == [] then s else Run(cfg, Step(cfg, s, run[0]), run[1..])
  }

  // Every rollback of the run is safe in the state it comes to.
  ghost predicate SafeRun<T(!new)>(cfg: Config<T>, s: Runtime<T>, run: seq<Event<T>>)
    decreases |run|
  {
    run == [] || ((run[0].Call? ==> SafeCall(cfg, s, run[0].c)) && SafeRun(cfg, Step(cfg, s, run[0]), run[1..]))
  }

  ghost predicate CleanRollbacks<T>(run: seq<Event<T>>) {
    forall i :: 0 <= i < |run| && run[i].Call? ==> run[i].c.rollback == Restored
  }

  lemma {:induction false} CleanIsSafe<T(!new)>(cfg: Config<T>, s: Runtime<T>, run: seq<Event<T>>)
    requires CleanRollbacks(run)
    ensures SafeRun(cfg, s, run)
    decreases |run|
  {
    if run != [] {
      assert run[0] in run;
      CleanIsSafe(cfg, Step(cfg, s, run[0]), run[1..]);
    }
  }

  // Every snapshot has a collision-free checksum, and no capture fails to compute one.
  ghost predicate CheckedCaptures<T(!new)>(cfg: Config<T>, s: Runtime<T>, run: seq<Event<T>>) {
    && Collisionless(cfg.ops) && Covered(s.store)
    && forall i :: 0 <= i < |run| && run[i].Call? ==> !run[i].c.captureFault.ChecksumRaises?
  }

  // Rollbacks may then do anything.
  lemma {:induction false} CheckedIsSafe<T(!new)>(cfg: Config<T>, s: Runtime<T>, run: seq<Event<T>>)
    requires CheckedCaptures(cfg, s, run)
    ensures SafeRun(cfg, s, run)
    decreases |run|
  {
    if run != [] {
      assert run[0] in run;
      if run[0].Call? {
        CallStaysCovered(cfg, s, run[0].c);
      }
      CheckedIsSafe(cfg, Step(cfg, s, run[0]), run[1..]);
    }
  }

  lemma CallStaysCovered<T(!new)>(cfg: Config<T>, s: Runtime<T>, c: InferCall<T>)
    requires Covered(s.store) && !c.captureFault.ChecksumRaises?
    ensures Covered(Infer(cfg, s, c).state.store)
    ensures Reaches(cfg, s, c) ==> TargetsChecked(BeforeRollback(cfg, s, c).store)
  {
    if Reaches(cfg, s, c) {
      var s1 := BeforeRollback(cfg, s, c);
      RollbackIsLast(cfg, s, c, c.rollback);
      assert c.(rollback := c.rollback) == c;
      BeforeRollbackStore(cfg, s, c);
      SnapshotsCovered(cfg.ops, s.weights, s.store, s.registry.routes[c.routeId].layers, c.captureFault);
      CoveredTargets(s1.store);
    } else {
      RefusedCall(cfg, s, c);
    }
  }

  // The last call that got to the lock raised out of the verification of its rollback;
  // `before` says so of the calls before the run.
  ghost predicate LastEscaped<T(!new)>(cfg: Config<T>, s: Runtime<T>, run: seq<Event<T>>, before: bool)
    decreases |run|
  {
    if run == [] then before
    else
      var locked := run[0].Call? && Reaches(cfg, s, run[0].c);
      LastEscaped(cfg, Step(cfg, s, run[0]), run[1..], if locked then CallEscapes(cfg, s, run[0].c) else before)
  }

  // Quarantine is absorbing: from then on every call is refused and no weight changes.
  lemma {:induction false} QuarantineAbsorbs<T>(cfg: Config<T>, s: Runtime<T>, run: seq<Event<T>>)
    requires s.phase == WorkerQuarantined
    ensures Run(cfg, s, run) == s.(registry := Run(cfg, s, run).registry)
    ensures forall c :: Infer(cfg, Run(cfg, s, run), c) == InferOutcome(Run(cfg, s, run), Refused, None)
    decreases |run|
  {
    if run != [] {
      QuarantineAbsorbs(cfg, Step(cfg, s, run[0]), run[1..]);
    }
  }

  // Over every run, the worker is in service at the base model, or quarantined for good, or
  // stuck, and the last exactly when the latest call that got to the lock raised out of the
  // verification of its rollback.
  lemma {:induction false} RunEnds<T(!new)>(cfg: Config<T>, base: Weights<T>, s: Runtime<T>, run: seq<Event<T>>)
    requires (AtBase(cfg.ops, base, s) || Stuck(cfg.ops, base, s)) && SafeRun(cfg, s, run)
    ensures var e := Run(cfg, s, run);
      || e.phase == WorkerQuarantined
      || if LastEscaped(cfg, s, run, Stuck(cfg.ops, base, s)) then Stuck(cfg.ops, base, e) else AtBase(cfg.ops, base, e)
    ensures CleanRollbacks(run) ==> Run(cfg, s, run).phase != WorkerQuarantined
    decreases |run|
  {
    if run != [] {
      var s1 := Step(cfg, s, run[0]);
      if run[0].Call? {
        assert run[0] in run;
        InferEnds(cfg, base, s, run[0].c);
      }
      if s1.phase == WorkerQuarantined {
        QuarantineAbsorbs(cfg, s1, run[1..]);
      } else {
        RunEnds(cfg, base, s1, run[1..]);
      }
    }
  }

  // Without rollback faults every run ends in service at the base model; with faults that
  // can be detected, and checksums that can be computed after the copying, there or in
  // quarantine.
  lemma EveryRunEndsAtBase<T(!new)>(cfg: Config<T>, base: Weights<T>, s: Runtime<T>, run: seq<Event<T>>)
    requires AtBase(cfg.ops, base, s)
    requires CleanRollbacks(run) || SafeRun(cfg, s, run) || CheckedCaptures(cfg, s, run)
    requires forall i :: 0 <= i < |run| && run[i].Call? ==> !run[i].c.rollback.VerifyRaises?
    ensures AtBase(cfg.ops, base, Run(cfg, s, run)) || Run(cfg, s, run).phase == WorkerQuarantined
    ensures CleanRollbacks(run) ==> AtBase(cfg.ops, base, Run(cfg, s, run))
  {
    if CleanRollbacks(run) {
      CleanIsSafe(cfg, s, run);
    } else if CheckedCaptures(cfg, s, run) {
      CheckedIsSafe(cfg, s, run);
    }
    RunEnds(cfg, base, s, run);
    NothingEscapes(cfg, s, run);
  }

  lemma {:induction false} NothingEscapes<T(!new)>(cfg: Config<T>, s: Runtime<T>, run: seq<Event<T>>)
    requires forall i :: 0 <= i < |run| && run[i].Call? ==> !run[i].c.rollback.VerifyRaises?
    ensures !LastEscaped(cfg, s, run, false)
    decreases |run|
  {
    if run != [] {
      assert run[0] in run;
      NothingEscapes(cfg, Step(cfg, s, run[0]), run[1..]);
    }
  }

  // ----- Payload failures -----

  // The call gets as far as validating the payload, and that fails.
  ghost predicate PayloadFails<T>(cfg: Config<T>, s: Runtime<T>, c: InferCall<T>) {
    && s.phase != WorkerQuarantined
    && Executable(s.registry, c.routeId, cfg.modelHash, c.tenant)
    && DeltasFor(cfg, s, c).Err?
  }

  // A payload failure leaves the runtime as it was but for the route's status, which it
  // withdraws exactly when the failure is scoped to the route, and for the phase, which it
  // then moves to ROUTE_QUARANTINED exactly from the four phases that may go there.
  lemma PayloadFailureIsContained<T>(cfg: Config<T>, s: Runtime<T>, c: InferCall<T>)
    requires PayloadFails(cfg, s, c)
    ensures var out := Infer(cfg, s, c);
      && out.result == Refused && out.seen == None
      && out.state == s.(registry := out.state.registry, phase := out.state.phase)
      && out.state.phase ==
           (if RouteScoped(DeltasFor(cfg, s, c).error)
                && s.phase in {Verifying, SnapshotCaptured, Swapping, RollingBack}
            then RouteQuarantined else s.phase)
      && (Withdrawn(out.state.registry, c.routeId) <==> RouteScoped(DeltasFor(cfg, s, c).error))
      && (forall id :: id != c.routeId ==> (Withdrawn(out.state.registry, id) <==> Withdrawn(s.registry, id)))
  {
    ValidationIsFailClose(cfg.ops, s.registry.routes[c.routeId], c.file, cfg.maxBytes);
  }

  // A withdrawn route stays withdrawn through any run that does not register it again,
  // so every later call on it is refused with nothing changed.
  lemma {:induction false} WithdrawnRouteRefused<T>(cfg: Config<T>, s: Runtime<T>, run: seq<Event<T>>, c: InferCall<T>)
    requires Withdrawn(s.registry, c.routeId)
    requires forall i :: 0 <= i < |run| && run[i].Admin? && run[i].op.Register? && run[i].op.verified ==>
        run[i].op.id != c.routeId
    ensures Withdrawn(Run(cfg, s, run).registry, c.routeId)
    ensures Infer(cfg, Run(cfg, s, run), c) == InferOutcome(Run(cfg, s, run), Refused, None)
    decreases |run|
  {
    if run != [] {
      assert run[0] in run;
      StepKeepsWithdrawn(cfg, s, run[0], c.routeId);
      WithdrawnRouteRefused(cfg, Step(cfg, s, run[0]), run[1..], c);
    }
  }

  lemma StepKeepsWithdrawn<T>(cfg: Config<T>, s: Runtime<T>, e: Event<T>, id: RouteId)
    requires Withdrawn(s.registry, id)
    requires e.Admin? && e.op.Register? && e.op.verified ==> e.op.id != id
    ensures Withdrawn(Step(cfg, s, e).registry, id)
  {
    if e.Call? {
      InferRegistry(cfg, s, e.c);
    }
  }

  // A call touches the registry only to quarantine its own route.
  lemma InferRegistry<T>(cfg: Config<T>, s: Runtime<T>, c: InferCall<T>)
    ensures Infer(cfg, s, c).state.registry in {s.registry, Apply(s.registry, Quarantine(c.routeId))}
  {
  }

  // After a route-scoped payload failure, every later call on that route is refused,
  // with the weights untouched, until its id is registered again.
  lemma RouteScopedFailureLocksOut<T>(
      cfg: Config<T>, s: Runtime<T>, bad: InferCall<T>, run: seq<Event<T>>, c: InferCall<T>)
    requires PayloadFails(cfg, s, bad) && RouteScoped(DeltasFor(cfg, s, bad).error)
    requires c.routeId == bad.routeId
    requires forall i :: 0 <= i < |run| && run[i].Admin? && run[i].op.Register? && run[i].op.verified ==>
        run[i].op.id != c.routeId
    ensures var later := Run(cfg, s, [Call(bad)] + run); Infer(cfg, later, c) == InferOutcome(later, Refused, None)
  {
    PayloadFailureIsContained(cfg, s, bad);
    var s1 := Step(cfg, s, Call(bad));
    assert ([Call(bad)] + run)[1..] == run;
    WithdrawnRouteRefused(cfg, s1, run, c);
  }

  // No sequence of payload failures, however long, changes a weight or the phase.
  lemma {:induction false} PayloadFailuresNeverQuarantineWorker<T>(cfg: Config<T>, s: Runtime<T>, run: seq<Event<T>>)
    requires s.phase == Ready
    requires forall i :: 0 <= i < |run| ==> run[i].Call? && PayloadFails(cfg, Run(cfg, s, run[..i]), run[i].c)
    ensures Run(cfg, s, run) == s.(registry := Run(cfg, s, run).registry)
    decreases |run|
  {
    if run != [] {
      assert run[..0] == [];
      PayloadFailureIsContained(cfg, s, run[0].c);
      var s1 := Step(cfg, s, run[0]);
      forall i | 0 <= i < |run| - 1 ensures run[1..][i].Call?
          && PayloadFails(cfg, Run(cfg, s1, run[1..][..i]), run[1..][i].c) {
        assert run[..i + 1][1..] == run[1..][..i];
        assert Run(cfg, s, run[..i + 1]) == Run(cfg, s1, run[1..][..i]);
      }
      PayloadFailuresNeverQuarantineWorker(cfg, s1, run[1..]);
    }
  }
}
