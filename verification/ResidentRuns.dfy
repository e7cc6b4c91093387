/** Runs of `ensure_route` and `clear_active_route`, the drivers that keep a route
    resident between calls and take three shortcuts: skip a resident route, reuse
    validated deltas, reuse golden snapshots. */
module ResidentRuns {
  import opened Prelude
  import opened Tensors
  import opened RuntimeState
  import opened FailurePolicy
  import opened RouteRegistry
  import opened PayloadValidator
  import opened HotSwapModel
  import opened RouteWeights
  import opened CaptureChecks
  import InferRuns

  // Route data that does not change during a run.
  datatype World<!T> = World(manifest: RouteId -> Manifest, file: RouteId -> PayloadFile<T>)

  ghost function DeltasOf<T>(cfg: Config<T>, world: World<T>, id: RouteId): Result<map<string, T>, FailureClass> {
    ValidatePayload(cfg.ops, world.manifest(id), world.file(id), cfg.maxBytes)
  }

  // The reference: start from the base model and add the route's deltas. No history,
  // no cache, no snapshots.
  ghost function RouteModel<T>(cfg: Config<T>, world: World<T>, base: Weights<T>, id: RouteId): Weights<T> {
    if id == BASE || DeltasOf(cfg, world, id).Err? then base
    else BasePlus(cfg.ops, base, world.manifest(id), DeltasOf(cfg, world, id).value)
  }

  // ----- What every call keeps -----

  // The registry and the delta cache hold nothing but the world's route data.
  ghost predicate Faithful<T>(cfg: Config<T>, world: World<T>, s: Runtime<T>) {
    && (forall id :: id in s.registry.routes ==> s.registry.routes[id] == world.manifest(id))
    && (forall id :: id in s.cache ==> DeltasOf(cfg, world, id) == Ok(s.cache[id]))
  }

  // After a rollback that raised out of its verification.
  predicate StuckPhase(p: Phase) {
    p in {RollingBack, RouteQuarantined}
  }

  // The phase tells what is resident: SWAPPED with a route, READY without one,
  // quarantined after a rollback that failed, stuck after one that raised.
  ghost predicate Resident<T>(cfg: Config<T>, world: World<T>, base: Weights<T>, s: Runtime<T>) {
    match s.phase
    case Ready => s.active == BASE && s.weights == base
    case Swapped =>
      && s.active != BASE && s.weights == RouteModel(cfg, world, base, s.active)
      && Restorable(base, s.weights, s.store)
    case WorkerQuarantined => s.active == BASE && Restorable(base, s.weights, s.store)
    case _ => StuckPhase(s.phase) && Restorable(base, s.weights, s.store)
  }

  // The payload of the route named as active validates.
  ghost predicate Valid<T>(cfg: Config<T>, world: World<T>, id: RouteId) {
    id == BASE || DeltasOf(cfg, world, id).Ok?
  }

  ghost predicate Inv<T>(cfg: Config<T>, world: World<T>, base: Weights<T>, s: Runtime<T>) {
    && Sound(cfg.ops, base, s.store) && Faithful(cfg, world, s)
    && Resident(cfg, world, base, s) && Valid(cfg, world, s.active)
  }

  datatype Event<T> = Ensure(c: EnsureCall<T>) | Clear(o: RollbackOutcome<T>) | Admin(op: RegistryOp)

  // The call reads the world's payload file, and registers nothing but the world's manifests.
  ghost predicate InWorld<T>(world: World<T>, e: Event<T>) {
    match e
    case Ensure(c) => c.file == world.file(c.routeId)
    case Clear(_) => true
    case Admin(op) => op.Register? ==> op.manifest == world.manifest(op.id)
  }

  ghost predicate Clean<T>(e: Event<T>) {
    match e
    case Ensure(c) => c.evict == Restored && c.undo == Restored
    case Clear(o) => o == Restored
    case Admin(_) => true
  }

  // No rollback of the event raises out of its verification.
  ghost predicate Computes<T>(e: Event<T>) {
    match e
    case Ensure(c) => !c.evict.VerifyRaises? && !c.undo.VerifyRaises?
    case Clear(o) => !o.VerifyRaises?
    case Admin(_) => true
  }

  ghost function Step<T>(cfg: Config<T>, s: Runtime<T>, e: Event<T>): Runtime<T> {
    match e
    case Ensure(c) => EnsureRoute(cfg, s, c).state
    case Clear(o) => ClearActiveRoute(cfg, s, o).0
    case Admin(op) => s.(registry := Apply(s.registry, op))
  }

  // The rollback of the resident route, if there is one, is safe.
  ghost predicate SafeEviction<T(!new)>(cfg: Config<T>, s: Runtime<T>, o: RollbackOutcome<T>) {
    s.active == BASE || SafeRollback(cfg.ops, s.store, o)
  }

  // A rollback of the resident route: back at base and READY, or quarantined, or it raises
  // and leaves the route named as active.
  lemma EvictKeeps<T(!new)>(cfg: Config<T>, world: World<T>, base: Weights<T>, s: Runtime<T>, o: RollbackOutcome<T>)
    requires Inv(cfg, world, base, s) && s.phase != WorkerQuarantined && SafeEviction(cfg, s, o)
    ensures var s' := Evict(cfg.ops, s, o);
      && Inv(cfg, world, base, s')
      && s' == s.(weights := s'.weights, phase := s'.phase, active := s'.active, rollbacks := s'.rollbacks)
      && (s.active == BASE ==> s' == s)
      && (EvictionRaises(s, o) ==> s'.phase == RollingBack && s'.active == s.active)
      && (!EvictionRaises(s, o) ==> s'.active == BASE)
      && (s.active != BASE && !EvictionRaises(s, o) ==> s'.phase in {Ready, WorkerQuarantined})
      && (s.active != BASE && s'.phase == Ready ==> s'.rollbacks == s.rollbacks + 1)
      && (s'.phase == WorkerQuarantined ==> o.Torn?)
  {
    if s.active != BASE {
      RollbackEnds(cfg.ops, base, s, o);
    }
  }

  // The call reaches the locked swap.
  ghost predicate Attempts<T>(cfg: Config<T>, s: Runtime<T>, c: EnsureCall<T>) {
    && s.phase != WorkerQuarantined && s.active != c.routeId && c.routeId != BASE && !EvictionRaises(s, c.evict)
    && Executable(s.registry, c.routeId, cfg.modelHash, c.tenant)
    && (c.routeId in s.cache || ValidatePayload(cfg.ops, s.registry.routes[c.routeId], c.file, cfg.maxBytes).Ok?)
  }

  // What an attempt does once the old route is evicted.
  ghost function Evicted<T>(cfg: Config<T>, s: Runtime<T>, c: EnsureCall<T>, deltas: map<string, T>): Runtime<T> {
    var s0 := Evict(cfg.ops, s, c.evict);
    s0.(cache := s0.cache[c.routeId := deltas])
  }

  // The deltas it uses: cached ones, or validated ones.
  ghost function DeltasUsed<T>(cfg: Config<T>, s: Runtime<T>, c: EnsureCall<T>): map<string, T>
    requires Attempts(cfg, s, c)
  {
    if c.routeId in s.cache then s.cache[c.routeId]
    else ValidatePayload(cfg.ops, s.registry.routes[c.routeId], c.file, cfg.maxBytes).value
  }

  lemma AttemptIsSwap<T>(cfg: Config<T>, s: Runtime<T>, c: EnsureCall<T>)
    requires Attempts(cfg, s, c)
    ensures var deltas := DeltasUsed(cfg, s, c);
      EnsureRoute(cfg, s, c) == SwapOrUndo(cfg, Evicted(cfg, s, c, deltas), s.registry.routes[c.routeId], deltas, c)
  {
    var s0 := Evict(cfg.ops, s, c.evict);
    assert s0.registry == s.registry && s0.cache == s.cache;
  }

  lemma SwapOrUndoFrame<T>(cfg: Config<T>, s: Runtime<T>, m: Manifest, deltas: map<string, T>, c: EnsureCall<T>)
    ensures var e := SwapOrUndo(cfg, s, m, deltas, c).state;
      && e.cache == s.cache && e.registry == s.registry
      && (e.store == s.store || e.store == CaptureSnapshot(cfg.ops, s.weights, s.store, m.layers, c.captureFault).0)
  {
    SwapInFrame(cfg, s, m, deltas, c);
  }

  lemma SwapInFrame<T>(cfg: Config<T>, s: Runtime<T>, m: Manifest, deltas: map<string, T>, c: EnsureCall<T>)
    ensures var s' := SwapIn(cfg.ops, s, m, deltas, c.captureFault, c.applyFault).0;
      && s'.cache == s.cache && s'.registry == s.registry
      && (s'.store == s.store || s'.store == CaptureSnapshot(cfg.ops, s.weights, s.store, m.layers, c.captureFault).0)
  {
  }

  // The snapshots a failed swap of the call is undone from.
  ghost function UndoStore<T>(cfg: Config<T>, s: Runtime<T>, c: EnsureCall<T>): Store<T>
    requires Attempts(cfg, s, c)
  {
    var deltas, m := DeltasUsed(cfg, s, c), s.registry.routes[c.routeId];
    SwapIn(cfg.ops, Evicted(cfg, s, c, deltas), m, deltas, c.captureFault, c.applyFault).0.store
  }

  ghost predicate SafeUndo<T(!new)>(cfg: Config<T>, s: Runtime<T>, c: EnsureCall<T>) {
    Attempts(cfg, s, c) ==> SafeRollback(cfg.ops, UndoStore(cfg, s, c), c.undo)
  }

  // The rollbacks of the event are safe in the states they come to.
  ghost predicate SafeEvent<T(!new)>(cfg: Config<T>, s: Runtime<T>, e: Event<T>) {
    match e
    case Ensure(c) => SafeEviction(cfg, s, c.evict) && SafeUndo(cfg, s, c)
    case Clear(o) => SafeEviction(cfg, s, o)
    case Admin(_) => true
  }

  ghost predicate FailedSwap<T>(cfg: Config<T>, s: Runtime<T>, e: Event<T>) {
    e.Ensure? && Attempts(cfg, s, e.c) && EnsureRoute(cfg, s, e.c).result.Err?
  }

  // Swaps not yet undone, over the one that is resident.
  ghost function Balance<T>(s: Runtime<T>): int {
    s.swaps - s.rollbacks - if s.active == BASE then 0 else 1
  }

  // What the swap of ensure_route leaves.
  ghost predicate SwapEnds<T(!new)>(
      cfg: Config<T>, world: World<T>, base: Weights<T>, s: Runtime<T>, c: EnsureCall<T>, out: EnsureOutcome<T>) {
    && Inv(cfg, world, base, out.state)
    && (out.result.Ok? ==> out.state.active == c.routeId && out.state.phase == Swapped)
    && (out.result.Err? ==> out.state.active == BASE && out.state.phase in {Ready, WorkerQuarantined, RollingBack})
    && (out.state.phase == WorkerQuarantined ==> c.undo.Torn?)
    && (out.state.phase == RollingBack <==> out.result.Err? && Escapes(out.state.store, c.undo))
    && (c.undo == Restored ==> Balance(out.state) == s.swaps - s.rollbacks - if out.result.Err? then 1 else 0)
  }

  // The swap of ensure_route, once no route is resident.
  lemma SwapOrUndoKeeps<T(!new)>(
      cfg: Config<T>, world: World<T>, base: Weights<T>, s: Runtime<T>, m: Manifest, deltas: map<string, T>,
      c: EnsureCall<T>)
    requires Inv(cfg, world, base, s) && s.active == BASE && c.routeId != BASE
    requires m == world.manifest(c.routeId) && DeltasOf(cfg, world, c.routeId) == Ok(deltas)
    requires SafeRollback(cfg.ops, SwapIn(cfg.ops, s, m, deltas, c.captureFault, c.applyFault).0.store, c.undo)
    ensures SwapEnds(cfg, world, base, s, c, SwapOrUndo(cfg, s, m, deltas, c))
  {
    var (s', swapped) := SwapIn(cfg.ops, s, m, deltas, c.captureFault, c.applyFault);
    SwapInLeaves(cfg, base, s, m, deltas, c);
    OutcomeKeeps(cfg, world, base, s, m, deltas, c, s', swapped);
    SwapOrUndoIs(cfg, s, m, deltas, c, s', swapped);
  }

  lemma SwapOrUndoIs<T>(
      cfg: Config<T>, s: Runtime<T>, m: Manifest, deltas: map<string, T>, c: EnsureCall<T>, s': Runtime<T>,
      swapped: bool)
    requires SwapIn(cfg.ops, s, m, deltas, c.captureFault, c.applyFault) == (s', swapped)
    ensures SwapOrUndo(cfg, s, m, deltas, c) ==
      if swapped then EnsureOutcome(s'.(active := c.routeId, swaps := s'.swaps + 1), Ok(true))
      else EnsureOutcome(RollBackActive(cfg.ops, s', c.undo), Err(()))
  {
  }

  // The same from where the swap left off.
  lemma OutcomeKeeps<T(!new)>(
      cfg: Config<T>, world: World<T>, base: Weights<T>, s: Runtime<T>, m: Manifest, deltas: map<string, T>,
      c: EnsureCall<T>, s': Runtime<T>, swapped: bool)
    requires Inv(cfg, world, base, s) && s.active == BASE && c.routeId != BASE
    requires m == world.manifest(c.routeId) && DeltasOf(cfg, world, c.routeId) == Ok(deltas)
    requires SwapLeaves(cfg.ops, base, s, m, deltas, s', swapped) && SafeRollback(cfg.ops, s'.store, c.undo)
    ensures SwapEnds(cfg, world, base, s, c,
      if swapped then EnsureOutcome(s'.(active := c.routeId, swaps := s'.swaps + 1), Ok(true))
      else EnsureOutcome(RollBackActive(cfg.ops, s', c.undo), Err(())))
  {
    if !swapped {
      UndoKeeps(cfg, world, base, s, s', c.undo);
    }
  }

  // With no route resident the swap gets somewhere only from READY.
  lemma SwapInLeaves<T(!new)>(
      cfg: Config<T>, base: Weights<T>, s: Runtime<T>, m: Manifest, deltas: map<string, T>, c: EnsureCall<T>)
    requires Sound(cfg.ops, base, s.store) && Restorable(base, s.weights, s.store)
        && (s.phase == Ready ==> s.weights == base)
    ensures var (s', swapped) := SwapIn(cfg.ops, s, m, deltas, c.captureFault, c.applyFault);
      SwapLeaves(cfg.ops, base, s, m, deltas, s', swapped)
  {
    if s.phase == Ready {
      SwapInExact(cfg.ops, base, s, m, deltas, c.captureFault, c.applyFault);
    }
  }

  // A swap that failed at s', started at s, is undone.
  lemma UndoKeeps<T(!new)>(
      cfg: Config<T>, world: World<T>, base: Weights<T>, s: Runtime<T>, s': Runtime<T>, o: RollbackOutcome<T>)
    requires Inv(cfg, world, base, s) && s.active == BASE
    requires s' == s.(weights := s'.weights, phase := s'.phase, store := s'.store)
    requires Sound(cfg.ops, base, s'.store) && Restorable(base, s'.weights, s'.store)
    requires SafeRollback(cfg.ops, s'.store, o)
    ensures var e := RollBackActive(cfg.ops, s', o);
      && Inv(cfg, world, base, e)
      && e == s.(weights := e.weights, phase := e.phase, store := s'.store, rollbacks := e.rollbacks)
      && e.phase in {Ready, WorkerQuarantined, RollingBack}
      && (e.phase == WorkerQuarantined ==> o.Torn?)
      && (e.phase == RollingBack <==> Escapes(s'.store, o))
      && (o == Restored ==> e.rollbacks == s.rollbacks + 1)
  {
    UndoEnds(cfg, base, s', o);
  }

  lemma UndoEnds<T(!new)>(cfg: Config<T>, base: Weights<T>, s: Runtime<T>, o: RollbackOutcome<T>)
    requires Sound(cfg.ops, base, s.store) && Restorable(base, s.weights, s.store) && s.active == BASE
    requires SafeRollback(cfg.ops, s.store, o)
    ensures var s' := RollBackActive(cfg.ops, s, o);
      && s' == s.(weights := s'.weights, phase := s'.phase, rollbacks := s'.rollbacks)
      && Restorable(base, s'.weights, s.store)
      && s'.phase in {Ready, WorkerQuarantined, RollingBack}
      && (s'.phase == Ready ==> s'.weights == base && s'.rollbacks == s.rollbacks + 1)
      && (s'.phase == WorkerQuarantined ==> o.Torn?) && (s'.phase == RollingBack <==> Escapes(s.store, o))
  {
    RollbackEnds(cfg.ops, base, s, o);
  }

  // The call rolls something back: the resident route, or a swap that fails in a stuck phase.
  ghost predicate RollsBack<T>(cfg: Config<T>, s: Runtime<T>, e: Event<T>) {
    match e
    case Ensure(c) => s.phase != WorkerQuarantined && s.active != c.routeId && (s.active != BASE || Attempts(cfg, s, c))
    case Clear(o) => s.active != BASE
    case Admin(_) => false
  }

  // The last rollback of the call raises out of its verification, or the call rolls nothing
  // back in a phase that is stuck already.
  ghost predicate LeavesStuck<T>(cfg: Config<T>, s: Runtime<T>, e: Event<T>) {
    if !RollsBack(cfg, s, e) then StuckPhase(s.phase)
    else match e
         case Ensure(c) =>
           var out := EnsureRoute(cfg, s, c);
           EvictionRaises(s, c.evict) || (Attempts(cfg, s, c) && out.result.Err? && Escapes(out.state.store, c.undo))
         case Clear(o) => EvictionRaises(s, o)
         case Admin(_) => false
  }

  // What a call of ensure_route leaves: the invariant; after a normal return the requested
  // route named as active; and trouble only where there was some, or a fault to cause it.
  ghost predicate EnsureLeaves<T(!new)>(
      cfg: Config<T>, world: World<T>, base: Weights<T>, s: Runtime<T>, c: EnsureCall<T>) {
    var out := EnsureRoute(cfg, s, c);
    && Inv(cfg, world, base, out.state)
    && (out.result.Ok? ==> out.state.active == c.routeId)
    && (out.state.phase == WorkerQuarantined ==> s.phase == WorkerQuarantined || c.evict.Torn? || c.undo.Torn?)
    && (StuckPhase(out.state.phase) <==> LeavesStuck(cfg, s, Ensure(c)))
    && (Clean(Ensure(c)) && s.phase != WorkerQuarantined ==>
          Balance(out.state) == Balance(s) - if FailedSwap(cfg, s, Ensure(c)) then 1 else 0)
  }

  // One call of ensure_route keeps the invariant.
  lemma EnsureKeeps<T(!new)>(cfg: Config<T>, world: World<T>, base: Weights<T>, s: Runtime<T>, c: EnsureCall<T>)
    requires Inv(cfg, world, base, s) && InWorld(world, Ensure(c)) && SafeEvent(cfg, s, Ensure(c))
    ensures EnsureLeaves(cfg, world, base, s, c)
  {
    if Attempts(cfg, s, c) {
      AttemptLeaves(cfg, world, base, s, c);
    } else {
      RefusalLeaves(cfg, world, base, s, c);
    }
  }

  // A call that does not get to the swap evicts the old route at most.
  lemma RefusalLeaves<T(!new)>(cfg: Config<T>, world: World<T>, base: Weights<T>, s: Runtime<T>, c: EnsureCall<T>)
    requires Inv(cfg, world, base, s) && InWorld(world, Ensure(c)) && SafeEvent(cfg, s, Ensure(c))
    requires !Attempts(cfg, s, c)
    ensures EnsureLeaves(cfg, world, base, s, c)
  {
    if s.phase != WorkerQuarantined && s.active != c.routeId {
      EvictKeeps(cfg, world, base, s, c.evict);
    }
  }

  lemma AttemptLeaves<T(!new)>(cfg: Config<T>, world: World<T>, base: Weights<T>, s: Runtime<T>, c: EnsureCall<T>)
    requires Inv(cfg, world, base, s) && InWorld(world, Ensure(c)) && SafeEvent(cfg, s, Ensure(c))
    requires Attempts(cfg, s, c)
    ensures EnsureLeaves(cfg, world, base, s, c)
  {
    EvictKeeps(cfg, world, base, s, c.evict);
    AttemptKeeps(cfg, world, base, s, Evict(cfg.ops, s, c.evict), c);
  }

  // The part of ensure_route after the old route is evicted.
  lemma AttemptKeeps<T(!new)>(
      cfg: Config<T>, world: World<T>, base: Weights<T>, s: Runtime<T>, s0: Runtime<T>, c: EnsureCall<T>)
    requires Attempts(cfg, s, c) && InWorld(world, Ensure(c)) && SafeUndo(cfg, s, c)
    requires Inv(cfg, world, base, s0) && s0 == Evict(cfg.ops, s, c.evict) && s0.active == BASE
    requires s0.registry == s.registry && s0.cache == s.cache && s0.store == s.store && s0.swaps == s.swaps
    ensures var out := EnsureRoute(cfg, s, c);
      && Inv(cfg, world, base, out.state)
      && (out.result.Ok? ==> out.state.active == c.routeId && out.state.phase == Swapped)
      && (out.state.phase == WorkerQuarantined ==> c.undo.Torn?)
      && (StuckPhase(out.state.phase) <==> out.result.Err? && Escapes(out.state.store, c.undo))
      && (c.undo == Restored ==> Balance(out.state) == s0.swaps - s0.rollbacks - if out.result.Err? then 1 else 0)
  {
    var deltas := DeltasUsed(cfg, s, c);
    AttemptIsSwap(cfg, s, c);
    SwapOrUndoKeeps(cfg, world, base, Evicted(cfg, s, c, deltas), s.registry.routes[c.routeId], deltas, c);
  }

  // ----- Runs -----

  ghost function Run<T>(cfg: Config<T>, s: Runtime<T>, run: seq<Event<T>>): Runtime<T>
    decreases |run|
  {
    if run == [] then s else Run(cfg, Step(cfg, s, run[0]), run[1..])
  }

  ghost predicate AllInWorld<T>(world: World<T>, run: seq<Event<T>>) {
    forall i :: 0 <= i < |run| ==> InWorld(world, run[i])
  }

  ghost predicate AllClean<T>(run: seq<Event<T>>) {
    forall i :: 0 <= i < |run| ==> Clean(run[i])
  }

  // Every rollback of the run is safe in the state it comes to.
  ghost predicate SafeRun<T(!new)>(cfg: Config<T>, s: Runtime<T>, run: seq<Event<T>>)
    decreases |run|
  {
    run == [] || (SafeEvent(cfg, s, run[0]) && SafeRun(cfg, Step(cfg, s, run[0]), run[1..]))
  }

  lemma {:induction false} CleanIsSafe<T(!new)>(cfg: Config<T>, s: Runtime<T>, run: seq<Event<T>>)
    requires AllClean(run)
    ensures SafeRun(cfg, s, run)
    decreases |run|
  {
    if run != [] {
      assert run[0] in run;
      CleanIsSafe(cfg, Step(cfg, s, run[0]), run[1..]);
    }
  }

  ghost predicate NoChecksumFaults<T>(run: seq<Event<T>>) {
    forall i :: 0 <= i < |run| && run[i].Ensure? ==> !run[i].c.captureFault.ChecksumRaises?
  }

  // Rollbacks may do anything when no capture of the run fails to compute a checksum.
  lemma {:induction false} CheckedIsSafe<T(!new)>(cfg: Config<T>, s: Runtime<T>, run: seq<Event<T>>)
    requires Collisionless(cfg.ops) && Covered(s.store) && NoChecksumFaults(run)
    ensures SafeRun(cfg, s, run)
    decreases |run|
  {
    if run != [] {
      assert run[0] in run;
      CheckedStep(cfg, s, run[0]);
      CheckedIsSafe(cfg, Step(cfg, s, run[0]), run[1..]);
    }
  }

  lemma CheckedStep<T(!new)>(cfg: Config<T>, s: Runtime<T>, e: Event<T>)
    requires Collisionless(cfg.ops) && Covered(s.store) && (e.Ensure? ==> !e.c.captureFault.ChecksumRaises?)
    ensures SafeEvent(cfg, s, e) && Covered(Step(cfg, s, e).store)
  {
    CoveredTargets(s.store);
    if e.Ensure? && Attempts(cfg, s, e.c) {
      var deltas, m := DeltasUsed(cfg, s, e.c), s.registry.routes[e.c.routeId];
      var s1 := Evicted(cfg, s, e.c, deltas);
      AttemptIsSwap(cfg, s, e.c);
      SwapOrUndoFrame(cfg, s1, m, deltas, e.c);
      SwapInFrame(cfg, s1, m, deltas, e.c);
      SnapshotsCovered(cfg.ops, s1.weights, s1.store, m.layers, e.c.captureFault);
      CoveredTargets(UndoStore(cfg, s, e.c));
    }
  }

  // Calls that reached the swap and raised.
  ghost function FailedSwaps<T>(cfg: Config<T>, s: Runtime<T>, run: seq<Event<T>>): nat
    decreases |run|
  {
    if run == [] then 0
    else (if FailedSwap(cfg, s, run[0]) then 1 else 0) + FailedSwaps(cfg, Step(cfg, s, run[0]), run[1..])
  }

  lemma StepKeeps<T(!new)>(cfg: Config<T>, world: World<T>, base: Weights<T>, s: Runtime<T>, e: Event<T>)
    requires Inv(cfg, world, base, s) && InWorld(world, e) && SafeEvent(cfg, s, e)
    ensures var s' := Step(cfg, s, e);
      && Inv(cfg, world, base, s')
      && (Clean(e) && s.phase != WorkerQuarantined ==> s'.phase != WorkerQuarantined)
      && (Clean(e) && s.phase != WorkerQuarantined ==>
            Balance(s') == Balance(s) - if FailedSwap(cfg, s, e) then 1 else 0)
      && (StuckPhase(s'.phase) <==> LeavesStuck(cfg, s, e))
  {
    match e
    case Ensure(c) => EnsureKeeps(cfg, world, base, s, c);
    case Clear(o) =>
      if s.phase != WorkerQuarantined {
        EvictKeeps(cfg, world, base, s, o);
      }
    case Admin(op) =>
  }

  // The invariant holds after every run of safe rollbacks; while no rollback raises out of
  // its verification no call leaves the worker stuck, and without rollback faults none
  // leaves it quarantined.
  lemma {:induction false} RunKeeps<T(!new)>(
      cfg: Config<T>, world: World<T>, base: Weights<T>, s: Runtime<T>, run: seq<Event<T>>)
    requires Inv(cfg, world, base, s) && AllInWorld(world, run) && SafeRun(cfg, s, run)
    ensures var e := Run(cfg, s, run);
      && Inv(cfg, world, base, e)
      && (!StuckPhase(s.phase) && (forall i :: 0 <= i < |run| ==> Computes(run[i])) ==> !StuckPhase(e.phase))
      && (AllClean(run) && s.phase != WorkerQuarantined ==> e.phase != WorkerQuarantined)
      && (AllClean(run) && s.phase != WorkerQuarantined ==> Balance(e) + FailedSwaps(cfg, s, run) == Balance(s))
    decreases |run|
  {
    if run != [] {
      assert run[0] in run;
      StepKeeps(cfg, world, base, s, run[0]);
      RunKeeps(cfg, world, base, Step(cfg, s, run[0]), run[1..]);
    }
  }

  // A runtime as constructed, over a registry of the world's routes.
  ghost predicate Fresh<T>(world: World<T>, base: Weights<T>, s: Runtime<T>) {
    && s.weights == base && s.phase == Ready && s.store == EmptyStore() && s.cache == map[]
    && s.active == BASE && s.swaps == 0 && s.rollbacks == 0
    && forall id :: id in s.registry.routes ==> s.registry.routes[id] == world.manifest(id)
  }

  // The shortcuts refine the reference: after any run, whatever its history and even with
  // faulty rollbacks, a worker that is neither quarantined nor stuck holds exactly the
  // weights of the route it says is active, and that route's payload validates. Without
  // rollback faults it is neither.
  lemma ShortcutsRefineReset<T(!new)>(
      cfg: Config<T>, world: World<T>, base: Weights<T>, s: Runtime<T>, run: seq<Event<T>>)
    requires Fresh(world, base, s) && AllInWorld(world, run)
    requires AllClean(run) || SafeRun(cfg, s, run) || (Collisionless(cfg.ops) && NoChecksumFaults(run))
    ensures var e := Run(cfg, s, run);
      && Valid(cfg, world, e.active)
      && (e.phase in {Ready, Swapped} ==> e.weights == RouteModel(cfg, world, base, e.active))
      && (e.phase !in {Ready, Swapped} ==> e.phase == WorkerQuarantined || StuckPhase(e.phase))
    ensures (forall i :: 0 <= i < |run| ==> Computes(run[i])) ==> !StuckPhase(Run(cfg, s, run).phase)
    ensures AllClean(run) ==> Run(cfg, s, run).phase in {Ready, Swapped}
  {
    if AllClean(run) {
      CleanIsSafe(cfg, s, run);
    } else if Collisionless(cfg.ops) && NoChecksumFaults(run) {
      CheckedIsSafe(cfg, s, run);
    }
    RunKeeps(cfg, world, base, s, run);
  }

  // Between the calls of a run without rollback faults, the phase is SWAPPED exactly when a
  // route is resident and READY otherwise, and every swap, completed or failed, is matched
  // by one rollback except the resident one.
  lemma SwapAccounting<T(!new)>(cfg: Config<T>, world: World<T>, base: Weights<T>, s: Runtime<T>, run: seq<Event<T>>)
    requires Fresh(world, base, s) && AllInWorld(world, run) && AllClean(run)
    ensures var e := Run(cfg, s, run);
      && e.phase == (if e.active == BASE then Ready else Swapped)
      && e.swaps + FailedSwaps(cfg, s, run) == e.rollbacks + if e.active == BASE then 0 else 1
  {
    CleanIsSafe(cfg, s, run);
    RunKeeps(cfg, world, base, s, run);
  }

  // ----- Where the code promises less -----

  // The eviction of the resident route fails and quarantines the worker.
  ghost predicate LosesEviction<T>(cfg: Config<T>, s: Runtime<T>, c: EnsureCall<T>) {
    && s.active != BASE && c.evict.Torn?
    && (c.evict.raises || !VerifyRollback(cfg.ops, RollBack(s.weights, s.store, c.evict), s.store))
  }

  // A normal return of ensure_route leaves the requested route's weights resident, with two
  // exceptions: asked for the base model, it returns although evicting the old route
  // quarantined the worker; and asked for the route still named as active after a rollback
  // that raised, it returns without doing anything.
  lemma NormalReturnIsExact<T(!new)>(cfg: Config<T>, world: World<T>, base: Weights<T>, s: Runtime<T>, c: EnsureCall<T>)
    requires Inv(cfg, world, base, s) && InWorld(world, Ensure(c)) && SafeEvent(cfg, s, Ensure(c))
    requires EnsureRoute(cfg, s, c).result.Ok?
    ensures var e := EnsureRoute(cfg, s, c).state;
      && e.active == c.routeId && Valid(cfg, world, c.routeId)
      && (c.routeId in {BASE, s.active} || Executable(s.registry, c.routeId, cfg.modelHash, c.tenant))
      && (e.phase == WorkerQuarantined <==> c.routeId == BASE && LosesEviction(cfg, s, c))
      && (StuckPhase(e.phase) <==> StuckPhase(s.phase) && s.active == c.routeId)
      && (e.phase in {Ready, Swapped, WorkerQuarantined} || StuckPhase(e.phase))
      && (e.phase in {Ready, Swapped} ==> e.weights == RouteModel(cfg, world, base, c.routeId))
  {
    if s.active != c.routeId {
      EvictKeeps(cfg, world, base, s, c.evict);
      if Attempts(cfg, s, c) {
        AttemptKeeps(cfg, world, base, s, Evict(cfg.ops, s, c.evict), c);
      }
    }
  }

  // The first exception happens: whatever the torn rollback left, the call returns.
  lemma BaseReturnsAfterFailedEviction<T>(cfg: Config<T>, s: Runtime<T>, c: EnsureCall<T>)
    requires s.phase == Swapped && s.active != BASE && c.routeId == BASE && c.evict.Torn? && c.evict.raises
    ensures var out := EnsureRoute(cfg, s, c);
      && out.result == Ok(true) && out.state.active == BASE && out.state.phase == WorkerQuarantined
      && out.state.weights == RollBack(s.weights, s.store, c.evict)
  {
  }

  // So does the second: an eviction that raises out of its verification leaves the old route
  // named as active over the base model, and asking for that route again returns at once.
  lemma EscapedEvictionIsStale<T>(
      cfg: Config<T>, base: Weights<T>, s: Runtime<T>, c: EnsureCall<T>, again: EnsureCall<T>)
    requires Sound(cfg.ops, base, s.store) && Restorable(base, s.weights, s.store)
    requires s.phase == Swapped && s.active !in {BASE, c.routeId}
    requires c.evict == VerifyRaises(map[]) && s.store.checksums.Keys != {}
    requires again.routeId == s.active
    ensures var out := EnsureRoute(cfg, s, c);
      && out.result.Err? && out.state.weights == base && out.state.active == s.active && out.state.phase == RollingBack
      && EnsureRoute(cfg, out.state, again) == EnsureOutcome(out.state, Ok(false))
  {
    EvictionEscapes(cfg, base, s);
  }

  // Everything is copied back, and computing a checksum raises.
  lemma EvictionEscapes<T>(cfg: Config<T>, base: Weights<T>, s: Runtime<T>)
    requires Sound(cfg.ops, base, s.store) && Restorable(base, s.weights, s.store)
    requires s.active != BASE && s.store.checksums.Keys != {}
    ensures EvictionRaises(s, VerifyRaises(map[]))
    ensures Evict(cfg.ops, s, VerifyRaises(map[])) == s.(weights := base, phase := RollingBack)
  {
    RollbackRestores(cfg.ops, base, s.weights, s.store);
    assert RollBack(s.weights, s.store, VerifyRaises(map[])) == RollBack(s.weights, s.store, Restored);
  }

  // A call that looks for deltas in the cache ends as if it had validated the payload afresh
  // exactly when that would give the deltas in the cache.
  lemma CacheAgreesIff<T(!new)>(cfg: Config<T>, s: Runtime<T>, c: EnsureCall<T>)
    requires c.routeId in s.cache && Attempts(cfg, s, c)
    ensures EnsureRoute(cfg, s, c) == EnsureRoute(cfg, s.(cache := s.cache - {c.routeId}), c)
      <==> ValidatePayload(cfg.ops, s.registry.routes[c.routeId], c.file, cfg.maxBytes) == Ok(s.cache[c.routeId])
  {
    var bare := s.(cache := s.cache - {c.routeId});
    var validated := ValidatePayload(cfg.ops, s.registry.routes[c.routeId], c.file, cfg.maxBytes);
    CacheIsWhatWasUsed(cfg, s, c);
    if validated == Ok(s.cache[c.routeId]) {
      assert bare.cache[c.routeId := validated.value] == s.cache == s.cache[c.routeId := validated.value];
      EvictionIgnoresCache(cfg, s, bare, c);
    } else {
      BareCache(cfg, bare, c);
      assert EnsureRoute(cfg, s, c).state.cache[c.routeId] == s.cache[c.routeId];
    }
  }

  // With nothing cached the route gets into the cache exactly when its payload validates.
  lemma BareCache<T(!new)>(cfg: Config<T>, s: Runtime<T>, c: EnsureCall<T>)
    requires s.phase != WorkerQuarantined && s.active != c.routeId && c.routeId != BASE && !EvictionRaises(s, c.evict)
    requires Executable(s.registry, c.routeId, cfg.modelHash, c.tenant) && c.routeId !in s.cache
    ensures var cache := EnsureRoute(cfg, s, c).state.cache;
      var validated := ValidatePayload(cfg.ops, s.registry.routes[c.routeId], c.file, cfg.maxBytes);
      && (c.routeId in cache <==> validated.Ok?)
      && (validated.Ok? ==> cache[c.routeId] == validated.value)
  {
    if ValidatePayload(cfg.ops, s.registry.routes[c.routeId], c.file, cfg.maxBytes).Ok? {
      CacheIsWhatWasUsed(cfg, s, c);
    }
  }

  // An attempt ends with the deltas it used in the cache.
  lemma CacheIsWhatWasUsed<T(!new)>(cfg: Config<T>, s: Runtime<T>, c: EnsureCall<T>)
    requires Attempts(cfg, s, c)
    ensures EnsureRoute(cfg, s, c).state.cache == s.cache[c.routeId := DeltasUsed(cfg, s, c)]
  {
    var deltas := DeltasUsed(cfg, s, c);
    AttemptIsSwap(cfg, s, c);
    SwapOrUndoFrame(cfg, Evicted(cfg, s, c, deltas), s.registry.routes[c.routeId], deltas, c);
  }

  // Asked twice for the same deltas, from the same state but for the cache.
  lemma EvictionIgnoresCache<T(!new)>(cfg: Config<T>, s: Runtime<T>, bare: Runtime<T>, c: EnsureCall<T>)
    requires c.routeId in s.cache && Attempts(cfg, s, c) && bare == s.(cache := s.cache - {c.routeId})
    requires ValidatePayload(cfg.ops, s.registry.routes[c.routeId], c.file, cfg.maxBytes) == Ok(s.cache[c.routeId])
    requires bare.cache[c.routeId := s.cache[c.routeId]] == s.cache
    ensures EnsureRoute(cfg, s, c) == EnsureRoute(cfg, bare, c)
  {
    var deltas := s.cache[c.routeId];
    AttemptIsSwap(cfg, s, c);
    AttemptIsSwap(cfg, bare, c);
    EvictedAlike(cfg, s, bare, c, deltas);
  }

  lemma EvictedAlike<T>(cfg: Config<T>, s: Runtime<T>, bare: Runtime<T>, c: EnsureCall<T>, deltas: map<string, T>)
    requires bare == s.(cache := bare.cache) && bare.cache[c.routeId := deltas] == s.cache[c.routeId := deltas]
    ensures Evicted(cfg, s, c, deltas) == Evicted(cfg, bare, c, deltas)
  {
    RollbackIgnoresCache(cfg.ops, s, bare, c.evict);
  }

  lemma RollbackIgnoresCache<T>(ops: ModelOps<T>, s: Runtime<T>, bare: Runtime<T>, o: RollbackOutcome<T>)
    requires bare == s.(cache := bare.cache)
    ensures PerformRollback(ops, bare, o) == PerformRollback(ops, s, o).(cache := bare.cache)
  {
  }

  // An infer call with a clean rollback respects what is resident exactly when it does not
  // get to the lock while a route is resident.
  lemma InferRespectsResidencyIff<T(!new)>(
      cfg: Config<T>, world: World<T>, base: Weights<T>, s: Runtime<T>, c: InferCall<T>)
    requires Inv(cfg, world, base, s) && c.rollback == Restored
    ensures Inv(cfg, world, base, Infer(cfg, s, c).state) <==>
      !(s.active != BASE && Executable(s.registry, c.routeId, cfg.modelHash, c.tenant)
        && ValidatePayload(cfg.ops, s.registry.routes[c.routeId], c.file, cfg.maxBytes).Ok?)
  {
    if !InferRuns.Reaches(cfg, s, c) {
      InferRuns.RefusedCall(cfg, s, c);
      InferRuns.InferRegistry(cfg, s, c);
      assert Infer(cfg, s, c).state.registry.routes == s.registry.routes;
    } else {
      LockedInferRestores(cfg, base, s, c);
    }
  }

  // From every phase but worker quarantine, a clean infer call that gets to the lock leaves
  // READY at the base model, and the cache and the active route as they were.
  lemma LockedInferRestores<T(!new)>(cfg: Config<T>, base: Weights<T>, s: Runtime<T>, c: InferCall<T>)
    requires InferRuns.Reaches(cfg, s, c) && c.rollback == Restored
    requires Sound(cfg.ops, base, s.store) && Restorable(base, s.weights, s.store)
        && (s.phase == Ready ==> s.weights == base)
    ensures var e := Infer(cfg, s, c).state;
      && InferRuns.AtBase(cfg.ops, base, e)
      && e == s.(weights := base, phase := Ready, store := e.store, rollbacks := s.rollbacks + 1)
  {
    var s1 := InferRuns.BeforeRollback(cfg, s, c);
    InferRuns.RollbackIsLast(cfg, s, c, Restored);
    assert c.(rollback := Restored) == c;
    BeforeRollbackRestorable(cfg, base, s, c);
    RollbackEnds(cfg.ops, base, s1, Restored);
  }

  lemma BeforeRollbackRestorable<T(!new)>(cfg: Config<T>, base: Weights<T>, s: Runtime<T>, c: InferCall<T>)
    requires InferRuns.Reaches(cfg, s, c)
    requires Sound(cfg.ops, base, s.store) && Restorable(base, s.weights, s.store)
        && (s.phase == Ready ==> s.weights == base)
    ensures var s1 := InferRuns.BeforeRollback(cfg, s, c);
      && Sound(cfg.ops, base, s1.store) && Restorable(base, s1.weights, s1.store)
      && s1 == s.(weights := s1.weights, phase := s1.phase, store := s1.store)
  {
    if s.phase == Ready {
      var m, deltas := s.registry.routes[c.routeId], InferRuns.DeltasFor(cfg, s, c).value;
      SwapInExact(cfg.ops, base, s, m, deltas, c.captureFault, c.applyFault);
    }
  }

  // The failing input: the call raises and restores the base model, but the runtime still
  // names the route as active, so a later ensure_route skips the swap.
  lemma InferWhileResident<T(!new)>(
      cfg: Config<T>, world: World<T>, base: Weights<T>, s: Runtime<T>, c: InferCall<T>, e: EnsureCall<T>)
    requires Inv(cfg, world, base, s) && s.phase == Swapped && c.rollback == Restored
    requires InferRuns.Reaches(cfg, s, c) && e.routeId == s.active
    ensures var out := Infer(cfg, s, c);
      && out.result == Raised && out.state.weights == base && out.state.active == s.active
      && EnsureRoute(cfg, out.state, e) == EnsureOutcome(out.state, Ok(false))
  {
    RollbackEnds(cfg.ops, base, s, Restored);
  }
}
