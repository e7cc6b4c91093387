/** The hot-swap runtime as functions on values: capture, apply, rollback and the
    two drivers `infer` and `ensure_route`. Exceptions raised by code outside the
    runtime are part of a call's input, so a function here says what one call does
    for every place an exception can strike. */
module HotSwapModel {
  import opened Prelude
  import opened Tensors
  import opened RuntimeState
  import opened FailurePolicy
  import opened RouteRegistry
  import opened PayloadValidator

  // ----- State -----

  // The three dictionaries that a capture fills.
  datatype Store<T> = Store(snapshots: map<string, T>, checksums: map<string, string>, names: map<string, string>)

  datatype Runtime<T> = Runtime(
    weights: Weights<T>,
    phase: Phase,
    store: Store<T>,
    cache: map<RouteId, map<string, T>>,
    active: RouteId,
    swaps: nat,
    rollbacks: nat,
    registry: Registry)

  // What does not change over the life of a runtime.
  datatype Config<!T> = Config(ops: ModelOps<T>, modelHash: string, maxBytes: nat)

  function EmptyStore<T>(): Store<T> {
    Store(map[], map[], map[])
  }

  // ----- Where exceptions strike -----

  datatype CaptureFault = NoCaptureFault | CloneRaises(at: nat) | ChecksumRaises(at: nat)

  // A failing in-place add may leave any value behind in the tensor it was working on.
  datatype ApplyFault<T> = NoApplyFault | ReloadRaises | AddRaises(at: nat, left: T)

  // A faulty rollback leaves any value in any of the tensors it restores, and may raise.
  // Computing a checksum to verify it may raise too, whatever was copied.
  datatype RollbackOutcome<T> =
    | Restored
    | Torn(left: map<string, T>, raises: bool)
    | VerifyRaises(left: map<string, T>)

  // ----- Capture -----

  function Target(names: map<string, string>, name: string): string {
    if name in names then names[name] else name
  }

  function CaptureLayer<T>(
      ops: ModelOps<T>, w: Weights<T>, layer: Layer, i: nat, fault: CaptureFault, st: Store<T>): (Store<T>, bool) {
    var target := ops.resolve(layer.name, w.Keys);
    if target.None? || target.value !in w then (st, false)
    else
      var st1 := st.(names := st.names[layer.name := target.value]);
      var live := w[target.value];
      if layer.shape != Some(ops.shape(live)) || layer.dtype != Some(ops.dtype(live)) || fault == CloneRaises(i)
      then (st1, false)
      else
        var st2 := st1.(snapshots := st1.snapshots[layer.name := live]);
        if fault == ChecksumRaises(i) then (st2, false)
        else (st2.(checksums := st2.checksums[layer.name := ops.checksum(live)]), true)
  }

  function CaptureLayers<T>(
      ops: ModelOps<T>, w: Weights<T>, layers: seq<Layer>, i: nat, fault: CaptureFault, st: Store<T>): (Store<T>, bool)
    requires i <= |layers|
    decreases |layers| - i
  {
    if i == |layers| then (st, true)
    else
      var (st', ok) := CaptureLayer(ops, w, layers[i], i, fault, st);
      if ok then CaptureLayers(ops, w, layers, i + 1, fault, st') else (st', false)
  }

  // Snapshots of every layer are at hand: the golden ones are reused.
  predicate Golden<T>(st: Store<T>, layers: seq<Layer>) {
    st.snapshots.Keys != {} && forall i :: 0 <= i < |layers| ==> layers[i].name in st.snapshots
  }

  function CaptureSnapshot<T>(
      ops: ModelOps<T>, w: Weights<T>, st: Store<T>, layers: seq<Layer>, fault: CaptureFault): (Store<T>, bool) {
    if Golden(st, layers) then (st, true)
    else CaptureLayers(ops, w, layers, 0, fault, EmptyStore())
  }

  // ----- Apply -----

  datatype DeltaChoice<T> = Delta(delta: T) | NoDelta | Simulated

  // The manifest name is looked up first, then the resolved name.
  function ChooseDelta<T>(deltas: map<string, T>, m: Manifest, name: string, target: string): DeltaChoice<T> {
    if name in deltas then Delta(deltas[name])
    else if target in deltas then Delta(deltas[target])
    else if m.payload.Some? then NoDelta
    else Simulated
  }

  function Shift<T>(ops: ModelOps<T>, live: T, choice: DeltaChoice<T>): T {
    match choice
    case Delta(d) => ops.add(live, d)
    case NoDelta => live
    case Simulated => ops.addDummy(live)
  }

  function ApplyLayer<T>(
      ops: ModelOps<T>, w: Weights<T>, names: map<string, string>, m: Manifest, deltas: map<string, T>, i: nat,
      fault: ApplyFault<T>): (Weights<T>, bool)
    requires i < |m.layers|
  {
    var name := m.layers[i].name;
    var target := Target(names, name);
    if target !in w then (w, true)
    else
      var choice := ChooseDelta(deltas, m, name, target);
      if choice.NoDelta? then (w, false)
      else if fault.AddRaises? && fault.at == i then (w[target := fault.left], false)
      else (w[target := Shift(ops, w[target], choice)], true)
  }

  function ApplyLayers<T>(
      ops: ModelOps<T>, w: Weights<T>, names: map<string, string>, m: Manifest, deltas: map<string, T>, i: nat,
      fault: ApplyFault<T>): (Weights<T>, bool)
    requires i <= |m.layers|
    decreases |m.layers| - i
  {
    if i == |m.layers| then (w, true)
    else
      var (w', ok) := ApplyLayer(ops, w, names, m, deltas, i, fault);
      if ok then ApplyLayers(ops, w', names, m, deltas, i + 1, fault) else (w', false)
  }

  // With no validated deltas a route with a payload block loads the file again. Validation
  // returns no deltas only when the block has no uri or there are no layers, so a reload
  // that does not raise finds none either.
  function ApplySwap<T>(
      ops: ModelOps<T>, w: Weights<T>, names: map<string, string>, m: Manifest, deltas: map<string, T>,
      fault: ApplyFault<T>): (Weights<T>, bool) {
    if deltas.Keys == {} && m.payload.Some? && fault.ReloadRaises? then (w, false)
    else ApplyLayers(ops, w, names, m, deltas, 0, fault)
  }

  // ----- Rollback -----

  ghost predicate IsTarget<T>(st: Store<T>, k: string) {
    exists n :: n in st.snapshots && Target(st.names, n) == k
  }

  // A snapshot that restores tensor `k`.
  ghost function SnapshotOf<T>(st: Store<T>, k: string): T
    requires IsTarget(st, k)
  {
    var n :| n in st.snapshots && Target(st.names, n) == k;
    st.snapshots[n]
  }

  ghost function RollBack<T>(w: Weights<T>, st: Store<T>, o: RollbackOutcome<T>): Weights<T> {
    map k | k in w ::
      if !IsTarget(st, k) then w[k]
      else if !o.Restored? && k in o.left then o.left[k]
      else SnapshotOf(st, k)
  }

  ghost predicate VerifyRollback<T>(ops: ModelOps<T>, w: Weights<T>, st: Store<T>) {
    forall n :: n in st.checksums ==>
        Target(st.names, n) in w && ops.checksum(w[Target(st.names, n)]) == st.checksums[n]
  }

  // The exception of a checksum computation, if there is any to compute, is not caught.
  predicate Escapes<T>(st: Store<T>, o: RollbackOutcome<T>) {
    o.VerifyRaises? && st.checksums.Keys != {}
  }

  // The phase is forced to RollingBack when the table does not allow it. It stays there
  // when the rollback raises out of its verification.
  ghost function PerformRollback<T>(ops: ModelOps<T>, s: Runtime<T>, o: RollbackOutcome<T>): Runtime<T> {
    var w := RollBack(s.weights, s.store, o);
    if Escapes(s.store, o) then s.(weights := w, phase := RollingBack)
    else if (o.Torn? && o.raises) || !VerifyRollback(ops, w, s.store)
    then s.(weights := w, phase := WorkerQuarantined)
    else s.(weights := w, phase := Ready, rollbacks := s.rollbacks + 1)
  }

  // ----- The locked swap -----

  // READY -> VERIFYING -> SNAPSHOT_CAPTURED -> SWAPPING -> SWAPPED, stopping where something raises.
  ghost function SwapIn<T>(
      ops: ModelOps<T>, s: Runtime<T>, m: Manifest, deltas: map<string, T>, cf: CaptureFault, af: ApplyFault<T>)
      : (Runtime<T>, bool) {
    if !Legal(s.phase, Verifying) then (s, false)
    else
      var (s1, captured) := CaptureIn(ops, s.(phase := Verifying), m, cf);
      if !captured then (s1, false) else ApplyIn(ops, s1, m, deltas, af)
  }

  ghost function CaptureIn<T>(ops: ModelOps<T>, s: Runtime<T>, m: Manifest, cf: CaptureFault): (Runtime<T>, bool) {
    var (st, ok) := CaptureSnapshot(ops, s.weights, s.store, m.layers, cf);
    (s.(store := st), ok)
  }

  ghost function ApplyIn<T>(
      ops: ModelOps<T>, s: Runtime<T>, m: Manifest, deltas: map<string, T>, af: ApplyFault<T>): (Runtime<T>, bool) {
    var (w, ok) := ApplySwap(ops, s.weights, s.store.names, m, deltas, af);
    (s.(phase := if ok then Swapped else Swapping, weights := w), ok)
  }

  // ----- infer -----

  datatype InferCall<T> = InferCall(
    routeId: RouteId, tenant: string, file: PayloadFile<T>,
    captureFault: CaptureFault, applyFault: ApplyFault<T>, inferenceRaises: bool, rollback: RollbackOutcome<T>)

  // Refused before the lock; Raised after it; Returned with an output.
  datatype InferResult = Refused | Raised | Returned

  // The weights the inference function ran on, if it ran.
  datatype InferOutcome<T> = InferOutcome(state: Runtime<T>, result: InferResult, seen: Option<Weights<T>>)

  ghost function ApplyVerdict<T>(s: Runtime<T>, fc: FailureClass, id: RouteId): Runtime<T> {
    var v := EvaluateFailure(fc);
    if v.scope.None? then s
    else if v.target == WorkerQuarantined then s.(phase := WorkerQuarantined)
    else if v.target == RouteQuarantined then
      s.(registry := Apply(s.registry, Quarantine(id)), phase := Attempt(s.phase, RouteQuarantined))
    else s
  }

  ghost function Infer<T>(cfg: Config<T>, s: Runtime<T>, c: InferCall<T>): InferOutcome<T> {
    if s.phase == WorkerQuarantined || !Executable(s.registry, c.routeId, cfg.modelHash, c.tenant)
    then InferOutcome(s, Refused, None)
    else
      var m := s.registry.routes[c.routeId];
      var validated := ValidatePayload(cfg.ops, m, c.file, cfg.maxBytes);
      if validated.Err? then InferOutcome(ApplyVerdict(s, validated.error, c.routeId), Refused, None)
      else SwapForwardRollback(cfg, s, m, validated.value, c)
  }

  // The locked section of infer and the check after it.
  ghost function SwapForwardRollback<T>(
      cfg: Config<T>, s: Runtime<T>, m: Manifest, deltas: map<string, T>, c: InferCall<T>): InferOutcome<T> {
    var (s1, swapped) := SwapIn(cfg.ops, s, m, deltas, c.captureFault, c.applyFault);
    if !swapped then InferOutcome(PerformRollback(cfg.ops, s1, c.rollback), Raised, None)
    else
      var s2 := PerformRollback(cfg.ops, s1.(phase := Forwarding), c.rollback);
      var raised := c.inferenceRaises || s2.phase == WorkerQuarantined || Escapes(s1.store, c.rollback);
      InferOutcome(s2, if raised then Raised else Returned, Some(s1.weights))
  }

  // ----- ensure_route and clear_active_route -----

  // `evict` is the rollback of the resident route, `undo` the rollback of a failed swap.
  datatype EnsureCall<T> = EnsureCall(
    routeId: RouteId, tenant: string, file: PayloadFile<T>,
    captureFault: CaptureFault, applyFault: ApplyFault<T>, evict: RollbackOutcome<T>, undo: RollbackOutcome<T>)

  // Ok(true) when a swap or rollback happened, Ok(false) when the route was resident, Err when it raises.
  datatype EnsureOutcome<T> = EnsureOutcome(state: Runtime<T>, result: Result<bool, ()>)

  // A rollback that raises leaves the active route named.
  ghost function RollBackActive<T>(ops: ModelOps<T>, s: Runtime<T>, o: RollbackOutcome<T>): Runtime<T> {
    PerformRollback(ops, s, o).(active := if Escapes(s.store, o) then s.active else BASE)
  }

  ghost function Evict<T>(ops: ModelOps<T>, s: Runtime<T>, o: RollbackOutcome<T>): Runtime<T> {
    if s.active == BASE then s else RollBackActive(ops, s, o)
  }

  predicate EvictionRaises<T>(s: Runtime<T>, o: RollbackOutcome<T>) {
    s.active != BASE && Escapes(s.store, o)
  }

  ghost function EnsureRoute<T>(cfg: Config<T>, s: Runtime<T>, c: EnsureCall<T>): EnsureOutcome<T> {
    if s.phase == WorkerQuarantined then EnsureOutcome(s, Err(()))
    else if s.active == c.routeId then EnsureOutcome(s, Ok(false))
    else
      var s0 := Evict(cfg.ops, s, c.evict);
      if EvictionRaises(s, c.evict) then EnsureOutcome(s0, Err(()))
      else if c.routeId == BASE then EnsureOutcome(s0, Ok(true))
      else SwapTo(cfg, s0, c)
  }

  // Verification, deltas and swap, once the old route is gone.
  ghost function SwapTo<T>(cfg: Config<T>, s: Runtime<T>, c: EnsureCall<T>): EnsureOutcome<T> {
    if !Executable(s.registry, c.routeId, cfg.modelHash, c.tenant) then EnsureOutcome(s, Err(()))
    else
      var m := s.registry.routes[c.routeId];
      var validated := if c.routeId in s.cache then Ok(s.cache[c.routeId])
                       else ValidatePayload(cfg.ops, m, c.file, cfg.maxBytes);
      if validated.Err? then EnsureOutcome(s, Err(()))
      else SwapOrUndo(cfg, s.(cache := s.cache[c.routeId := validated.value]), m, validated.value, c)
  }

  ghost function SwapOrUndo<T>(
      cfg: Config<T>, s: Runtime<T>, m: Manifest, deltas: map<string, T>, c: EnsureCall<T>): EnsureOutcome<T> {
    var (s', swapped) := SwapIn(cfg.ops, s, m, deltas, c.captureFault, c.applyFault);
    if swapped then EnsureOutcome(s'.(active := c.routeId, swaps := s'.swaps + 1), Ok(true))
    else EnsureOutcome(RollBackActive(cfg.ops, s', c.undo), Err(()))
  }

  // Ok(true) when a rollback was performed, Err when it raises.
  ghost function ClearActiveRoute<T>(
      cfg: Config<T>, s: Runtime<T>, o: RollbackOutcome<T>): (Runtime<T>, Result<bool, ()>) {
    (Evict(cfg.ops, s, o), if EvictionRaises(s, o) then Err(()) else Ok(s.active != BASE))
  }
}
