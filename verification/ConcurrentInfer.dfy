/** `infer` called from many threads at once. A step is one thread doing one thing to
    the shared state: a phase transition, a registry update, or a piece of work that
    only the lock holder can see. Threads interleave freely, registry calls arrive at
    any time, and exceptions strike where they like. */
module ConcurrentInfer {
  import opened Prelude
  import opened Tensors
  import opened RuntimeState
  import opened FailurePolicy
  import opened RouteRegistry
  import opened PayloadValidator
  import opened HotSwapModel
  import opened RouteWeights
  import opened InferRuns

  type Tid = nat

  // Where a thread is in `infer`: named after what it does next.
  datatype Pc =
    | CheckWorker | LookUp | ValidateFile | WithdrawRoute | MarkPhase
    | Acquire
    | EnterVerifying | Capture | EnterCaptured | EnterSwapping | ApplyDeltas | EnterSwapped | EnterForwarding | Forward
    | TryRollingBack | ForceRollingBack | CopyBack | Verify | EnterReady | Release
    | FinalCheck | Done(result: InferResult)

  datatype Thread<T> = Thread(pc: Pc, routeId: RouteId, tenant: string,
    manifest: Manifest, file: Option<PayloadFile<T>>, deltas: map<string, T>, raised: bool)

  // One execution of an inference function: whose, and on which weights.
  datatype Pass<T> = Pass(th: Thread<T>, weights: Weights<T>)

  datatype System<T> = System(rt: Runtime<T>, lock: Option<Tid>, threads: map<Tid, Thread<T>>, passes: seq<Pass<T>>)

  // What the outside world contributes to a step.
  datatype Input<T> = Input(file: PayloadFile<T>, captureFault: CaptureFault, applyFault: ApplyFault<T>,
      inferenceRaises: bool, rollback: RollbackOutcome<T>)

  datatype Event<T> =
    | Spawn(tid: Tid, routeId: RouteId, tenant: string)
    | Advance(tid: Tid, input: Input<T>)
    | Admin(op: RegistryOp)

  const NO_MANIFEST := Manifest([], None, "", None)

  ghost predicate Critical(pc: Pc) {
    !pc.CheckWorker? && !pc.LookUp? && !pc.ValidateFile? && !pc.WithdrawRoute? && !pc.MarkPhase?
    && !pc.Acquire? && !pc.FinalCheck? && !pc.Done?
  }

  // ----- Steps -----

  // One step of one thread: the shared runtime and the thread after it, and the
  // inference pass it made, if it made one.
  datatype Moved<T> = Moved(rt: Runtime<T>, th: Thread<T>, pass: Option<Pass<T>>)

  ghost function Goto<T>(rt: Runtime<T>, th: Thread<T>, pc: Pc): Moved<T> {
    Moved(rt, th.(pc := pc), None)
  }

  // An exception in the locked section goes to the rollback.
  ghost function Fail<T>(rt: Runtime<T>, th: Thread<T>): Moved<T> {
    Moved(rt, th.(pc := TryRollingBack, raised := true), None)
  }

  // A transition of the lock holder, which raises when the table does not allow it.
  ghost function Enter<T>(rt: Runtime<T>, th: Thread<T>, target: Phase, next: Pc): Moved<T> {
    if Legal(rt.phase, target) then Goto(rt.(phase := target), th, next) else Fail(rt, th)
  }

  // Outside the lock: guard, route lookup, payload validation, verdict, final check.
  ghost function Outside<T>(cfg: Config<T>, rt: Runtime<T>, th: Thread<T>, inp: Input<T>): Moved<T> {
    match th.pc
    case CheckWorker => Goto(rt, th, if rt.phase == WorkerQuarantined then Done(Refused) else LookUp)
    case LookUp =>
      if Executable(rt.registry, th.routeId, cfg.modelHash, th.tenant)
      then Goto(rt, th.(manifest := rt.registry.routes[th.routeId]), ValidateFile)
      else Goto(rt, th, Done(Refused))
    case ValidateFile =>
      var validated := ValidatePayload(cfg.ops, th.manifest, inp.file, cfg.maxBytes);
      if validated.Ok? then Goto(rt, th.(file := Some(inp.file), deltas := validated.value), Acquire)
      else Goto(rt, th, if RouteScoped(validated.error) then WithdrawRoute else Done(Refused))
    case WithdrawRoute => Goto(rt.(registry := Apply(rt.registry, Quarantine(th.routeId))), th, MarkPhase)
    case MarkPhase => Goto(rt.(phase := Attempt(rt.phase, RouteQuarantined)), th, Done(Refused))
    case FinalCheck => Goto(rt, th, Done(if th.raised || rt.phase == WorkerQuarantined then Raised else Returned))
    case _ => Goto(rt, th, th.pc)
  }

  // Where the holder's next transition leads, and what it does after it.
  function Destination(pc: Pc): Phase {
    match pc
    case EnterVerifying => Verifying
    case EnterCaptured => SnapshotCaptured
    case EnterSwapping => Swapping
    case EnterSwapped => Swapped
    case _ => Forwarding
  }

  function After(pc: Pc): Pc {
    match pc
    case EnterVerifying => Capture
    case EnterCaptured => EnterSwapping
    case EnterSwapping => ApplyDeltas
    case EnterSwapped => EnterForwarding
    case _ => Forward
  }

  // Inside the lock, up to and including the inference function.
  ghost function SwapAndForward<T>(cfg: Config<T>, rt: Runtime<T>, th: Thread<T>, inp: Input<T>): Moved<T> {
    match th.pc
    case Capture =>
      var (st, ok) := CaptureSnapshot(cfg.ops, rt.weights, rt.store, th.manifest.layers, inp.captureFault);
      if ok then Goto(rt.(store := st), th, EnterCaptured) else Fail(rt.(store := st), th)
    case ApplyDeltas =>
      var (w, ok) := ApplySwap(cfg.ops, rt.weights, rt.store.names, th.manifest, th.deltas, inp.applyFault);
      if ok then Goto(rt.(weights := w), th, EnterSwapped) else Fail(rt.(weights := w), th)
    case Forward =>
      var next := if inp.inferenceRaises then Fail(rt, th) else Goto(rt, th, TryRollingBack);
      next.(pass := Some(Pass(th, rt.weights)))
    case _ => Enter(rt, th, Destination(th.pc), After(th.pc))
  }

  // Inside the lock, the rollback.
  ghost function UndoSwap<T>(cfg: Config<T>, rt: Runtime<T>, th: Thread<T>, inp: Input<T>): Moved<T> {
    match th.pc
    case TryRollingBack =>
      if Legal(rt.phase, RollingBack) then Goto(rt.(phase := RollingBack), th, CopyBack)
      else Goto(rt, th, ForceRollingBack)
    case ForceRollingBack => Goto(rt.(phase := RollingBack), th, CopyBack)
    case CopyBack =>
      var copied := rt.(weights := RollBack(rt.weights, rt.store, inp.rollback));
      if inp.rollback.Torn? && inp.rollback.raises then Goto(copied.(phase := WorkerQuarantined), th, Release)
      else Goto(copied, th, Verify)
    case Verify =>
      if Escapes(rt.store, inp.rollback) then Moved(rt, th.(pc := Release, raised := true), None)
      else if VerifyRollback(cfg.ops, rt.weights, rt.store)
      then Goto(rt.(rollbacks := rt.rollbacks + 1), th, EnterReady)
      else Goto(rt.(phase := WorkerQuarantined), th, Release)
    case EnterReady => Goto(rt.(phase := Ready), th, Release)
    case _ => Goto(rt, th, th.pc)
  }

  ghost predicate Undoing(pc: Pc) {
    pc.TryRollingBack? || pc.ForceRollingBack? || pc.CopyBack? || pc.Verify? || pc.EnterReady?
  }

  ghost function Move<T>(cfg: Config<T>, rt: Runtime<T>, th: Thread<T>, inp: Input<T>): Moved<T> {
    if !Critical(th.pc) then Outside(cfg, rt, th, inp)
    else if Undoing(th.pc) then UndoSwap(cfg, rt, th, inp)
    else SwapAndForward(cfg, rt, th, inp)
  }

  // A step that is not possible leaves the system as it is.
  ghost function Step<T>(cfg: Config<T>, sys: System<T>, e: Event<T>): System<T> {
    match e
    case Spawn(tid, id, tenant) =>
      if tid in sys.threads then sys
      else sys.(threads := sys.threads[tid := Thread(CheckWorker, id, tenant, NO_MANIFEST, None, map[], false)])
    case Admin(op) => sys.(rt := sys.rt.(registry := Apply(sys.rt.registry, op)))
    case Advance(tid, inp) =>
      if tid !in sys.threads then sys else StepThread(cfg, sys, tid, inp)
  }

  ghost function StepThread<T>(cfg: Config<T>, sys: System<T>, tid: Tid, inp: Input<T>): System<T>
    requires tid in sys.threads
  {
    var th := sys.threads[tid];
    if th.pc == Acquire then
      if sys.lock.Some? then sys
      else sys.(lock := Some(tid), threads := sys.threads[tid := th.(pc := EnterVerifying)])
    else if th.pc == Release then
      sys.(lock := None, threads := sys.threads[tid := th.(pc := FinalCheck)])
    else
      var moved := Move(cfg, sys.rt, th, inp);
      sys.(rt := moved.rt, threads := sys.threads[tid := moved.th],
           passes := sys.passes + if moved.pass.Some? then [moved.pass.value] else [])
  }

  ghost function Run<T>(cfg: Config<T>, sys: System<T>, run: seq<Event<T>>): System<T>
    decreases |run|
  {
    if run == [] then sys else Run(cfg, Step(cfg, sys, run[0]), run[1..])
  }

  // ----- The invariant -----

  // What is assumed of a step. Either every rollback copies every snapshot, or rollbacks may
  // do anything but every snapshot is `checked`: no checksum raises in a capture.
  ghost predicate Allowed<T>(e: Event<T>, checked: bool) {
    e.Advance? ==> if checked then !e.input.captureFault.ChecksumRaises? else e.input.rollback == Restored
  }

  // What is assumed of the runtime that steps are taken on.
  ghost predicate Checkable<T(!new)>(ops: ModelOps<T>, checked: bool) {
    checked ==> Collisionless(ops)
  }

  // The phases the holder may find: its own, or ROUTE_QUARANTINED pushed by another thread.
  ghost predicate PhaseAt(p: Phase, own: Phase) {
    p == own || p == RouteQuarantined
  }

  // The runtime while the lock is free: READY at the base model, or, after a rollback fault,
  // quarantined or stuck with damage that the snapshots can undo.
  ghost predicate Free<T>(ops: ModelOps<T>, base: Weights<T>, rt: Runtime<T>, checked: bool) {
    && Sound(ops, base, rt.store) && Restorable(base, rt.weights, rt.store) && (checked ==> Covered(rt.store))
    && (rt.phase == Ready ==> rt.weights == base)
    && (rt.phase == Ready || (checked && rt.phase in {WorkerQuarantined, RollingBack, RouteQuarantined}))
  }

  ghost predicate Holding<T>(ops: ModelOps<T>, base: Weights<T>, rt: Runtime<T>, th: Thread<T>, checked: bool) {
    && Sound(ops, base, rt.store) && Restorable(base, rt.weights, rt.store) && (checked ==> Covered(rt.store))
    && match th.pc
       case EnterVerifying => Free(ops, base, rt, checked)
       case Capture => PhaseAt(rt.phase, Verifying) && rt.weights == base
       case EnterCaptured =>
         PhaseAt(rt.phase, Verifying) && rt.weights == base && HasLayers(rt.store, th.manifest.layers)
       case EnterSwapping =>
         PhaseAt(rt.phase, SnapshotCaptured) && rt.weights == base && HasLayers(rt.store, th.manifest.layers)
       case ApplyDeltas =>
         PhaseAt(rt.phase, Swapping) && rt.weights == base && HasLayers(rt.store, th.manifest.layers)
       case EnterSwapped =>
         PhaseAt(rt.phase, Swapping) && rt.weights == BasePlus(ops, base, th.manifest, th.deltas)
       case EnterForwarding => rt.phase == Swapped && rt.weights == BasePlus(ops, base, th.manifest, th.deltas)
       case Forward => rt.phase == Forwarding && rt.weights == BasePlus(ops, base, th.manifest, th.deltas)
       case TryRollingBack => rt.phase != Ready && (checked || rt.phase != WorkerQuarantined)
       case ForceRollingBack => rt.phase != Ready && (checked || rt.phase != WorkerQuarantined)
       case CopyBack => PhaseAt(rt.phase, RollingBack)
       case Verify => PhaseAt(rt.phase, RollingBack) && (checked || rt.weights == base)
       case EnterReady => PhaseAt(rt.phase, RollingBack) && rt.weights == base
       case Release => Free(ops, base, rt, checked)
       case _ => false
  }

  // Exactly the lock holder is in the locked section.
  ghost predicate Exclusive<T>(sys: System<T>) {
    && (sys.lock.Some? ==> sys.lock.value in sys.threads)
    && forall t :: t in sys.threads ==> (Critical(sys.threads[t].pc) <==> sys.lock == Some(t))
  }

  // One of the registries `was` gives the thread's own route, to its tenant, with its manifest.
  ghost predicate FromRegistry<T>(cfg: Config<T>, was: iset<Registry>, th: Thread<T>) {
    exists g :: g in was && Executable(g, th.routeId, cfg.modelHash, th.tenant) && g.routes[th.routeId] == th.manifest
  }

  ghost predicate FromFile<T>(cfg: Config<T>, th: Thread<T>) {
    th.file.Some? && ValidatePayload(cfg.ops, th.manifest, th.file.value, cfg.maxBytes) == Ok(th.deltas)
  }

  // From its lookup on, the thread's manifest is that of its route in some registry; from
  // validation on, its deltas are those of that manifest and its payload file.
  ghost predicate Prepared<T>(cfg: Config<T>, was: iset<Registry>, th: Thread<T>) {
    && (Critical(th.pc) || th.pc == Acquire || th.pc == ValidateFile ==> FromRegistry(cfg, was, th))
    && (Critical(th.pc) || th.pc == Acquire ==> FromFile(cfg, th))
  }

  // The pass ran on the base model plus the validated deltas of its own thread's route.
  ghost predicate PassExact<T>(cfg: Config<T>, base: Weights<T>, was: iset<Registry>, pass: Pass<T>) {
    && FromRegistry(cfg, was, pass.th) && FromFile(cfg, pass.th)
    && pass.weights == BasePlus(cfg.ops, base, pass.th.manifest, pass.th.deltas)
  }

  // The manifest of the pass is for this model, and open to the tenant of its own thread.
  ghost predicate PassesOpen<T>(cfg: Config<T>, passes: seq<Pass<T>>) {
    forall i :: 0 <= i < |passes| ==> OpenTo(passes[i].th.manifest, cfg.modelHash, passes[i].th.tenant)
  }

  lemma ExactIsOpen<T>(cfg: Config<T>, base: Weights<T>, was: iset<Registry>, passes: seq<Pass<T>>)
    requires PassesExact(cfg, base, was, passes)
    ensures PassesOpen(cfg, passes)
  {
    forall i | 0 <= i < |passes|
      ensures OpenTo(passes[i].th.manifest, cfg.modelHash, passes[i].th.tenant)
    {
      var th := passes[i].th;
      assert PassExact(cfg, base, was, passes[i]);
      var g :| g in was && Executable(g, th.routeId, cfg.modelHash, th.tenant) && g.routes[th.routeId] == th.manifest;
      ExecutableMeans(g, th.routeId, cfg.modelHash, th.tenant);
    }
  }

  ghost predicate PassesExact<T>(cfg: Config<T>, base: Weights<T>, was: iset<Registry>, passes: seq<Pass<T>>) {
    forall i :: 0 <= i < |passes| ==> PassExact(cfg, base, was, passes[i])
  }

  ghost predicate Inv<T>(cfg: Config<T>, base: Weights<T>, was: iset<Registry>, checked: bool, sys: System<T>) {
    && Exclusive(sys)
    && sys.rt.registry in was
    && (forall t :: t in sys.threads ==> Prepared(cfg, was, sys.threads[t]))
    && PassesExact(cfg, base, was, sys.passes)
    && (sys.lock == None ==> Free(cfg.ops, base, sys.rt, checked))
    && (sys.lock.Some? ==> Holding(cfg.ops, base, sys.rt, sys.threads[sys.lock.value], checked))
  }

  // A thread outside the lock can push the phase only to ROUTE_QUARANTINED, and only
  // where the holder's next transition notices.
  lemma PushTolerated<T>(ops: ModelOps<T>, base: Weights<T>, rt: Runtime<T>, th: Thread<T>, checked: bool)
    requires Holding(ops, base, rt, th, checked)
    ensures Holding(ops, base, rt.(phase := Attempt(rt.phase, RouteQuarantined)), th, checked)
  {
  }

  lemma OutsideIsHarmless<T>(cfg: Config<T>, was: iset<Registry>, rt: Runtime<T>, th: Thread<T>, inp: Input<T>)
    requires !Critical(th.pc) && Prepared(cfg, was, th) && rt.registry in was
    ensures var moved := Outside(cfg, rt, th, inp);
      && !Critical(moved.th.pc) && moved.pass == None && Prepared(cfg, was, moved.th)
      && moved.rt == rt.(registry := moved.rt.registry, phase := moved.rt.phase)
      && moved.rt.phase in {rt.phase, Attempt(rt.phase, RouteQuarantined)}
  {
  }

  ghost predicate Entering(pc: Pc) {
    pc.EnterVerifying? || pc.EnterCaptured? || pc.EnterSwapping? || pc.EnterSwapped? || pc.EnterForwarding?
  }

  // The thread has moved on with the same route.
  ghost predicate SameRoute<T>(th: Thread<T>, th': Thread<T>) {
    th' == th.(pc := th'.pc, raised := th'.raised)
  }

  lemma EnterFails<T>(ops: ModelOps<T>, base: Weights<T>, rt: Runtime<T>, th: Thread<T>, checked: bool)
    requires Holding(ops, base, rt, th, checked) && Entering(th.pc) && !Legal(rt.phase, Destination(th.pc))
    ensures Holding(ops, base, rt, Fail(rt, th).th, checked)
  {
  }

  lemma EnterSucceeds<T>(ops: ModelOps<T>, base: Weights<T>, rt: Runtime<T>, th: Thread<T>, checked: bool)
    requires Holding(ops, base, rt, th, checked) && Entering(th.pc) && Legal(rt.phase, Destination(th.pc))
    ensures Holding(ops, base, rt.(phase := Destination(th.pc)), th.(pc := After(th.pc)), checked)
  {
  }

  lemma EnterKeeps<T>(ops: ModelOps<T>, base: Weights<T>, rt: Runtime<T>, th: Thread<T>, checked: bool)
    requires Holding(ops, base, rt, th, checked) && Entering(th.pc)
    ensures var moved := Enter(rt, th, Destination(th.pc), After(th.pc));
      && Holding(ops, base, moved.rt, moved.th, checked)
      && Critical(moved.th.pc) && SameRoute(th, moved.th) && moved.pass == None && moved.rt.registry == rt.registry
  {
    if Legal(rt.phase, Destination(th.pc)) {
      EnterSucceeds(ops, base, rt, th, checked);
    } else {
      EnterFails(ops, base, rt, th, checked);
    }
  }

  // What a step of the lock holder keeps.
  ghost predicate Moves<T>(
      cfg: Config<T>, base: Weights<T>, was: iset<Registry>, rt: Runtime<T>, th: Thread<T>, moved: Moved<T>,
      checked: bool) {
    && Holding(cfg.ops, base, moved.rt, moved.th, checked) && moved.rt.registry == rt.registry
    && Critical(moved.th.pc) && SameRoute(th, moved.th)
    && (moved.pass.Some? ==> PassExact(cfg, base, was, moved.pass.value))
  }

  lemma CaptureKeeps<T>(
      cfg: Config<T>, base: Weights<T>, was: iset<Registry>, rt: Runtime<T>, th: Thread<T>, inp: Input<T>,
      checked: bool)
    requires Holding(cfg.ops, base, rt, th, checked) && th.pc == Capture
    requires checked ==> !inp.captureFault.ChecksumRaises?
    ensures Moves(cfg, base, was, rt, th, SwapAndForward(cfg, rt, th, inp), checked)
  {
    CaptureSound(cfg.ops, base, rt.store, th.manifest.layers, inp.captureFault);
  }

  lemma ApplyKeeps<T>(
      cfg: Config<T>, base: Weights<T>, was: iset<Registry>, rt: Runtime<T>, th: Thread<T>, inp: Input<T>,
      checked: bool)
    requires Holding(cfg.ops, base, rt, th, checked) && th.pc == ApplyDeltas
    ensures Moves(cfg, base, was, rt, th, SwapAndForward(cfg, rt, th, inp), checked)
  {
    ApplyExact(cfg.ops, base, rt.store, th.manifest, th.deltas, inp.applyFault);
  }

  lemma PassKeeps<T>(
      cfg: Config<T>, base: Weights<T>, was: iset<Registry>, rt: Runtime<T>, th: Thread<T>, inp: Input<T>,
      checked: bool)
    requires Holding(cfg.ops, base, rt, th, checked) && th.pc == Forward && Prepared(cfg, was, th)
    ensures Moves(cfg, base, was, rt, th, SwapAndForward(cfg, rt, th, inp), checked)
  {
  }

  lemma SwapAndForwardKeeps<T>(
      cfg: Config<T>, base: Weights<T>, was: iset<Registry>, rt: Runtime<T>, th: Thread<T>, inp: Input<T>,
      checked: bool)
    requires Holding(cfg.ops, base, rt, th, checked) && Critical(th.pc) && !Undoing(th.pc) && th.pc != Release
    requires Prepared(cfg, was, th) && (checked ==> !inp.captureFault.ChecksumRaises?)
    ensures Moves(cfg, base, was, rt, th, SwapAndForward(cfg, rt, th, inp), checked)
  {
    match th.pc
    case Capture => CaptureKeeps(cfg, base, was, rt, th, inp, checked);
    case ApplyDeltas => ApplyKeeps(cfg, base, was, rt, th, inp, checked);
    case Forward => PassKeeps(cfg, base, was, rt, th, inp, checked);
    case _ => EnterKeeps(cfg.ops, base, rt, th, checked);
  }

  lemma CopyKeeps<T>(cfg: Config<T>, base: Weights<T>, rt: Runtime<T>, th: Thread<T>, inp: Input<T>, checked: bool)
    requires Holding(cfg.ops, base, rt, th, checked) && th.pc == CopyBack && (checked || inp.rollback == Restored)
    ensures var moved := UndoSwap(cfg, rt, th, inp);
      && Holding(cfg.ops, base, moved.rt, moved.th, checked)
      && Critical(moved.th.pc) && SameRoute(th, moved.th) && moved.pass == None && moved.rt.registry == rt.registry
  {
    RollbackRestores(cfg.ops, base, rt.weights, rt.store);
  }

  // What a verification that computes its checksums finds at the base model, or nowhere else.
  lemma VerifiedHolds<T(!new)>(cfg: Config<T>, base: Weights<T>, rt: Runtime<T>, th: Thread<T>, checked: bool)
    requires Holding(cfg.ops, base, rt, th, checked) && th.pc == Verify && Checkable(cfg.ops, checked)
    ensures VerifyRollback(cfg.ops, rt.weights, rt.store) ==> rt.weights == base
    ensures !checked ==> VerifyRollback(cfg.ops, rt.weights, rt.store)
  {
    if checked && VerifyRollback(cfg.ops, rt.weights, rt.store) {
      CoveredTargets(rt.store);
      VerifiedMeansBase(cfg.ops, base, rt.weights, rt.store);
    } else if !checked {
      RollbackRestores(cfg.ops, base, rt.weights, rt.store);
    }
  }

  lemma VerifyRaisesKeeps<T>(
      cfg: Config<T>, base: Weights<T>, rt: Runtime<T>, th: Thread<T>, inp: Input<T>, checked: bool)
    requires Holding(cfg.ops, base, rt, th, checked) && th.pc == Verify && checked
    requires Escapes(rt.store, inp.rollback)
    ensures UndoSwap(cfg, rt, th, inp) == Moved(rt, th.(pc := Release, raised := true), None)
    ensures Holding(cfg.ops, base, rt, th.(pc := Release, raised := true), checked)
  {
  }

  lemma VerifyPassesKeeps<T>(
      cfg: Config<T>, base: Weights<T>, rt: Runtime<T>, th: Thread<T>, inp: Input<T>, checked: bool)
    requires Holding(cfg.ops, base, rt, th, checked) && th.pc == Verify && rt.weights == base
    requires !Escapes(rt.store, inp.rollback) && VerifyRollback(cfg.ops, rt.weights, rt.store)
    ensures UndoSwap(cfg, rt, th, inp) == Moved(rt.(rollbacks := rt.rollbacks + 1), th.(pc := EnterReady), None)
    ensures Holding(cfg.ops, base, rt.(rollbacks := rt.rollbacks + 1), th.(pc := EnterReady), checked)
  {
  }

  lemma VerifyFailsKeeps<T>(
      cfg: Config<T>, base: Weights<T>, rt: Runtime<T>, th: Thread<T>, inp: Input<T>, checked: bool)
    requires Holding(cfg.ops, base, rt, th, checked) && th.pc == Verify && checked
    requires !Escapes(rt.store, inp.rollback) && !VerifyRollback(cfg.ops, rt.weights, rt.store)
    ensures UndoSwap(cfg, rt, th, inp) == Moved(rt.(phase := WorkerQuarantined), th.(pc := Release), None)
    ensures Holding(cfg.ops, base, rt.(phase := WorkerQuarantined), th.(pc := Release), checked)
  {
  }

  lemma VerifyKeeps<T(!new)>(
      cfg: Config<T>, base: Weights<T>, rt: Runtime<T>, th: Thread<T>, inp: Input<T>, checked: bool)
    requires Holding(cfg.ops, base, rt, th, checked) && th.pc == Verify && (checked || inp.rollback == Restored)
    requires Checkable(cfg.ops, checked)
    ensures var moved := UndoSwap(cfg, rt, th, inp);
      && Holding(cfg.ops, base, moved.rt, moved.th, checked)
      && Critical(moved.th.pc) && SameRoute(th, moved.th) && moved.pass == None && moved.rt.registry == rt.registry
  {
    VerifiedHolds(cfg, base, rt, th, checked);
    if Escapes(rt.store, inp.rollback) {
      VerifyRaisesKeeps(cfg, base, rt, th, inp, checked);
    } else if VerifyRollback(cfg.ops, rt.weights, rt.store) {
      VerifyPassesKeeps(cfg, base, rt, th, inp, checked);
    } else {
      VerifyFailsKeeps(cfg, base, rt, th, inp, checked);
    }
  }

  lemma UndoSwapKeeps<T(!new)>(
      cfg: Config<T>, base: Weights<T>, rt: Runtime<T>, th: Thread<T>, inp: Input<T>, checked: bool)
    requires Holding(cfg.ops, base, rt, th, checked) && Undoing(th.pc) && (checked || inp.rollback == Restored)
    requires Checkable(cfg.ops, checked)
    ensures var moved := UndoSwap(cfg, rt, th, inp);
      && Holding(cfg.ops, base, moved.rt, moved.th, checked)
      && Critical(moved.th.pc) && SameRoute(th, moved.th) && moved.pass == None && moved.rt.registry == rt.registry
  {
    match th.pc
    case CopyBack => CopyKeeps(cfg, base, rt, th, inp, checked);
    case Verify => VerifyKeeps(cfg, base, rt, th, inp, checked);
    case _ =>
  }

  // The system after a step of a thread that is outside the lock before and after it.
  lemma OutsideInv<T>(
      cfg: Config<T>, base: Weights<T>, was: iset<Registry>, checked: bool, sys: System<T>, tid: Tid, rt: Runtime<T>,
      th: Thread<T>)
    requires Inv(cfg, base, was, checked, sys) && tid in sys.threads && !Critical(sys.threads[tid].pc)
    requires !Critical(th.pc) && Prepared(cfg, was, th) && rt.registry in was
    requires sys.lock == None ==> Free(cfg.ops, base, rt, checked)
    requires sys.lock.Some? ==> Holding(cfg.ops, base, rt, sys.threads[sys.lock.value], checked)
    ensures Inv(cfg, base, was, checked, sys.(rt := rt, threads := sys.threads[tid := th]))
  {
  }

  // A thread outside the lock makes a step of its own.
  lemma OutsideKeeps<T>(
      cfg: Config<T>, base: Weights<T>, was: iset<Registry>, checked: bool, sys: System<T>, tid: Tid, inp: Input<T>)
    requires Inv(cfg, base, was, checked, sys) && tid in sys.threads
    requires !Critical(sys.threads[tid].pc) && sys.threads[tid].pc != Acquire
    requires Outside(cfg, sys.rt, sys.threads[tid], inp).rt.registry in was
    ensures Inv(cfg, base, was, checked, StepThread(cfg, sys, tid, inp))
  {
    var moved := Outside(cfg, sys.rt, sys.threads[tid], inp);
    OutsideIsHarmless(cfg, was, sys.rt, sys.threads[tid], inp);
    if sys.lock.Some? {
      HolderUndisturbed(cfg.ops, base, sys.rt, moved.rt, sys.threads[sys.lock.value], checked);
    }
    OutsideInv(cfg, base, was, checked, sys, tid, moved.rt, moved.th);
    OutsideStepIs(cfg, sys, tid, inp);
  }

  lemma OutsideStepIs<T>(cfg: Config<T>, sys: System<T>, tid: Tid, inp: Input<T>)
    requires tid in sys.threads && !Critical(sys.threads[tid].pc) && sys.threads[tid].pc != Acquire
    ensures var moved := Outside(cfg, sys.rt, sys.threads[tid], inp);
      StepThread(cfg, sys, tid, inp) == sys.(rt := moved.rt, threads := sys.threads[tid := moved.th])
  {
    assert sys.passes + [] == sys.passes;
  }

  lemma HolderUndisturbed<T>(
      ops: ModelOps<T>, base: Weights<T>, rt: Runtime<T>, rt': Runtime<T>, th: Thread<T>, checked: bool)
    requires Holding(ops, base, rt, th, checked) && rt' == rt.(registry := rt'.registry, phase := rt'.phase)
    requires rt'.phase in {rt.phase, Attempt(rt.phase, RouteQuarantined)}
    ensures Holding(ops, base, rt', th, checked)
  {
    PushTolerated(ops, base, rt, th, checked);
    RegistryIsFree(ops, base, rt, rt', th, checked);
  }

  // The holder does not look at the registry.
  lemma RegistryIsFree<T>(
      ops: ModelOps<T>, base: Weights<T>, rt: Runtime<T>, rt': Runtime<T>, th: Thread<T>, checked: bool)
    requires Holding(ops, base, rt.(phase := rt'.phase), th, checked)
        && rt' == rt.(registry := rt'.registry, phase := rt'.phase)
    ensures Holding(ops, base, rt', th, checked)
  {
  }

  lemma SameRoutePrepared<T>(cfg: Config<T>, was: iset<Registry>, th: Thread<T>, th': Thread<T>)
    requires Prepared(cfg, was, th) && Critical(th.pc) && SameRoute(th, th')
    ensures Prepared(cfg, was, th')
  {
    var g :| g in was && Executable(g, th.routeId, cfg.modelHash, th.tenant) && g.routes[th.routeId] == th.manifest;
    assert g in was && Executable(g, th'.routeId, cfg.modelHash, th'.tenant) && g.routes[th'.routeId] == th'.manifest;
  }

  // The lock holder makes a step of its own.
  lemma HolderKeeps<T(!new)>(
      cfg: Config<T>, base: Weights<T>, was: iset<Registry>, checked: bool, sys: System<T>, tid: Tid, inp: Input<T>)
    requires Inv(cfg, base, was, checked, sys) && Allowed(Advance(tid, inp), checked) && Checkable(cfg.ops, checked)
    requires tid in sys.threads && Critical(sys.threads[tid].pc) && sys.threads[tid].pc != Release
    ensures Inv(cfg, base, was, checked, StepThread(cfg, sys, tid, inp))
  {
    var th := sys.threads[tid];
    if Undoing(th.pc) {
      UndoSwapKeeps(cfg, base, sys.rt, th, inp, checked);
    } else {
      SwapAndForwardKeeps(cfg, base, was, sys.rt, th, inp, checked);
    }
    SameRoutePrepared(cfg, was, th, Move(cfg, sys.rt, th, inp).th);
  }

  lemma StepThreadKeeps<T(!new)>(
      cfg: Config<T>, base: Weights<T>, was: iset<Registry>, checked: bool, sys: System<T>, tid: Tid, inp: Input<T>)
    requires Inv(cfg, base, was, checked, sys) && Allowed(Advance(tid, inp), checked) && Checkable(cfg.ops, checked)
    requires tid in sys.threads && StepThread(cfg, sys, tid, inp).rt.registry in was
    ensures Inv(cfg, base, was, checked, StepThread(cfg, sys, tid, inp))
  {
    var th := sys.threads[tid];
    if th.pc == Acquire {
      AcquireKeeps(cfg, base, was, checked, sys, tid, inp);
    } else if th.pc == Release {
      ReleaseKeeps(cfg, base, was, checked, sys, tid, inp);
    } else if Critical(th.pc) {
      HolderKeeps(cfg, base, was, checked, sys, tid, inp);
    } else {
      OutsideKeeps(cfg, base, was, checked, sys, tid, inp);
    }
  }

  lemma AcquireKeeps<T>(
      cfg: Config<T>, base: Weights<T>, was: iset<Registry>, checked: bool, sys: System<T>, tid: Tid, inp: Input<T>)
    requires Inv(cfg, base, was, checked, sys) && tid in sys.threads && sys.threads[tid].pc == Acquire
    ensures Inv(cfg, base, was, checked, StepThread(cfg, sys, tid, inp))
  {
    AcquiredPrepared(cfg, was, sys.threads[tid]);
  }

  lemma ReleaseKeeps<T>(
      cfg: Config<T>, base: Weights<T>, was: iset<Registry>, checked: bool, sys: System<T>, tid: Tid, inp: Input<T>)
    requires Inv(cfg, base, was, checked, sys) && tid in sys.threads && sys.threads[tid].pc == Release
    ensures Inv(cfg, base, was, checked, StepThread(cfg, sys, tid, inp))
  {
  }

  lemma AcquiredPrepared<T>(cfg: Config<T>, was: iset<Registry>, th: Thread<T>)
    requires Prepared(cfg, was, th) && th.pc == Acquire
    ensures Prepared(cfg, was, th.(pc := EnterVerifying))
  {
    var g :| g in was && Executable(g, th.routeId, cfg.modelHash, th.tenant) && g.routes[th.routeId] == th.manifest;
    assert g.routes[th.(pc := EnterVerifying).routeId] == th.(pc := EnterVerifying).manifest;
  }

  lemma SpawnKeeps<T>(
      cfg: Config<T>, base: Weights<T>, was: iset<Registry>, checked: bool, sys: System<T>, tid: Tid, id: RouteId,
      tenant: string)
    requires Inv(cfg, base, was, checked, sys)
    ensures Inv(cfg, base, was, checked, Step(cfg, sys, Spawn(tid, id, tenant)))
  {
  }

  lemma AdminKeeps<T>(
      cfg: Config<T>, base: Weights<T>, was: iset<Registry>, checked: bool, sys: System<T>, op: RegistryOp)
    requires Inv(cfg, base, was, checked, sys) && Apply(sys.rt.registry, op) in was
    ensures Inv(cfg, base, was, checked, Step(cfg, sys, Event<T>.Admin(op)))
  {
    if sys.lock.Some? {
      var rt := sys.rt.(registry := Apply(sys.rt.registry, op));
      RegistryIsFree(cfg.ops, base, sys.rt, rt, sys.threads[sys.lock.value], checked);
    }
  }

  lemma StepKeeps<T(!new)>(
      cfg: Config<T>, base: Weights<T>, was: iset<Registry>, checked: bool, sys: System<T>, e: Event<T>)
    requires Inv(cfg, base, was, checked, sys) && Allowed(e, checked) && Checkable(cfg.ops, checked)
    requires Step(cfg, sys, e).rt.registry in was
    ensures Inv(cfg, base, was, checked, Step(cfg, sys, e))
  {
    match e
    case Spawn(tid, id, tenant) => SpawnKeeps(cfg, base, was, checked, sys, tid, id, tenant);
    case Admin(op) => AdminKeeps(cfg, base, was, checked, sys, op);
    case Advance(tid, inp) =>
      if tid in sys.threads {
        StepThreadKeeps(cfg, base, was, checked, sys, tid, inp);
      }
  }

  // ----- Every interleaving -----

  // Every registry there is in the course of the run.
  ghost function Registries<T(!new)>(cfg: Config<T>, sys: System<T>, run: seq<Event<T>>): iset<Registry> {
    iset i | 0 <= i <= |run| :: Run(cfg, sys, run[..i]).rt.registry
  }

  lemma {:induction false} RunKeeps<T(!new)>(
      cfg: Config<T>, base: Weights<T>, was: iset<Registry>, checked: bool, sys: System<T>, run: seq<Event<T>>)
    requires Inv(cfg, base, was, checked, sys) && Checkable(cfg.ops, checked)
    requires forall i :: 0 <= i < |run| ==> Allowed(run[i], checked)
    requires Registries(cfg, sys, run) <= was
    ensures Inv(cfg, base, was, checked, Run(cfg, sys, run))
    decreases |run|
  {
    if run != [] {
      assert run[0] in run;
      var sys' := Step(cfg, sys, run[0]);
      RegistriesStep(cfg, sys, run);
      StepKeeps(cfg, base, was, checked, sys, run[0]);
      RunKeeps(cfg, base, was, checked, sys', run[1..]);
    }
  }

  lemma RegistriesStep<T(!new)>(cfg: Config<T>, sys: System<T>, run: seq<Event<T>>)
    requires run != []
    ensures var sys' := Step(cfg, sys, run[0]);
      && sys'.rt.registry in Registries(cfg, sys, run)
      && Registries(cfg, sys', run[1..]) <= Registries(cfg, sys, run)
  {
    var sys' := Step(cfg, sys, run[0]);
    forall i | 0 <= i <= |run| - 1 ensures Run(cfg, sys', run[1..][..i]) == Run(cfg, sys, run[..i + 1]) {
      assert run[..i + 1][1..] == run[1..][..i];
    }
    assert run[1..][..0] == [];
  }

  // A runtime that no thread is using yet.
  ghost function Idle<T>(rt: Runtime<T>): System<T> {
    System(rt, None, map[], [])
  }

  lemma IdleKeeps<T(!new)>(cfg: Config<T>, base: Weights<T>, rt: Runtime<T>, checked: bool, run: seq<Event<T>>)
    requires AtBase(cfg.ops, base, rt) && (checked ==> Covered(rt.store)) && Checkable(cfg.ops, checked)
    requires forall i :: 0 <= i < |run| ==> Allowed(run[i], checked)
    ensures Inv(cfg, base, Registries(cfg, Idle(rt), run), checked, Run(cfg, Idle(rt), run))
  {
    var was := Registries(cfg, Idle(rt), run);
    assert run[..0] == [] && Run(cfg, Idle(rt), []) == Idle(rt);
    assert rt.registry in was;
    RunKeeps(cfg, base, was, checked, Idle(rt), run);
  }

  // In every interleaving without rollback faults, each inference function runs on exactly
  // the base model plus its own route, as some registry of the run gave it to its tenant and
  // as its payload file validated; and whenever the lock is free the runtime is READY with
  // every weight equal to the base model's. Cut the run after a pass, and that registry is
  // one from before the pass.
  lemma EveryInterleavingIsIsolated<T(!new)>(cfg: Config<T>, base: Weights<T>, rt: Runtime<T>, run: seq<Event<T>>)
    requires AtBase(cfg.ops, base, rt)
    requires forall i :: 0 <= i < |run| ==> Allowed(run[i], false)
    ensures var sys := Run(cfg, Idle(rt), run);
      && PassesExact(cfg, base, Registries(cfg, Idle(rt), run), sys.passes) && PassesOpen(cfg, sys.passes)
      && (sys.lock == None ==> sys.rt.phase == Ready && sys.rt.weights == base)
      && sys.rt.phase != WorkerQuarantined
  {
    IdleKeeps(cfg, base, rt, false, run);
    ExactIsOpen(cfg, base, Registries(cfg, Idle(rt), run), Run(cfg, Idle(rt), run).passes);
    var sys := Run(cfg, Idle(rt), run);
    if sys.lock.Some? {
      assert Holding(cfg.ops, base, sys.rt, sys.threads[sys.lock.value], false);
    }
  }

  // With rollback faults of any kind, in every interleaving, as long as the checksums of
  // captures can be computed and are collision-free, the passes are still exact, and a free
  // lock means the base model, or a worker that is quarantined or stuck and can be restored.
  lemma IsolationSurvivesFaults<T(!new)>(cfg: Config<T>, base: Weights<T>, rt: Runtime<T>, run: seq<Event<T>>)
    requires AtBase(cfg.ops, base, rt) && Covered(rt.store) && Collisionless(cfg.ops)
    requires forall i :: 0 <= i < |run| ==> Allowed(run[i], true)
    ensures var sys := Run(cfg, Idle(rt), run);
      && PassesExact(cfg, base, Registries(cfg, Idle(rt), run), sys.passes) && PassesOpen(cfg, sys.passes)
      && (sys.lock == None ==> Free(cfg.ops, base, sys.rt, true))
  {
    IdleKeeps(cfg, base, rt, true, run);
    ExactIsOpen(cfg, base, Registries(cfg, Idle(rt), run), Run(cfg, Idle(rt), run).passes);
  }

  // ----- One thread stepping alone -----

  ghost function Repeat<T>(cfg: Config<T>, sys: System<T>, e: Event<T>, n: nat): System<T>
    decreases n
  {
    if n == 0 then sys else Repeat(cfg, Step(cfg, sys, e), e, n - 1)
  }

  lemma {:induction false} RepeatIsRun<T>(cfg: Config<T>, sys: System<T>, e: Event<T>, n: nat)
    ensures Repeat(cfg, sys, e, n) == Run(cfg, sys, seq(n, i => e))
    decreases n
  {
    if n > 0 {
      assert seq(n, i => e)[1..] == seq(n - 1, i => e);
      RepeatIsRun(cfg, Step(cfg, sys, e), e, n - 1);
    }
  }

  lemma {:induction false} RunAppend<T>(cfg: Config<T>, sys: System<T>, a: seq<Event<T>>, b: seq<Event<T>>)
    ensures Run(cfg, sys, a + b) == Run(cfg, Run(cfg, sys, a), b)
    decreases |a|
  {
    if a == [] {
      assert a + b == b;
    } else {
      assert (a + b)[0] == a[0] && (a + b)[1..] == a[1..] + b;
      RunAppend(cfg, Step(cfg, sys, a[0]), a[1..], b);
    }
  }
}
