/** A thread that runs `infer` without interruption does what the sequential `infer` does:
    the step system and the function describe the same code. */
module SoloInfer {
  import opened Prelude
  import opened Tensors
  import opened RuntimeState
  import opened FailurePolicy
  import opened RouteRegistry
  import opened PayloadValidator
  import opened HotSwapModel
  import C = ConcurrentInfer

  // Where a thread ends up, and the inference passes it made on the way.
  datatype Finished<T> = Finished(rt: Runtime<T>, th: C.Thread<T>, passes: seq<C.Pass<T>>)

  function StepsLeft(pc: C.Pc): nat {
    match pc
    case CheckWorker => 21
    case LookUp => 20
    case ValidateFile => 19
    case WithdrawRoute => 18
    case MarkPhase => 17
    case Acquire => 16
    case EnterVerifying => 15
    case Capture => 14
    case EnterCaptured => 13
    case EnterSwapping => 12
    case ApplyDeltas => 11
    case EnterSwapped => 10
    case EnterForwarding => 9
    case Forward => 8
    case TryRollingBack => 7
    case ForceRollingBack => 6
    case CopyBack => 5
    case Verify => 4
    case EnterReady => 3
    case Release => 2
    case FinalCheck => 1
    case Done(_) => 0
  }

  lemma OutsideShrinks<T>(cfg: Config<T>, rt: Runtime<T>, th: C.Thread<T>, inp: C.Input<T>)
    requires !C.Critical(th.pc) && th.pc != C.Acquire && !th.pc.Done?
    ensures StepsLeft(C.Outside(cfg, rt, th, inp).th.pc) < StepsLeft(th.pc)
  {
  }

  lemma SwapShrinks<T>(cfg: Config<T>, rt: Runtime<T>, th: C.Thread<T>, inp: C.Input<T>)
    requires C.Critical(th.pc) && !C.Undoing(th.pc) && th.pc != C.Release
    ensures StepsLeft(C.SwapAndForward(cfg, rt, th, inp).th.pc) < StepsLeft(th.pc)
  {
  }

  lemma UndoShrinks<T>(cfg: Config<T>, rt: Runtime<T>, th: C.Thread<T>, inp: C.Input<T>)
    requires C.Undoing(th.pc)
    ensures StepsLeft(C.UndoSwap(cfg, rt, th, inp).th.pc) < StepsLeft(th.pc)
  {
  }

  lemma MoveShrinks<T>(cfg: Config<T>, rt: Runtime<T>, th: C.Thread<T>, inp: C.Input<T>)
    requires th.pc != C.Acquire && th.pc != C.Release && !th.pc.Done?
    ensures StepsLeft(C.Move(cfg, rt, th, inp).th.pc) < StepsLeft(th.pc)
  {
    if !C.Critical(th.pc) {
      OutsideShrinks(cfg, rt, th, inp);
    } else if C.Undoing(th.pc) {
      UndoShrinks(cfg, rt, th, inp);
    } else {
      SwapShrinks(cfg, rt, th, inp);
    }
  }

  // One step with the lock free for the taking.
  ghost function SoloStep<T>(cfg: Config<T>, rt: Runtime<T>, th: C.Thread<T>, inp: C.Input<T>): (moved: C.Moved<T>)
    requires !th.pc.Done?
    ensures StepsLeft(moved.th.pc) < StepsLeft(th.pc)
  {
    if th.pc == C.Acquire then C.Goto(rt, th, C.EnterVerifying)
    else if th.pc == C.Release then C.Goto(rt, th, C.FinalCheck)
    else
      MoveShrinks(cfg, rt, th, inp);
      C.Move(cfg, rt, th, inp)
  }

  ghost function Solo<T>(cfg: Config<T>, rt: Runtime<T>, th: C.Thread<T>, inp: C.Input<T>): Finished<T>
    decreases StepsLeft(th.pc)
  {
    if th.pc.Done? then Finished(rt, th, [])
    else
      var moved := SoloStep(cfg, rt, th, inp);
      var rest := Solo(cfg, moved.rt, moved.th, inp);
      rest.(passes := (if moved.pass.Some? then [moved.pass.value] else []) + rest.passes)
  }

  // ----- Solo is a run of the system -----

  ghost predicate LockFits<T>(sys: C.System<T>, tid: C.Tid) {
    tid in sys.threads && sys.lock == if C.Critical(sys.threads[tid].pc) then Some(tid) else None
  }

  lemma {:induction false} SoloIsRun<T>(cfg: Config<T>, sys: C.System<T>, tid: C.Tid, inp: C.Input<T>) returns (n: nat)
    requires LockFits(sys, tid)
    ensures var fin := Solo(cfg, sys.rt, sys.threads[tid], inp);
      C.Repeat(cfg, sys, C.Advance(tid, inp), n)
        == C.System(fin.rt, None, sys.threads[tid := fin.th], sys.passes + fin.passes)
    decreases StepsLeft(sys.threads[tid].pc)
  {
    var th := sys.threads[tid];
    var fin := Solo(cfg, sys.rt, th, inp);
    if th.pc.Done? {
      n := 0;
      assert sys.threads[tid := th] == sys.threads;
    } else {
      StepFits(cfg, sys, tid, inp);
      var sys' := C.Step(cfg, sys, C.Advance(tid, inp));
      var k := SoloIsRun(cfg, sys', tid, inp);
      n := k + 1;
      var moved := SoloStep(cfg, sys.rt, th, inp);
      Extends(sys, tid, moved, Solo(cfg, moved.rt, moved.th, inp));
      assert C.Repeat(cfg, sys, C.Advance(tid, inp), n) == C.Repeat(cfg, sys', C.Advance(tid, inp), k);
    }
  }

  // Where the run ends is the same seen from before a step and from after it.
  lemma Extends<T>(sys: C.System<T>, tid: C.Tid, moved: C.Moved<T>, rest: Finished<T>)
    ensures var made := if moved.pass.Some? then [moved.pass.value] else [];
      && sys.threads[tid := moved.th][tid := rest.th] == sys.threads[tid := rest.th]
      && (sys.passes + made) + rest.passes == sys.passes + (made + rest.passes)
  {
  }

  lemma StepFits<T>(cfg: Config<T>, sys: C.System<T>, tid: C.Tid, inp: C.Input<T>)
    requires LockFits(sys, tid) && !sys.threads[tid].pc.Done?
    ensures var sys' := C.Step(cfg, sys, C.Advance(tid, inp));
      var moved := SoloStep(cfg, sys.rt, sys.threads[tid], inp);
      && LockFits(sys', tid)
      && sys'.rt == moved.rt && sys'.threads == sys.threads[tid := moved.th]
      && sys'.passes == sys.passes + if moved.pass.Some? then [moved.pass.value] else []
  {
  }

  // ----- Solo is infer -----

  ghost function At<T>(th: C.Thread<T>, pc: C.Pc): C.Thread<T> {
    th.(pc := pc)
  }

  ghost function Ended<T>(rt: Runtime<T>, th: C.Thread<T>): Finished<T> {
    Finished(rt, th.(pc := C.Done(if th.raised || rt.phase == WorkerQuarantined then Raised else Returned)), [])
  }

  lemma FinalCheckEnds<T>(cfg: Config<T>, rt: Runtime<T>, th: C.Thread<T>, inp: C.Input<T>)
    ensures Solo(cfg, rt, At(th, C.FinalCheck), inp) == Ended(rt, th)
  {
    var moved := SoloStep(cfg, rt, At(th, C.FinalCheck), inp);
    assert moved == C.Moved(rt, Ended(rt, th).th, None);
    assert Solo(cfg, rt, moved.th, inp) == Finished(rt, moved.th, []);
  }

  lemma ReleaseEnds<T>(cfg: Config<T>, rt: Runtime<T>, th: C.Thread<T>, inp: C.Input<T>)
    ensures Solo(cfg, rt, At(th, C.Release), inp) == Ended(rt, th)
  {
    FinalCheckEnds(cfg, rt, th, inp);
    assert SoloStep(cfg, rt, At(th, C.Release), inp) == C.Moved(rt, At(th, C.FinalCheck), None);
  }

  // The thread knows when the rollback raised out of its verification.
  ghost function AfterRollback<T>(rt: Runtime<T>, th: C.Thread<T>, inp: C.Input<T>): C.Thread<T> {
    th.(raised := th.raised || Escapes(rt.store, inp.rollback))
  }

  lemma EnterReadyEnds<T>(cfg: Config<T>, rt: Runtime<T>, th: C.Thread<T>, inp: C.Input<T>)
    ensures Solo(cfg, rt, At(th, C.EnterReady), inp) == Ended(rt.(phase := Ready), th)
  {
    assert SoloStep(cfg, rt, At(th, C.EnterReady), inp) == C.Moved(rt.(phase := Ready), At(th, C.Release), None);
    ReleaseEnds(cfg, rt.(phase := Ready), th, inp);
  }

  // The rollback from its verification on.
  ghost function Verified<T>(cfg: Config<T>, rt: Runtime<T>, o: RollbackOutcome<T>): Runtime<T> {
    if Escapes(rt.store, o) then rt
    else if VerifyRollback(cfg.ops, rt.weights, rt.store) then rt.(phase := Ready, rollbacks := rt.rollbacks + 1)
    else rt.(phase := WorkerQuarantined)
  }

  lemma VerifyRaisesEnds<T>(cfg: Config<T>, rt: Runtime<T>, th: C.Thread<T>, inp: C.Input<T>)
    requires Escapes(rt.store, inp.rollback)
    ensures Solo(cfg, rt, At(th, C.Verify), inp) == Ended(rt, th.(raised := true))
  {
    var raised := th.(raised := true);
    assert SoloStep(cfg, rt, At(th, C.Verify), inp) == C.Moved(rt, At(raised, C.Release), None);
    ReleaseEnds(cfg, rt, raised, inp);
  }

  lemma VerifyPassesEnds<T>(cfg: Config<T>, rt: Runtime<T>, th: C.Thread<T>, inp: C.Input<T>)
    requires !Escapes(rt.store, inp.rollback) && VerifyRollback(cfg.ops, rt.weights, rt.store)
    ensures Solo(cfg, rt, At(th, C.Verify), inp) == Ended(rt.(phase := Ready, rollbacks := rt.rollbacks + 1), th)
  {
    var counted := rt.(rollbacks := rt.rollbacks + 1);
    assert SoloStep(cfg, rt, At(th, C.Verify), inp) == C.Moved(counted, At(th, C.EnterReady), None);
    EnterReadyEnds(cfg, counted, th, inp);
  }

  lemma VerifyFailsEnds<T>(cfg: Config<T>, rt: Runtime<T>, th: C.Thread<T>, inp: C.Input<T>)
    requires !Escapes(rt.store, inp.rollback) && !VerifyRollback(cfg.ops, rt.weights, rt.store)
    ensures Solo(cfg, rt, At(th, C.Verify), inp) == Ended(rt.(phase := WorkerQuarantined), th)
  {
    var lost := rt.(phase := WorkerQuarantined);
    assert SoloStep(cfg, rt, At(th, C.Verify), inp) == C.Moved(lost, At(th, C.Release), None);
    ReleaseEnds(cfg, lost, th, inp);
  }

  lemma VerifyEnds<T>(cfg: Config<T>, rt: Runtime<T>, th: C.Thread<T>, inp: C.Input<T>)
    ensures Solo(cfg, rt, At(th, C.Verify), inp) == Ended(Verified(cfg, rt, inp.rollback), AfterRollback(rt, th, inp))
  {
    if Escapes(rt.store, inp.rollback) {
      VerifyRaisesEnds(cfg, rt, th, inp);
    } else if VerifyRollback(cfg.ops, rt.weights, rt.store) {
      VerifyPassesEnds(cfg, rt, th, inp);
    } else {
      VerifyFailsEnds(cfg, rt, th, inp);
    }
  }

  lemma CopyRaisesEnds<T>(cfg: Config<T>, rt: Runtime<T>, th: C.Thread<T>, inp: C.Input<T>, copied: Runtime<T>)
    requires copied == rt.(weights := RollBack(rt.weights, rt.store, inp.rollback))
    requires inp.rollback.Torn? && inp.rollback.raises
    ensures Solo(cfg, rt, At(th, C.CopyBack), inp) == Ended(copied.(phase := WorkerQuarantined), th)
  {
    var lost := copied.(phase := WorkerQuarantined);
    assert SoloStep(cfg, rt, At(th, C.CopyBack), inp) == C.Moved(lost, At(th, C.Release), None);
    ReleaseEnds(cfg, lost, th, inp);
  }

  lemma CopyVerifies<T>(cfg: Config<T>, rt: Runtime<T>, th: C.Thread<T>, inp: C.Input<T>, copied: Runtime<T>)
    requires copied == rt.(weights := RollBack(rt.weights, rt.store, inp.rollback))
    requires !(inp.rollback.Torn? && inp.rollback.raises)
    ensures Solo(cfg, rt, At(th, C.CopyBack), inp) == Solo(cfg, copied, At(th, C.Verify), inp)
  {
    assert SoloStep(cfg, rt, At(th, C.CopyBack), inp) == C.Moved(copied, At(th, C.Verify), None);
  }

  lemma CopyEnds<T>(cfg: Config<T>, rt: Runtime<T>, th: C.Thread<T>, inp: C.Input<T>)
    requires rt.phase == RollingBack
    ensures Solo(cfg, rt, At(th, C.CopyBack), inp)
      == Ended(PerformRollback(cfg.ops, rt, inp.rollback), AfterRollback(rt, th, inp))
  {
    var copied := rt.(weights := RollBack(rt.weights, rt.store, inp.rollback));
    if inp.rollback.Torn? && inp.rollback.raises {
      CopyRaisesEnds(cfg, rt, th, inp, copied);
    } else {
      CopyVerifies(cfg, rt, th, inp, copied);
      VerifyEnds(cfg, copied, th, inp);
      CopiedThenVerified(cfg, rt, inp.rollback, copied);
    }
  }

  lemma CopiedThenVerified<T>(cfg: Config<T>, rt: Runtime<T>, o: RollbackOutcome<T>, copied: Runtime<T>)
    requires rt.phase == RollingBack && copied == rt.(weights := RollBack(rt.weights, rt.store, o))
    requires !(o.Torn? && o.raises)
    ensures PerformRollback(cfg.ops, rt, o) == Verified(cfg, copied, o)
  {
  }

  lemma ForcedEnds<T>(cfg: Config<T>, rt: Runtime<T>, th: C.Thread<T>, inp: C.Input<T>)
    ensures Solo(cfg, rt, At(th, C.ForceRollingBack), inp)
        == Solo(cfg, rt.(phase := RollingBack), At(th, C.CopyBack), inp)
  {
    assert SoloStep(cfg, rt, At(th, C.ForceRollingBack), inp)
        == C.Moved(rt.(phase := RollingBack), At(th, C.CopyBack), None);
  }

  lemma UndoEnds<T>(cfg: Config<T>, rt: Runtime<T>, th: C.Thread<T>, inp: C.Input<T>)
    ensures Solo(cfg, rt, At(th, C.TryRollingBack), inp)
      == Ended(PerformRollback(cfg.ops, rt, inp.rollback), AfterRollback(rt, th, inp))
  {
    TryGoesOn(cfg, rt, th, inp);
    CopyEnds(cfg, rt.(phase := RollingBack), th, inp);
    PhaseIsForced(cfg, rt, inp.rollback);
  }

  lemma PhaseIsForced<T>(cfg: Config<T>, rt: Runtime<T>, o: RollbackOutcome<T>)
    ensures PerformRollback(cfg.ops, rt.(phase := RollingBack), o) == PerformRollback(cfg.ops, rt, o)
  {
  }

  lemma TryGoesOn<T>(cfg: Config<T>, rt: Runtime<T>, th: C.Thread<T>, inp: C.Input<T>)
    ensures Solo(cfg, rt, At(th, C.TryRollingBack), inp)
        == Solo(cfg, rt.(phase := RollingBack), At(th, C.CopyBack), inp)
  {
    var at, rolling := At(th, C.TryRollingBack), rt.(phase := RollingBack);
    if Legal(rt.phase, RollingBack) {
      assert SoloStep(cfg, rt, at, inp) == C.Moved(rolling, At(th, C.CopyBack), None);
    } else {
      assert SoloStep(cfg, rt, at, inp) == C.Moved(rt, At(th, C.ForceRollingBack), None);
      ForcedEnds(cfg, rt, th, inp);
    }
  }

  // The call the thread is making.
  ghost function CallOf<T>(th: C.Thread<T>, inp: C.Input<T>): InferCall<T> {
    InferCall(th.routeId, th.tenant, inp.file, inp.captureFault, inp.applyFault, inp.inferenceRaises, inp.rollback)
  }

  // The thread ends as the call does: same state, same result, and inference ran on the
  // same weights if it ran.
  ghost predicate Matches<T>(fin: Finished<T>, out: InferOutcome<T>) {
    && fin.rt == out.state && fin.th.pc == C.Done(out.result)
    && match out.seen
       case None => fin.passes == []
       case Some(w) => |fin.passes| == 1 && fin.passes[0].weights == w
  }

  lemma FailEnds<T>(cfg: Config<T>, rt: Runtime<T>, th: C.Thread<T>, inp: C.Input<T>)
    ensures Matches(Solo(cfg, rt, C.Fail(rt, th).th, inp),
                    InferOutcome(PerformRollback(cfg.ops, rt, inp.rollback), Raised, None))
  {
    UndoEnds(cfg, rt, th.(raised := true), inp);
  }

  // How a call ends that got as far as the inference function.
  ghost function Result<T>(cfg: Config<T>, rt: Runtime<T>, after: Runtime<T>, inp: C.Input<T>): InferResult {
    if inp.inferenceRaises || after.phase == WorkerQuarantined || Escapes(rt.store, inp.rollback)
        then Raised else Returned
  }

  lemma ForwardEnds<T>(cfg: Config<T>, rt: Runtime<T>, th: C.Thread<T>, inp: C.Input<T>)
    requires !th.raised
    ensures var s := PerformRollback(cfg.ops, rt, inp.rollback);
      Matches(Solo(cfg, rt, At(th, C.Forward), inp),
              InferOutcome(s, Result(cfg, rt, s, inp), Some(rt.weights)))
  {
    var at := At(th, C.Forward);
    UndoEnds(cfg, rt, th.(raised := inp.inferenceRaises), inp);
    assert SoloStep(cfg, rt, at, inp)
        == C.Moved(rt, At(th.(raised := inp.inferenceRaises), C.TryRollingBack), Some(C.Pass(at, rt.weights)));
  }

  lemma SwappedEnds<T>(cfg: Config<T>, rt: Runtime<T>, th: C.Thread<T>, inp: C.Input<T>)
    requires rt.phase == Swapping
    ensures Solo(cfg, rt, At(th, C.EnterSwapped), inp) == Solo(cfg, rt.(phase := Forwarding), At(th, C.Forward), inp)
  {
    var swapped := rt.(phase := Swapped);
    EnteringStep(cfg, rt, At(th, C.EnterSwapped), inp);
    Via(cfg, rt, At(th, C.EnterSwapped), inp, swapped, At(th, C.EnterForwarding));
    EnteringStep(cfg, swapped, At(th, C.EnterForwarding), inp);
    Via(cfg, swapped, At(th, C.EnterForwarding), inp, rt.(phase := Forwarding), At(th, C.Forward));
  }

  // A transition that the table allows.
  lemma EnteringStep<T>(cfg: Config<T>, rt: Runtime<T>, th: C.Thread<T>, inp: C.Input<T>)
    requires C.Entering(th.pc) && Legal(rt.phase, C.Destination(th.pc))
    ensures SoloStep(cfg, rt, th, inp) == C.Moved(rt.(phase := C.Destination(th.pc)), th.(pc := C.After(th.pc)), None)
  {
  }

  lemma Via<T>(
      cfg: Config<T>, rt: Runtime<T>, th: C.Thread<T>, inp: C.Input<T>, rt': Runtime<T>, th': C.Thread<T>)
    requires !th.pc.Done? && SoloStep(cfg, rt, th, inp) == C.Moved(rt', th', None)
    ensures Solo(cfg, rt, th, inp) == Solo(cfg, rt', th', inp)
  {
  }

  // What is left of the call once the deltas are about to be applied.
  ghost function RestOfCall<T>(cfg: Config<T>, s1: Runtime<T>, swapped: bool, inp: C.Input<T>): InferOutcome<T> {
    if !swapped then InferOutcome(PerformRollback(cfg.ops, s1, inp.rollback), Raised, None)
    else
      var s2 := PerformRollback(cfg.ops, s1.(phase := Forwarding), inp.rollback);
      InferOutcome(s2, Result(cfg, s1, s2, inp), Some(s1.weights))
  }

  lemma AppliedEnds<T>(cfg: Config<T>, rt: Runtime<T>, th: C.Thread<T>, inp: C.Input<T>)
    requires rt.phase == Swapping && !th.raised
    ensures Matches(Solo(cfg, rt, At(th, C.EnterSwapped), inp), RestOfCall(cfg, rt.(phase := Swapped), true, inp))
  {
    SwappedEnds(cfg, rt, th, inp);
    ForwardEnds(cfg, rt.(phase := Forwarding), th, inp);
  }

  lemma ApplyEnds<T>(cfg: Config<T>, rt: Runtime<T>, th: C.Thread<T>, inp: C.Input<T>)
    requires rt.phase == Swapping && !th.raised
    ensures var (s1, ok) := ApplyIn(cfg.ops, rt, th.manifest, th.deltas, inp.applyFault);
      Matches(Solo(cfg, rt, At(th, C.ApplyDeltas), inp), RestOfCall(cfg, s1, ok, inp))
  {
    var at := At(th, C.ApplyDeltas);
    var (w, ok) := ApplySwap(cfg.ops, rt.weights, rt.store.names, th.manifest, th.deltas, inp.applyFault);
    var applied := rt.(weights := w);
    if ok {
      assert SoloStep(cfg, rt, at, inp) == C.Moved(applied, At(th, C.EnterSwapped), None);
      AppliedEnds(cfg, applied, th, inp);
    } else {
      assert SoloStep(cfg, rt, at, inp) == C.Fail(applied, at);
      FailEnds(cfg, applied, at, inp);
    }
  }

  lemma CapturedEnds<T>(cfg: Config<T>, rt: Runtime<T>, th: C.Thread<T>, inp: C.Input<T>)
    requires rt.phase == Verifying
    ensures Solo(cfg, rt, At(th, C.EnterCaptured), inp) == Solo(cfg, rt.(phase := Swapping), At(th, C.ApplyDeltas), inp)
  {
    var captured := rt.(phase := SnapshotCaptured);
    assert SoloStep(cfg, rt, At(th, C.EnterCaptured), inp) == C.Moved(captured, At(th, C.EnterSwapping), None);
    assert SoloStep(cfg, captured, At(th, C.EnterSwapping), inp)
        == C.Moved(rt.(phase := Swapping), At(th, C.ApplyDeltas), None);
  }

  lemma CaptureEnds<T>(cfg: Config<T>, rt: Runtime<T>, th: C.Thread<T>, inp: C.Input<T>)
    requires rt.phase == Verifying && !th.raised
    ensures var (s1, captured) := CaptureIn(cfg.ops, rt, th.manifest, inp.captureFault);
      var (s2, ok) := if captured then ApplyIn(cfg.ops, s1, th.manifest, th.deltas, inp.applyFault) else (s1, false);
      Matches(Solo(cfg, rt, At(th, C.Capture), inp), RestOfCall(cfg, s2, ok, inp))
  {
    var at := At(th, C.Capture);
    var (st, captured) := CaptureSnapshot(cfg.ops, rt.weights, rt.store, th.manifest.layers, inp.captureFault);
    var s1 := rt.(store := st);
    if captured {
      assert SoloStep(cfg, rt, at, inp) == C.Moved(s1, At(th, C.EnterCaptured), None);
      CapturedEnds(cfg, s1, th, inp);
      ApplyEnds(cfg, s1.(phase := Swapping), th, inp);
    } else {
      assert SoloStep(cfg, rt, at, inp) == C.Fail(s1, at);
      FailEnds(cfg, s1, at, inp);
    }
  }

  lemma CallIsSwapAndRest<T>(cfg: Config<T>, rt: Runtime<T>, th: C.Thread<T>, inp: C.Input<T>)
    ensures var (s1, ok) := SwapIn(cfg.ops, rt, th.manifest, th.deltas, inp.captureFault, inp.applyFault);
      SwapForwardRollback(cfg, rt, th.manifest, th.deltas, CallOf(th, inp)) == RestOfCall(cfg, s1, ok, inp)
  {
  }

  lemma VerifyingEnds<T>(cfg: Config<T>, rt: Runtime<T>, th: C.Thread<T>, inp: C.Input<T>)
    requires !th.raised
    ensures var (s1, ok) := SwapIn(cfg.ops, rt, th.manifest, th.deltas, inp.captureFault, inp.applyFault);
      Matches(Solo(cfg, rt, At(th, C.EnterVerifying), inp), RestOfCall(cfg, s1, ok, inp))
  {
    var at, verifying := At(th, C.EnterVerifying), rt.(phase := Verifying);
    if Legal(rt.phase, Verifying) {
      EnteringStep(cfg, rt, at, inp);
      Via(cfg, rt, at, inp, verifying, At(th, C.Capture));
      CaptureEnds(cfg, verifying, th, inp);
    } else {
      assert SoloStep(cfg, rt, at, inp) == C.Fail(rt, at);
      Via(cfg, rt, at, inp, rt, C.Fail(rt, at).th);
      FailEnds(cfg, rt, at, inp);
    }
  }

  lemma LockedEnds<T>(cfg: Config<T>, rt: Runtime<T>, th: C.Thread<T>, inp: C.Input<T>)
    requires !th.raised
    ensures Matches(Solo(cfg, rt, At(th, C.Acquire), inp),
        SwapForwardRollback(cfg, rt, th.manifest, th.deltas, CallOf(th, inp)))
  {
    VerifyingEnds(cfg, rt, th, inp);
    CallIsSwapAndRest(cfg, rt, th, inp);
    assert SoloStep(cfg, rt, At(th, C.Acquire), inp) == C.Moved(rt, At(th, C.EnterVerifying), None);
  }

  lemma MarkEnds<T>(cfg: Config<T>, rt: Runtime<T>, th: C.Thread<T>, inp: C.Input<T>)
    ensures Solo(cfg, rt, At(th, C.MarkPhase), inp)
      == Finished(rt.(phase := Attempt(rt.phase, RouteQuarantined)), At(th, C.Done(Refused)), [])
  {
    var marked := rt.(phase := Attempt(rt.phase, RouteQuarantined));
    assert SoloStep(cfg, rt, At(th, C.MarkPhase), inp) == C.Moved(marked, At(th, C.Done(Refused)), None);
    assert Solo(cfg, marked, At(th, C.Done(Refused)), inp) == Finished(marked, At(th, C.Done(Refused)), []);
  }

  lemma RefusalEnds<T>(cfg: Config<T>, rt: Runtime<T>, th: C.Thread<T>, inp: C.Input<T>, fc: FailureClass)
    requires RouteScoped(fc)
    ensures Matches(Solo(cfg, rt, At(th, C.WithdrawRoute), inp),
        InferOutcome(ApplyVerdict(rt, fc, th.routeId), Refused, None))
  {
    var withdrawn := rt.(registry := Apply(rt.registry, Quarantine(th.routeId)));
    assert SoloStep(cfg, rt, At(th, C.WithdrawRoute), inp) == C.Moved(withdrawn, At(th, C.MarkPhase), None);
    MarkEnds(cfg, withdrawn, th, inp);
  }

  // A payload failure that is not scoped to the route changes nothing.
  lemma UnscopedVerdict<T>(rt: Runtime<T>, fc: FailureClass, id: RouteId)
    requires PayloadClass(fc) && !RouteScoped(fc)
    ensures ApplyVerdict(rt, fc, id) == rt
  {
  }

  lemma ValidateEnds<T>(cfg: Config<T>, rt: Runtime<T>, th: C.Thread<T>, inp: C.Input<T>)
    requires !th.raised
    ensures var validated := ValidatePayload(cfg.ops, th.manifest, inp.file, cfg.maxBytes);
      Matches(Solo(cfg, rt, At(th, C.ValidateFile), inp),
        if validated.Err? then InferOutcome(ApplyVerdict(rt, validated.error, th.routeId), Refused, None)
        else SwapForwardRollback(cfg, rt, th.manifest, validated.value, CallOf(th, inp)))
  {
    var at := At(th, C.ValidateFile);
    var validated := ValidatePayload(cfg.ops, th.manifest, inp.file, cfg.maxBytes);
    if validated.Ok? {
      var ready := th.(file := Some(inp.file), deltas := validated.value);
      assert SoloStep(cfg, rt, at, inp) == C.Moved(rt, At(ready, C.Acquire), None);
      LockedEnds(cfg, rt, ready, inp);
    } else {
      ValidationIsFailClose(cfg.ops, th.manifest, inp.file, cfg.maxBytes);
      if RouteScoped(validated.error) {
        assert SoloStep(cfg, rt, at, inp) == C.Moved(rt, At(th, C.WithdrawRoute), None);
        RefusalEnds(cfg, rt, th, inp, validated.error);
      } else {
        assert SoloStep(cfg, rt, at, inp) == C.Moved(rt, At(th, C.Done(Refused)), None);
        UnscopedVerdict(rt, validated.error, th.routeId);
      }
    }
  }

  lemma LookUpEnds<T>(cfg: Config<T>, rt: Runtime<T>, th: C.Thread<T>, inp: C.Input<T>)
    requires !th.raised && rt.phase != WorkerQuarantined
    ensures Matches(Solo(cfg, rt, At(th, C.LookUp), inp), Infer(cfg, rt, CallOf(th, inp)))
  {
    var at := At(th, C.LookUp);
    if Executable(rt.registry, th.routeId, cfg.modelHash, th.tenant) {
      var found := th.(manifest := rt.registry.routes[th.routeId]);
      assert SoloStep(cfg, rt, at, inp) == C.Moved(rt, At(found, C.ValidateFile), None);
      ValidateEnds(cfg, rt, found, inp);
    } else {
      assert SoloStep(cfg, rt, at, inp) == C.Moved(rt, At(th, C.Done(Refused)), None);
    }
  }

  lemma CallEnds<T>(cfg: Config<T>, rt: Runtime<T>, th: C.Thread<T>, inp: C.Input<T>)
    requires !th.raised
    ensures Matches(Solo(cfg, rt, At(th, C.CheckWorker), inp), Infer(cfg, rt, CallOf(th, inp)))
  {
    var next := if rt.phase == WorkerQuarantined then C.Done(Refused) else C.LookUp;
    assert SoloStep(cfg, rt, At(th, C.CheckWorker), inp) == C.Moved(rt, At(th, next), None);
    if rt.phase != WorkerQuarantined {
      LookUpEnds(cfg, rt, th, inp);
    }
  }

  // A thread that starts on a call with the lock free and is not interrupted ends, after
  // some number of its own steps, with the outcome of the sequential infer: its state,
  // its result, and the weights the inference function saw.
  lemma SoloIsInfer<T>(
      cfg: Config<T>, sys: C.System<T>, tid: C.Tid, id: RouteId, tenant: string, inp: C.Input<T>) returns (n: nat)
    requires tid !in sys.threads && sys.lock == None
    ensures var e := C.Repeat(cfg, C.Step(cfg, sys, C.Spawn(tid, id, tenant)), C.Advance(tid, inp), n);
      var out := Infer(cfg, sys.rt,
        InferCall(id, tenant, inp.file, inp.captureFault, inp.applyFault, inp.inferenceRaises, inp.rollback));
      && e.lock == None && tid in e.threads && |e.passes| >= |sys.passes|
      && Matches(Finished(e.rt, e.threads[tid], e.passes[|sys.passes|..]), out)
  {
    var started := C.Step(cfg, sys, C.Spawn(tid, id, tenant));
    n := SoloIsRun(cfg, started, tid, inp);
    CallEnds(cfg, sys.rt, started.threads[tid], inp);
    var fin := Solo(cfg, sys.rt, started.threads[tid], inp);
    assert (sys.passes + fin.passes)[|sys.passes|..] == fin.passes;
  }
}
