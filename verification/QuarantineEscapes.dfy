/** Worker quarantine under concurrent `infer`: when it lasts, and how it is escaped. */
module QuarantineEscapes {
  import opened Prelude
  import opened Tensors
  import opened RuntimeState
  import opened RouteRegistry
  import opened PayloadValidator
  import opened HotSwapModel
  import opened RouteWeights
  import opened ConcurrentInfer
  import InferRuns
  import SoloInfer

  // ----- When it lasts -----

  // No payload file makes the manifest's payload valid.
  ghost predicate NeverValid<T(!new)>(cfg: Config<T>, m: Manifest) {
    forall file: PayloadFile<T> :: ValidatePayload(cfg.ops, m, file, cfg.maxBytes).Err?
  }

  // A thread that will not get to the lock, or has only to release it.
  ghost predicate Quiet<T(!new)>(cfg: Config<T>, th: Thread<T>) {
    || th.pc in {CheckWorker, WithdrawRoute, MarkPhase, Release, FinalCheck} || th.pc.Done?
    || (th.pc == ValidateFile && NeverValid(cfg, th.manifest))
  }

  ghost predicate AllQuiet<T(!new)>(cfg: Config<T>, sys: System<T>) {
    forall t :: t in sys.threads ==> Quiet(cfg, sys.threads[t])
  }

  lemma QuietThreadStep<T(!new)>(cfg: Config<T>, rt: Runtime<T>, th: Thread<T>, inp: Input<T>)
    requires rt.phase == WorkerQuarantined && Quiet(cfg, th) && th.pc != Release
    ensures var moved := Move(cfg, rt, th, inp);
      Quiet(cfg, moved.th) && moved.pass == None && moved.rt == rt.(registry := moved.rt.registry)
  {
  }

  lemma QuietStep<T(!new)>(cfg: Config<T>, sys: System<T>, e: Event<T>)
    requires sys.rt.phase == WorkerQuarantined && AllQuiet(cfg, sys)
    ensures var sys' := Step(cfg, sys, e);
      AllQuiet(cfg, sys') && sys'.passes == sys.passes && sys'.rt == sys.rt.(registry := sys'.rt.registry)
  {
    if e.Advance? && e.tid in sys.threads && sys.threads[e.tid].pc != Release {
      QuietThreadStep(cfg, sys.rt, sys.threads[e.tid], e.input);
    }
  }

  // While every thread is quiet, quarantine absorbs: no run changes a weight or the phase,
  // and inference does not run again.
  lemma {:induction false} QuietRun<T(!new)>(cfg: Config<T>, sys: System<T>, run: seq<Event<T>>)
    requires sys.rt.phase == WorkerQuarantined && AllQuiet(cfg, sys)
    ensures var sys' := Run(cfg, sys, run);
      AllQuiet(cfg, sys') && sys'.passes == sys.passes && sys'.rt == sys.rt.(registry := sys'.rt.registry)
    decreases |run|
  {
    if run != [] {
      QuietStep(cfg, sys, run[0]);
      QuietRun(cfg, Step(cfg, sys, run[0]), run[1..]);
    }
  }

  // ----- How it is escaped -----

  ghost function NoFaults<T>(file: PayloadFile<T>): Input<T> {
    Input(file, NoCaptureFault, NoApplyFault, false, Restored)
  }

  // Some run gets out of quarantine.
  ghost predicate CanEscape<T(!new)>(cfg: Config<T>, sys: System<T>) {
    exists run: seq<Event<T>> :: Run(cfg, sys, run).rt.phase != WorkerQuarantined
  }

  lemma EscapeAfter<T(!new)>(cfg: Config<T>, sys: System<T>, e: Event<T>)
    requires CanEscape(cfg, Step(cfg, sys, e))
    ensures CanEscape(cfg, sys)
  {
    var run: seq<Event<T>> :| Run(cfg, Step(cfg, sys, e), run).rt.phase != WorkerQuarantined;
    assert ([e] + run)[1..] == run;
    assert Run(cfg, sys, [e] + run).rt.phase != WorkerQuarantined;
  }

  // A lock holder about to roll back, or to find that it cannot swap, forces the phase.
  lemma HolderEscapes<T(!new)>(cfg: Config<T>, sys: System<T>, tid: Tid, inp: Input<T>)
    requires tid in sys.threads && sys.threads[tid].pc in {EnterVerifying, TryRollingBack, ForceRollingBack}
    requires sys.rt.phase == WorkerQuarantined
    ensures CanEscape(cfg, sys)
    decreases SoloInfer.StepsLeft(sys.threads[tid].pc)
  {
    var e := Advance(tid, inp);
    var sys' := Step(cfg, sys, e);
    if sys.threads[tid].pc == ForceRollingBack {
      assert Run(cfg, sys', []).rt.phase == RollingBack;
    } else {
      HolderEscapes(cfg, sys', tid, inp);
    }
    EscapeAfter(cfg, sys, e);
  }

  lemma AcquireEscapes<T(!new)>(cfg: Config<T>, sys: System<T>, tid: Tid, inp: Input<T>)
    requires tid in sys.threads && sys.threads[tid].pc == Acquire && sys.lock == None
        && sys.rt.phase == WorkerQuarantined
    ensures CanEscape(cfg, sys)
  {
    HolderEscapes(cfg, Step(cfg, sys, Advance(tid, inp)), tid, inp);
    EscapeAfter(cfg, sys, Advance(tid, inp));
  }

  lemma ValidateEscapes<T(!new)>(cfg: Config<T>, sys: System<T>, tid: Tid, inp: Input<T>)
    requires tid in sys.threads && sys.threads[tid].pc == ValidateFile && sys.lock == None
    requires sys.rt.phase == WorkerQuarantined
    requires ValidatePayload(cfg.ops, sys.threads[tid].manifest, inp.file, cfg.maxBytes).Ok?
    ensures CanEscape(cfg, sys)
  {
    AcquireEscapes(cfg, Step(cfg, sys, Advance(tid, inp)), tid, inp);
    EscapeAfter(cfg, sys, Advance(tid, inp));
  }

  // A thread before its lookup finds whatever is registered by then.
  lemma LookUpEscapes<T(!new)>(cfg: Config<T>, sys: System<T>, tid: Tid, inp: Input<T>)
    requires tid in sys.threads && sys.threads[tid].pc == LookUp && sys.lock == None
        && sys.rt.phase == WorkerQuarantined
    ensures CanEscape(cfg, sys)
  {
    var e := Admin(Register(sys.threads[tid].routeId, Manifest([], None, cfg.modelHash, None), true));
    var sys1 := Step(cfg, sys, e);
    ValidateEscapes(cfg, Step(cfg, sys1, Advance(tid, inp)), tid, inp);
    EscapeAfter(cfg, sys1, Advance(tid, inp));
    EscapeAfter(cfg, sys, e);
  }

  // A thread outside the lock that is not quiet, with the lock free.
  lemma WaiterEscapes<T(!new)>(cfg: Config<T>, sys: System<T>, tid: Tid, inp: Input<T>)
    requires tid in sys.threads && !Quiet(cfg, sys.threads[tid]) && !Critical(sys.threads[tid].pc)
    requires sys.lock == None && sys.rt.phase == WorkerQuarantined
    ensures CanEscape(cfg, sys)
  {
    if sys.threads[tid].pc == Acquire {
      AcquireEscapes(cfg, sys, tid, inp);
    } else if sys.threads[tid].pc == LookUp {
      LookUpEscapes(cfg, sys, tid, inp);
    } else {
      var file :| ValidatePayload(cfg.ops, sys.threads[tid].manifest, file, cfg.maxBytes).Ok?;
      ValidateEscapes(cfg, sys, tid, inp.(file := file));
    }
  }

  // Exactly the lock holder is in the locked section, and while the worker is quarantined
  // the holder has yet to start its swap, or rolls back, or is done.
  ghost predicate Orderly<T>(sys: System<T>) {
    && Exclusive(sys)
    && (sys.rt.phase == WorkerQuarantined && sys.lock.Some? ==>
          sys.threads[sys.lock.value].pc in {EnterVerifying, TryRollingBack, ForceRollingBack, Release})
  }

  ghost predicate HolderAt<T>(rt: Runtime<T>, th: Thread<T>) {
    && Critical(th.pc)
    && (rt.phase == WorkerQuarantined ==> th.pc in {EnterVerifying, TryRollingBack, ForceRollingBack, Release})
  }

  lemma SwapOrderly<T>(cfg: Config<T>, rt: Runtime<T>, th: Thread<T>, inp: Input<T>)
    requires HolderAt(rt, th) && th.pc != Release && !Undoing(th.pc)
    ensures var moved := SwapAndForward(cfg, rt, th, inp); HolderAt(moved.rt, moved.th)
  {
  }

  lemma UndoOrderly<T>(cfg: Config<T>, rt: Runtime<T>, th: Thread<T>, inp: Input<T>)
    requires HolderAt(rt, th) && Undoing(th.pc)
    ensures var moved := UndoSwap(cfg, rt, th, inp); HolderAt(moved.rt, moved.th)
  {
  }

  lemma OutsideOrderly<T>(cfg: Config<T>, rt: Runtime<T>, th: Thread<T>, inp: Input<T>)
    requires !Critical(th.pc)
    ensures var moved := Outside(cfg, rt, th, inp);
      !Critical(moved.th.pc) && (moved.rt.phase == WorkerQuarantined ==> rt.phase == WorkerQuarantined)
  {
  }

  lemma MoveOrderly<T>(cfg: Config<T>, sys: System<T>, tid: Tid, inp: Input<T>)
    requires Orderly(sys) && tid in sys.threads && sys.threads[tid].pc !in {Acquire, Release}
    ensures Orderly(StepThread(cfg, sys, tid, inp))
  {
    var th := sys.threads[tid];
    if !Critical(th.pc) {
      OutsideOrderly(cfg, sys.rt, th, inp);
    } else if Undoing(th.pc) {
      UndoOrderly(cfg, sys.rt, th, inp);
    } else {
      SwapOrderly(cfg, sys.rt, th, inp);
    }
  }

  lemma StepOrderly<T>(cfg: Config<T>, sys: System<T>, e: Event<T>)
    requires Orderly(sys)
    ensures Orderly(Step(cfg, sys, e))
  {
    if e.Advance? && e.tid in sys.threads && sys.threads[e.tid].pc !in {Acquire, Release} {
      MoveOrderly(cfg, sys, e.tid, e.input);
    }
  }

  // Every state that any run reaches, whatever its faults, is orderly.
  lemma {:induction false} RunOrderly<T>(cfg: Config<T>, sys: System<T>, run: seq<Event<T>>)
    requires Orderly(sys)
    ensures Orderly(Run(cfg, sys, run))
    decreases |run|
  {
    if run != [] {
      StepOrderly(cfg, sys, run[0]);
      RunOrderly(cfg, Step(cfg, sys, run[0]), run[1..]);
    }
  }

  lemma LoudEscapes<T(!new)>(cfg: Config<T>, sys: System<T>, tid: Tid, inp: Input<T>)
    requires Orderly(sys) && sys.rt.phase == WorkerQuarantined
    requires tid in sys.threads && !Quiet(cfg, sys.threads[tid])
    ensures CanEscape(cfg, sys)
  {
    if sys.lock == None {
      WaiterEscapes(cfg, sys, tid, inp);
    } else {
      var h := sys.lock.value;
      if sys.threads[h].pc == Release {
        WaiterEscapes(cfg, Step(cfg, sys, Advance(h, inp)), tid, inp);
        EscapeAfter(cfg, sys, Advance(h, inp));
      } else {
        HolderEscapes(cfg, sys, h, inp);
      }
    }
  }

  // However the worker came to be quarantined, it stays so in every run from here on exactly
  // when every thread is quiet: none is between the guard and its release of the lock, except
  // with a payload that no file can make valid.
  lemma QuarantineLastsIff<T(!new)>(cfg: Config<T>, rt: Runtime<T>, run: seq<Event<T>>)
    requires Run(cfg, Idle(rt), run).rt.phase == WorkerQuarantined
    ensures var sys := Run(cfg, Idle(rt), run); !CanEscape(cfg, sys) <==> AllQuiet(cfg, sys)
  {
    RunOrderly(cfg, Idle(rt), run);
    OrderlyLastsIff(cfg, Run(cfg, Idle(rt), run));
  }

  lemma OrderlyLastsIff<T(!new)>(cfg: Config<T>, sys: System<T>)
    requires Orderly(sys) && sys.rt.phase == WorkerQuarantined
    ensures !CanEscape(cfg, sys) <==> AllQuiet(cfg, sys)
  {
    if AllQuiet(cfg, sys) {
      forall run: seq<Event<T>> ensures Run(cfg, sys, run).rt.phase == WorkerQuarantined {
        QuietRun(cfg, sys, run);
      }
    } else {
      var tid :| tid in sys.threads && !Quiet(cfg, sys.threads[tid]);
      LoudEscapes(cfg, sys, tid, NoFaults(PayloadFile(false, None, None, HeaderError)));
    }
  }

  // ----- It happens -----

  // Thread `tid` waits for the free lock with nothing gone wrong so far.
  ghost predicate Waits<T>(sys: System<T>, tid: Tid) {
    && sys.lock == None && tid in sys.threads
    && sys.threads[tid].pc == Acquire && !sys.threads[tid].raised
  }

  // A thread that passed the guard before the worker was quarantined puts it back in
  // service: its swap is refused, and the rollback that follows is forced out of the
  // terminal phase.
  lemma BackInService<T(!new)>(cfg: Config<T>, base: Weights<T>, sys: System<T>, tid: Tid, inp: Input<T>)
      returns (run: seq<Event<T>>)
    requires Waits(sys, tid) && sys.rt.phase == WorkerQuarantined && inp.rollback == Restored
    requires Sound(cfg.ops, base, sys.rt.store) && Restorable(base, sys.rt.weights, sys.rt.store)
    ensures var sys' := Run(cfg, sys, run); sys'.lock == None && sys'.rt.phase == Ready && sys'.rt.weights == base
  {
    var th := sys.threads[tid];
    var n := SoloInfer.SoloIsRun(cfg, sys, tid, inp);
    SoloInfer.LockedEnds(cfg, sys.rt, th, inp);
    assert SoloInfer.At(th, Acquire) == th;
    RollbackEnds(cfg.ops, base, sys.rt, Restored);
    RepeatIsRun(cfg, sys, Advance(tid, inp), n);
    run := seq(n, i => Advance(tid, inp));
  }

  // The thread steps from one place to the next and touches nothing else.
  lemma OutsideStep<T>(cfg: Config<T>, sys: System<T>, tid: Tid, inp: Input<T>, th: Thread<T>)
    requires tid in sys.threads && !Critical(sys.threads[tid].pc) && sys.threads[tid].pc != Acquire
    requires Outside(cfg, sys.rt, sys.threads[tid], inp) == Moved(sys.rt, th, None)
    ensures Step(cfg, sys, Advance(tid, inp)) == sys.(threads := sys.threads[tid := th])
  {
    assert sys.passes + [] == sys.passes;
  }

  // A thread that starts on an executable route with a valid payload waits for the lock.
  lemma WaiterArrives<T(!new)>(cfg: Config<T>, sys: System<T>, tid: Tid, id: RouteId, tenant: string, inp: Input<T>)
      returns (run: seq<Event<T>>)
    requires tid !in sys.threads && sys.lock == None && sys.rt.phase != WorkerQuarantined
    requires Executable(sys.rt.registry, id, cfg.modelHash, tenant)
    requires ValidatePayload(cfg.ops, sys.rt.registry.routes[id], inp.file, cfg.maxBytes).Ok?
    ensures var sys' := Run(cfg, sys, run);
      Waits(sys', tid) && sys'.rt == sys.rt && sys'.threads.Keys == sys.threads.Keys + {tid}
  {
    var e := Advance(tid, inp);
    var s0 := Step(cfg, sys, Spawn(tid, id, tenant));
    var th1 := s0.threads[tid].(pc := LookUp);
    OutsideStep(cfg, s0, tid, inp, th1);
    var s1 := Step(cfg, s0, e);
    var th2 := th1.(manifest := sys.rt.registry.routes[id], pc := ValidateFile);
    OutsideStep(cfg, s1, tid, inp, th2);
    var s2 := Step(cfg, s1, e);
    var deltas := ValidatePayload(cfg.ops, th2.manifest, inp.file, cfg.maxBytes).value;
    OutsideStep(cfg, s2, tid, inp, th2.(file := Some(inp.file), deltas := deltas, pc := Acquire));
    run := [Spawn(tid, id, tenant), e, e, e];
    FourSteps(cfg, sys, run);
  }

  lemma FourSteps<T>(cfg: Config<T>, sys: System<T>, run: seq<Event<T>>)
    requires |run| == 4
    ensures Run(cfg, sys, run) == Step(cfg, Step(cfg, Step(cfg, Step(cfg, sys, run[0]), run[1]), run[2]), run[3])
  {
    RunAppend(cfg, sys, run[..2], run[2..]);
    assert run == run[..2] + run[2..];
    TwoSteps(cfg, sys, run[..2]);
    TwoSteps(cfg, Run(cfg, sys, run[..2]), run[2..]);
  }

  lemma TwoSteps<T>(cfg: Config<T>, sys: System<T>, run: seq<Event<T>>)
    requires |run| == 2
    ensures Run(cfg, sys, run) == Step(cfg, Step(cfg, sys, run[0]), run[1])
  {
    var s1 := Step(cfg, sys, run[0]);
    assert run[1..][0] == run[1] && run[1..][1..] == [];
    assert Run(cfg, Step(cfg, s1, run[1]), []) == Step(cfg, s1, run[1]);
  }

  // A whole call of another thread, whose rollback raises after copying everything, leaves
  // the worker in quarantine at the base model, while the first thread still waits.
  lemma RollbackFailsMeanwhile<T(!new)>(
      cfg: Config<T>, base: Weights<T>, sys: System<T>, waiter: Tid, tid: Tid, id: RouteId, tenant: string,
      inp: Input<T>)
      returns (run: seq<Event<T>>)
    requires InferRuns.AtBase(cfg.ops, base, sys.rt) && Waits(sys, waiter)
    requires tid !in sys.threads && inp.rollback == Torn(map[], true)
    requires Executable(sys.rt.registry, id, cfg.modelHash, tenant)
    requires ValidatePayload(cfg.ops, sys.rt.registry.routes[id], inp.file, cfg.maxBytes).Ok?
    ensures var sys' := Run(cfg, sys, run);
      && Waits(sys', waiter) && sys'.rt.phase == WorkerQuarantined
      && Sound(cfg.ops, base, sys'.rt.store) && Restorable(base, sys'.rt.weights, sys'.rt.store)
  {
    var started := Step(cfg, sys, Spawn(tid, id, tenant));
    var n := SoloInfer.SoloIsRun(cfg, started, tid, inp);
    SoloInfer.CallEnds(cfg, sys.rt, started.threads[tid], inp);
    QuarantinedByRaise(cfg, base, sys.rt, SoloInfer.CallOf(started.threads[tid], inp));
    RepeatIsRun(cfg, started, Advance(tid, inp), n);
    run := [Spawn(tid, id, tenant)] + seq(n, i => Advance(tid, inp));
    assert run[1..] == seq(n, i => Advance(tid, inp));
  }

  lemma QuarantinedByRaise<T(!new)>(cfg: Config<T>, base: Weights<T>, s: Runtime<T>, c: InferCall<T>)
    requires InferRuns.AtBase(cfg.ops, base, s) && InferRuns.Reaches(cfg, s, c) && c.rollback == Torn(map[], true)
    ensures var e := Infer(cfg, s, c).state;
      e.phase == WorkerQuarantined && Sound(cfg.ops, base, e.store) && Restorable(base, e.weights, e.store)
  {
    InferRuns.LockedCall(cfg, base, s, c);
    var s1 := InferRuns.BeforeRollback(cfg, s, c);
    RollbackRestores(cfg.ops, base, s1.weights, s1.store);
    assert RollBack(s1.weights, s1.store, c.rollback) == RollBack(s1.weights, s1.store, Restored);
  }

  // From a runtime in service that no thread uses yet, with any route that can be executed:
  // one thread quarantines the worker, and another, past the guard, puts it back in service.
  lemma QuarantineIsNotAbsorbing<T(!new)>(
      cfg: Config<T>, base: Weights<T>, rt: Runtime<T>, id: RouteId, tenant: string, file: PayloadFile<T>)
      returns (run: seq<Event<T>>, escape: seq<Event<T>>)
    requires InferRuns.AtBase(cfg.ops, base, rt) && Executable(rt.registry, id, cfg.modelHash, tenant)
    requires ValidatePayload(cfg.ops, rt.registry.routes[id], file, cfg.maxBytes).Ok?
    ensures Run(cfg, Idle(rt), run).rt.phase == WorkerQuarantined
    ensures Run(cfg, Idle(rt), run + escape).rt.phase == Ready && Run(cfg, Idle(rt), run + escape).rt.weights == base
  {
    var clean := NoFaults(file);
    var arrive := WaiterArrives(cfg, Idle(rt), 1, id, tenant, clean);
    var sys1 := Run(cfg, Idle(rt), arrive);
    var fail := RollbackFailsMeanwhile(cfg, base, sys1, 1, 0, id, tenant, clean.(rollback := Torn(map[], true)));
    var sys2 := Run(cfg, sys1, fail);
    escape := BackInService(cfg, base, sys2, 1, clean);
    run := arrive + fail;
    RunAppend(cfg, Idle(rt), arrive, fail);
    RunAppend(cfg, Idle(rt), run, escape);
  }
}
