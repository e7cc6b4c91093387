/** The model-runner hook, and the scheduler patch, hook and runtime working together. */
module ForwardHook {
  import opened Prelude
  import opened Tensors
  import opened RuntimeState
  import opened RouteRegistry
  import opened PayloadValidator
  import opened HotSwapModel
  import opened RouteWeights
  import R = HotSwapRuntime
  import opened ResidentRuns
  import S = SchedulerPatch

  // ----- One forward pass -----

  // `ensure.routeId` is overwritten with the route the scheduler made active.
  datatype ForwardCall<T> = ForwardCall(ensure: EnsureCall<T>, forwardRaises: bool, cleanup: RollbackOutcome<T>)

  // The weights the original forward ran on, if it ran, and whether the hook raises.
  datatype ForwardOutcome<T> = ForwardOutcome(state: Runtime<T>, seen: Option<Weights<T>>, raised: bool)

  ghost function PatchedForward<T>(
      cfg: Config<T>, s: Runtime<T>, active: RouteId, c: ForwardCall<T>): ForwardOutcome<T> {
    var out := EnsureRoute(cfg, s, c.ensure.(routeId := active));
    if out.result.Err? then ForwardOutcome(ClearActiveRoute(cfg, out.state, c.cleanup).0, None, true)
    else if c.forwardRaises
    then ForwardOutcome(ClearActiveRoute(cfg, out.state, c.cleanup).0, Some(out.state.weights), true)
    else ForwardOutcome(out.state, Some(out.state.weights), false)
  }

  // The base model stands in for an empty route id.
  function Activated(id: RouteId): (r: RouteId)
    ensures r != "" && (id == "" ==> r == "__base__") && (id != "" ==> r == id)
  {
    if id == "" then BASE else id
  }

  class PluginMetrics {
    var activeRouteId: RouteId
    var forwardCount: nat

    constructor ()
      ensures activeRouteId == BASE && forwardCount == 0
    {
      activeRouteId, forwardCount := BASE, 0;
    }

    method SetActiveRoute(id: RouteId)
      modifies this`activeRouteId
      ensures activeRouteId == Activated(id)
    {
      activeRouteId := if id != "" then id else BASE;
    }
  }

  // The scheduler patch with its last step, which tells the plugin what the batch's route is.
  method PatchedScheduleAndActivate(metrics: PluginMetrics, scheduler: S.Scheduler, e: S.Engine) returns (r: S.Outcome)
    requires scheduler.Valid() && S.Admissible(scheduler.View(), e)
    modifies metrics`activeRouteId, scheduler, scheduler.waiting, scheduler.skippedWaiting
    ensures (scheduler.View(), r) == S.PatchedSchedule(old(scheduler.View()), e)
    ensures metrics.activeRouteId == if r.Batch? then Activated(r.route) else old(metrics.activeRouteId)
  {
    r := scheduler.Schedule(e);
    if r.Batch? {
      metrics.SetActiveRoute(r.route);
    }
  }

  // While what runs shares one route, a returned batch is activated under the route that
  // all of it shares, and that route is never the empty id.
  lemma ActivatedIsShared(s: S.Sched, e: S.Engine)
    requires S.Homogeneous(s.running) && S.Admissible(s, e)
    requires S.PatchedSchedule(s, e).1.Batch?
    ensures var out := S.PatchedSchedule(s, e).1; Activated(out.route) == out.route && S.AllOf(out.requests, out.route)
  {
    S.StepHomogeneous(s, S.Schedule(e));
  }

  method PatchedModelForward<T(!new)>(metrics: PluginMetrics, runtime: R.HotSwapRuntime<T>, c: ForwardCall<T>)
    returns (seen: Option<Weights<T>>, raised: bool)
    requires runtime.Valid()
    modifies metrics`forwardCount, runtime, runtime.machine, runtime.registry
    ensures runtime.Valid() && metrics.forwardCount == old(metrics.forwardCount) + 1
    ensures ForwardOutcome(runtime.State(), seen, raised)
        == PatchedForward(runtime.cfg, old(runtime.State()), metrics.activeRouteId, c)
  {
    metrics.forwardCount := metrics.forwardCount + 1;
    var id := metrics.activeRouteId;
    seen := None;
    var ensured := runtime.EnsureRoute(c.ensure.(routeId := id));
    if ensured.Ok? {
      seen := Some(runtime.weights);
    }
    raised := ensured.Err? || c.forwardRaises;
    if raised {
      var cleared := runtime.ClearActiveRoute(c.cleanup);
    }
  }

  // ----- The plugin as a whole -----

  // `batch` is what the last schedule returned, until a forward pass runs on it.
  datatype Plugin<T> = Plugin(sched: S.Sched, rt: Runtime<T>, active: RouteId, batch: Option<seq<S.Request>>,
      passes: seq<Pass<T>>)

  // One forward pass: for which batch, under which route, on which weights, in which phase.
  datatype Pass<T> = Pass(batch: seq<S.Request>, route: RouteId, weights: Weights<T>, phase: Phase)

  datatype PluginEvent<T> = Queue(ev: S.Event) | Forward(c: ForwardCall<T>) | Manage(op: RegistryOp)

  // The state the original forward would run in.
  ghost function Ensured<T>(cfg: Config<T>, p: Plugin<T>, c: ForwardCall<T>): EnsureOutcome<T> {
    EnsureRoute(cfg, p.rt, c.ensure.(routeId := p.active))
  }

  // The pass that a forward call makes, if it makes one.
  ghost function Passed<T>(cfg: Config<T>, p: Plugin<T>, c: ForwardCall<T>): seq<Pass<T>> {
    var out := Ensured(cfg, p, c);
    if out.result.Ok? && p.batch.Some? then [Pass(p.batch.value, p.active, out.state.weights, out.state.phase)] else []
  }

  ghost function PluginStep<T>(cfg: Config<T>, p: Plugin<T>, e: PluginEvent<T>): Plugin<T> {
    match e
    case Queue(ev) =>
      var p1 := p.(sched := S.Step(p.sched, ev));
      if !ev.Schedule? then p1
      else
        var out := S.PatchedSchedule(p.sched, ev.e).1;
        if out.Batch? then p1.(active := Activated(out.route), batch := Some(out.requests)) else p1.(batch := None)
    case Forward(c) =>
      var out := PatchedForward(cfg, p.rt, p.active, c);
      p.(rt := out.state, batch := None, passes := p.passes + Passed(cfg, p, c))
    case Manage(op) => p.(rt := p.rt.(registry := Apply(p.rt.registry, op)))
  }

  // The scheduler event can happen, forward passes alternate with schedules, and route data
  // is the world's.
  ghost predicate PossibleEvent<T>(world: World<T>, p: Plugin<T>, e: PluginEvent<T>) {
    match e
    case Queue(ev) => S.Possible(p.sched, ev)
    case Forward(c) => p.batch.Some? && c.ensure.file == world.file(p.active)
    case Manage(op) => op.Register? ==> op.manifest == world.manifest(op.id)
  }

  ghost predicate CleanEvent<T>(e: PluginEvent<T>) {
    e.Forward? ==> e.c.ensure.evict == Restored && e.c.ensure.undo == Restored && e.c.cleanup == Restored
  }

  // No rollback of the event raises out of its verification.
  ghost predicate EventComputes<T>(e: PluginEvent<T>) {
    e.Forward? ==> !e.c.ensure.evict.VerifyRaises? && !e.c.ensure.undo.VerifyRaises? && !e.c.cleanup.VerifyRaises?
  }

  // The rollbacks of the call are safe in the states they come to.
  ghost predicate SafeForward<T(!new)>(cfg: Config<T>, p: Plugin<T>, c: ForwardCall<T>) {
    && SafeEvent(cfg, p.rt, Ensure(c.ensure.(routeId := p.active)))
    && SafeEvent(cfg, Ensured(cfg, p, c).state, Clear(c.cleanup))
  }

  ghost predicate SafePluginRun<T(!new)>(cfg: Config<T>, p: Plugin<T>, run: seq<PluginEvent<T>>)
    decreases |run|
  {
    || run == []
    || ((run[0].Forward? ==> SafeForward(cfg, p, run[0].c))
        && SafePluginRun(cfg, PluginStep(cfg, p, run[0]), run[1..]))
  }

  ghost function PluginRun<T>(cfg: Config<T>, p: Plugin<T>, run: seq<PluginEvent<T>>): Plugin<T>
    decreases |run|
  {
    if run == [] then p else PluginRun(cfg, PluginStep(cfg, p, run[0]), run[1..])
  }

  ghost predicate PossiblePluginRun<T>(cfg: Config<T>, world: World<T>, p: Plugin<T>, run: seq<PluginEvent<T>>)
    decreases |run|
  {
    || run == []
    || (PossibleEvent(world, p, run[0])
        && PossiblePluginRun(cfg, world, PluginStep(cfg, p, run[0]), run[1..]))
  }

  // Everything in the batch belongs to the route, the route's payload validates, and the
  // weights are that route's, unless the worker is quarantined, for the base model only, or
  // stuck.
  ghost predicate PassExact<T>(cfg: Config<T>, world: World<T>, base: Weights<T>, pass: Pass<T>) {
    && S.AllBelong(pass.batch, pass.route)
    && (pass.phase in {Ready, Swapped, WorkerQuarantined} || StuckPhase(pass.phase))
    && Valid(cfg, world, pass.route)
    && (pass.phase in {Ready, Swapped} ==> pass.weights == RouteModel(cfg, world, base, pass.route))
    && (pass.phase == WorkerQuarantined ==> pass.route == BASE)
  }

  ghost predicate PluginInv<T>(cfg: Config<T>, world: World<T>, base: Weights<T>, p: Plugin<T>) {
    && S.Homogeneous(p.sched.running)
    && Inv(cfg, world, base, p.rt)
    && (p.batch.Some? ==> S.AllOf(p.batch.value, p.active))
    && (forall i :: 0 <= i < |p.passes| ==> PassExact(cfg, world, base, p.passes[i]))
  }

  ghost predicate NoneStuck<T>(p: Plugin<T>) {
    !StuckPhase(p.rt.phase) && forall i :: 0 <= i < |p.passes| ==> !StuckPhase(p.passes[i].phase)
  }

  ghost predicate NoneQuarantined<T>(p: Plugin<T>) {
    p.rt.phase != WorkerQuarantined && forall i :: 0 <= i < |p.passes| ==> p.passes[i].phase != WorkerQuarantined
  }

  // A forward pass runs on its route's weights with two exceptions, both decided before
  // the call: evicting the old route for the base model quarantines the worker, or the
  // worker is stuck with the very route named as active.
  lemma PassIsExact<T(!new)>(cfg: Config<T>, world: World<T>, base: Weights<T>, p: Plugin<T>, c: ForwardCall<T>)
    requires PluginInv(cfg, world, base, p) && PossibleEvent(world, p, Forward(c)) && SafeForward(cfg, p, c)
    requires Passed(cfg, p, c) != []
    ensures var pass := Passed(cfg, p, c)[0]; var call := c.ensure.(routeId := p.active);
      && PassExact(cfg, world, base, pass)
      && (pass.phase == WorkerQuarantined <==> p.active == BASE && LosesEviction(cfg, p.rt, call))
      && (StuckPhase(pass.phase) <==> StuckPhase(p.rt.phase) && p.rt.active == p.active)
  {
    NormalReturnIsExact(cfg, world, base, p.rt, c.ensure.(routeId := p.active));
    S.AllOfMeans(p.batch.value, p.active);
  }

  // The hook raises exactly when ensure_route or the forward does. The forward ran exactly
  // when ensure_route returned, on the weights it left. Without an exception the state is
  // as ensure_route left it; with one, no route is left active unless the clean-up raises.
  lemma HookOutcome<T>(cfg: Config<T>, p: Plugin<T>, c: ForwardCall<T>)
    ensures var out := Ensured(cfg, p, c); var hook := PatchedForward(cfg, p.rt, p.active, c);
      && (hook.raised <==> out.result.Err? || c.forwardRaises)
      && hook.seen == (if out.result.Ok? then Some(out.state.weights) else None)
      && (!hook.raised ==> hook.state == out.state)
      && (hook.raised ==> hook.state == Evict(cfg.ops, out.state, c.cleanup))
      && (hook.raised && !EvictionRaises(out.state, c.cleanup) ==> hook.state.active == BASE)
  {
  }

  // What the hook leaves: it gets stuck exactly when its last rollback raises out of its
  // verification, be it the clean-up or, when there is nothing left to clean up, the undo.
  lemma HookKeeps<T(!new)>(cfg: Config<T>, world: World<T>, base: Weights<T>, p: Plugin<T>, c: ForwardCall<T>)
    requires PluginInv(cfg, world, base, p) && PossibleEvent(world, p, Forward(c)) && SafeForward(cfg, p, c)
    ensures var out := Ensured(cfg, p, c); var e := PatchedForward(cfg, p.rt, p.active, c).state;
      && Inv(cfg, world, base, e)
      && (StuckPhase(e.phase) <==>
            if (out.result.Err? || c.forwardRaises) && out.state.active != BASE
            then Escapes(out.state.store, c.cleanup) else StuckPhase(out.state.phase))
      && (CleanEvent(Forward(c)) && p.rt.phase != WorkerQuarantined ==> e.phase != WorkerQuarantined)
      && (EventComputes(Forward(c)) && !StuckPhase(p.rt.phase) ==> !StuckPhase(e.phase))
  {
    var call := c.ensure.(routeId := p.active);
    ResidentRuns.StepKeeps(cfg, world, base, p.rt, Ensure(call));
    var out := Ensured(cfg, p, c);
    if out.result.Err? || c.forwardRaises {
      CleanupKeeps(cfg, world, base, out.state, c.cleanup);
    }
  }

  lemma CleanupKeeps<T(!new)>(cfg: Config<T>, world: World<T>, base: Weights<T>, s: Runtime<T>, o: RollbackOutcome<T>)
    requires Inv(cfg, world, base, s) && SafeEviction(cfg, s, o)
    ensures var e := ClearActiveRoute(cfg, s, o).0;
      && Inv(cfg, world, base, e)
      && (StuckPhase(e.phase) <==> if s.active != BASE then Escapes(s.store, o) else StuckPhase(s.phase))
      && (e.phase == WorkerQuarantined ==> s.phase == WorkerQuarantined || o.Torn?)
  {
    if s.phase != WorkerQuarantined {
      ResidentRuns.EvictKeeps(cfg, world, base, s, o);
    }
  }

  lemma ForwardKeeps<T(!new)>(cfg: Config<T>, world: World<T>, base: Weights<T>, p: Plugin<T>, c: ForwardCall<T>)
    requires PluginInv(cfg, world, base, p) && PossibleEvent(world, p, Forward(c)) && SafeForward(cfg, p, c)
    ensures var p' := PluginStep(cfg, p, Forward(c));
      && PluginInv(cfg, world, base, p')
      && (EventComputes(Forward(c)) && NoneStuck(p) ==> NoneStuck(p'))
      && (CleanEvent(Forward(c)) && NoneQuarantined(p) ==> NoneQuarantined(p'))
  {
    HookKeeps(cfg, world, base, p, c);
    if Passed(cfg, p, c) != [] {
      PassIsExact(cfg, world, base, p, c);
    }
  }

  lemma QueueKeeps<T>(cfg: Config<T>, world: World<T>, base: Weights<T>, p: Plugin<T>, ev: S.Event)
    requires PluginInv(cfg, world, base, p) && S.Possible(p.sched, ev)
    ensures PluginInv(cfg, world, base, PluginStep(cfg, p, Queue(ev)))
  {
    S.StepHomogeneous(p.sched, ev);
  }

  lemma {:induction false} PluginRunKeeps<T(!new)>(
      cfg: Config<T>, world: World<T>, base: Weights<T>, p: Plugin<T>, run: seq<PluginEvent<T>>)
    requires PluginInv(cfg, world, base, p) && PossiblePluginRun(cfg, world, p, run) && SafePluginRun(cfg, p, run)
    ensures var p' := PluginRun(cfg, p, run);
      && PluginInv(cfg, world, base, p')
      && (NoneStuck(p) && (forall i :: 0 <= i < |run| ==> EventComputes(run[i])) ==> NoneStuck(p'))
      && (NoneQuarantined(p) && (forall i :: 0 <= i < |run| ==> CleanEvent(run[i])) ==> NoneQuarantined(p'))
    decreases |run|
  {
    if run != [] {
      assert run[0] in run;
      match run[0] {
        case Queue(ev) => QueueKeeps(cfg, world, base, p, ev);
        case Forward(c) => ForwardKeeps(cfg, world, base, p, c);
        case Manage(op) =>
      }
      PluginRunKeeps(cfg, world, base, PluginStep(cfg, p, run[0]), run[1..]);
    }
  }

  lemma {:induction false} CleanRunIsSafe<T(!new)>(cfg: Config<T>, p: Plugin<T>, run: seq<PluginEvent<T>>)
    requires forall i :: 0 <= i < |run| ==> CleanEvent(run[i])
    ensures SafePluginRun(cfg, p, run)
    decreases |run|
  {
    if run != [] {
      assert run[0] in run;
      CleanRunIsSafe(cfg, PluginStep(cfg, p, run[0]), run[1..]);
    }
  }

  // The plugin before its first request.
  ghost function Unused<T>(rt: Runtime<T>): Plugin<T> {
    Plugin(S.Sched([], [], [], None), rt, BASE, None, [])
  }

  // No capture of the event fails to compute a checksum.
  ghost predicate ChecksumsComputed<T>(e: PluginEvent<T>) {
    e.Forward? ==> !e.c.ensure.captureFault.ChecksumRaises?
  }

  // Rollbacks may then do anything.
  lemma {:induction false} CheckedRunIsSafe<T(!new)>(cfg: Config<T>, p: Plugin<T>, run: seq<PluginEvent<T>>)
    requires Collisionless(cfg.ops) && Covered(p.rt.store)
    requires forall i :: 0 <= i < |run| ==> ChecksumsComputed(run[i])
    ensures SafePluginRun(cfg, p, run)
    decreases |run|
  {
    if run != [] {
      assert run[0] in run;
      if run[0].Forward? {
        CheckedForward(cfg, p, run[0].c);
      }
      CheckedRunIsSafe(cfg, PluginStep(cfg, p, run[0]), run[1..]);
    }
  }

  lemma CheckedForward<T(!new)>(cfg: Config<T>, p: Plugin<T>, c: ForwardCall<T>)
    requires Collisionless(cfg.ops) && Covered(p.rt.store) && ChecksumsComputed(Forward(c))
    ensures SafeForward(cfg, p, c) && Covered(PluginStep(cfg, p, Forward(c)).rt.store)
  {
    ResidentRuns.CheckedStep(cfg, p.rt, Ensure(c.ensure.(routeId := p.active)));
    ResidentRuns.CheckedStep(cfg, Ensured(cfg, p, c).state, Clear(c.cleanup));
  }

  // ----- Where a resident route comes from -----

  // At event i the hook swapped route `id` in: it was the active one, the registry of that
  // moment gave it to the call's tenant, and ensure_route returned.
  ghost predicate SwapsInAt<T>(cfg: Config<T>, p: Plugin<T>, run: seq<PluginEvent<T>>, i: nat, id: RouteId) {
    && i < |run| && run[i].Forward?
    && var q := PluginRun(cfg, p, run[..i]);
      && q.active == id && Executable(q.rt.registry, id, cfg.modelHash, run[i].c.ensure.tenant)
      && OpenTo(q.rt.registry.routes[id], cfg.modelHash, run[i].c.ensure.tenant)
      && Ensured(cfg, q, run[i].c).result.Ok?
  }

  ghost predicate SwappedIn<T>(cfg: Config<T>, p: Plugin<T>, run: seq<PluginEvent<T>>, id: RouteId) {
    exists i: nat :: SwapsInAt(cfg, p, run, i, id)
  }

  lemma {:induction false} PluginRunLast<T>(cfg: Config<T>, p: Plugin<T>, run: seq<PluginEvent<T>>)
    requires run != []
    ensures PluginRun(cfg, p, run) == PluginStep(cfg, PluginRun(cfg, p, run[..|run| - 1]), run[|run| - 1])
    decreases |run|
  {
    var n := |run| - 1;
    if n > 0 {
      PluginRunLast(cfg, PluginStep(cfg, p, run[0]), run[1..]);
      assert run[1..][..n - 1] == run[..n][1..];
    }
  }

  lemma SwappedInEarlier<T>(cfg: Config<T>, p: Plugin<T>, run: seq<PluginEvent<T>>, n: nat, id: RouteId)
    requires n <= |run| && SwappedIn(cfg, p, run[..n], id)
    ensures SwappedIn(cfg, p, run, id)
  {
    var i: nat :| SwapsInAt(cfg, p, run[..n], i, id);
    assert run[..n][..i] == run[..i];
    assert SwapsInAt(cfg, p, run, i, id);
  }

  // A forward call leaves the route named as active that was before, or none, or the one it
  // swaps in; a pass it makes is on the last.
  lemma ForwardRoute<T>(cfg: Config<T>, p: Plugin<T>, c: ForwardCall<T>)
    ensures PluginStep(cfg, p, Forward(c)).rt.active in {BASE, p.rt.active, p.active}
    ensures PluginStep(cfg, p, Forward(c)).rt.active !in {BASE, p.rt.active} || Passed(cfg, p, c) != [] ==>
      || p.active in {BASE, p.rt.active}
      || (Executable(p.rt.registry, p.active, cfg.modelHash, c.ensure.tenant) && Ensured(cfg, p, c).result.Ok?)
  {
    EnsureActive(cfg, p.rt, c.ensure.(routeId := p.active));
  }

  lemma EnsureActive<T>(cfg: Config<T>, s: Runtime<T>, c: EnsureCall<T>)
    ensures var out := EnsureRoute(cfg, s, c);
      && out.state.active in {BASE, s.active, c.routeId}
      && (out.result.Ok? || out.state.active !in {BASE, s.active} ==>
            || c.routeId in {BASE, s.active}
            || (Executable(s.registry, c.routeId, cfg.modelHash, c.tenant) && out.result.Ok?))
  {
  }

  // Over every run, whatever its faults: the route named as active, and that of every pass,
  // was swapped in by an earlier forward call.
  lemma {:induction false} RoutesWereSwappedIn<T>(cfg: Config<T>, p: Plugin<T>, run: seq<PluginEvent<T>>)
    requires p.rt.active == BASE && p.passes == []
    ensures var e := PluginRun(cfg, p, run);
      && (e.rt.active == BASE || SwappedIn(cfg, p, run, e.rt.active))
      && (forall i :: 0 <= i < |e.passes| ==> e.passes[i].route == BASE || SwappedIn(cfg, p, run, e.passes[i].route))
    decreases |run|
  {
    if run != [] {
      var n := |run| - 1;
      var q := PluginRun(cfg, p, run[..n]);
      PluginRunLast(cfg, p, run);
      RoutesWereSwappedIn(cfg, p, run[..n]);
      forall id | SwappedIn(cfg, p, run[..n], id) ensures SwappedIn(cfg, p, run, id) {
        SwappedInEarlier(cfg, p, run, n, id);
      }
      if run[n].Forward? {
        ForwardRoute(cfg, q, run[n].c);
        if Executable(q.rt.registry, q.active, cfg.modelHash, run[n].c.ensure.tenant)
            && Ensured(cfg, q, run[n].c).result.Ok? {
          ExecutableMeans(q.rt.registry, q.active, cfg.modelHash, run[n].c.ensure.tenant);
          assert SwapsInAt(cfg, p, run, n, q.active);
        }
      }
    }
  }

  // End to end: in any alternation of patched schedules and patched forward passes, with
  // requests arriving, finishing and being aborted in between, every forward pass runs on
  // the weights of the one route that all requests of its batch share, unless the worker
  // is quarantined or stuck; and that route was swapped in before, for a tenant the registry
  // gave it to. While no rollback raises out of its verification no pass runs
  // on a stuck worker, and without rollback faults none on a quarantined one.
  lemma EveryPassOnItsRoute<T(!new)>(
      cfg: Config<T>, world: World<T>, base: Weights<T>, rt: Runtime<T>, run: seq<PluginEvent<T>>)
    requires Fresh(world, base, rt) && PossiblePluginRun(cfg, world, Unused(rt), run)
    requires
      || (forall i :: 0 <= i < |run| ==> CleanEvent(run[i]))
      || SafePluginRun(cfg, Unused(rt), run)
      || (Collisionless(cfg.ops) && forall i :: 0 <= i < |run| ==> ChecksumsComputed(run[i]))
    ensures var p := PluginRun(cfg, Unused(rt), run);
      && (forall i :: 0 <= i < |p.passes| ==> PassExact(cfg, world, base, p.passes[i]))
      && (forall i :: 0 <= i < |p.passes| ==>
            p.passes[i].route == BASE || SwappedIn(cfg, Unused(rt), run, p.passes[i].route))
      && ((forall i :: 0 <= i < |run| ==> EventComputes(run[i])) ==> NoneStuck(p))
      && ((forall i :: 0 <= i < |run| ==> CleanEvent(run[i])) ==>
            forall i :: 0 <= i < |p.passes| ==> p.passes[i].weights == RouteModel(cfg, world, base, p.passes[i].route))
  {
    if forall i :: 0 <= i < |run| ==> CleanEvent(run[i]) {
      CleanRunIsSafe(cfg, Unused(rt), run);
      assert forall i :: 0 <= i < |run| ==> CleanEvent(run[i]) ==> EventComputes(run[i]);
    } else if Collisionless(cfg.ops) && forall i :: 0 <= i < |run| ==> ChecksumsComputed(run[i]) {
      CheckedRunIsSafe(cfg, Unused(rt), run);
    }
    RoutesWereSwappedIn(cfg, Unused(rt), run);
    PluginRunKeeps(cfg, world, base, Unused(rt), run);
  }

  // A stuck worker does mislead a pass: when the forward raises and the clean-up raises out
  // of its verification, the route stays named as active over the base model, and the next
  // batch of that route runs on base weights.
  lemma StalePassAfterEscape<T>(
      cfg: Config<T>, base: Weights<T>, p: Plugin<T>, c: ForwardCall<T>, batch: seq<S.Request>, next: ForwardCall<T>)
    requires Sound(cfg.ops, base, p.rt.store) && Restorable(base, p.rt.weights, p.rt.store)
    requires p.rt.phase == Swapped && p.active == p.rt.active != BASE
    requires c.forwardRaises && c.cleanup == VerifyRaises(map[]) && p.rt.store.checksums.Keys != {}
    ensures var q := PluginStep(cfg, p, Forward(c)).(batch := Some(batch));
      && q.active == p.active && StuckPhase(q.rt.phase)
      && Passed(cfg, q, next) == [Pass(batch, p.active, base, q.rt.phase)]
  {
    ForwardEscapes(cfg, base, p, c);
  }

  lemma ForwardEscapes<T>(cfg: Config<T>, base: Weights<T>, p: Plugin<T>, c: ForwardCall<T>)
    requires Sound(cfg.ops, base, p.rt.store) && Restorable(base, p.rt.weights, p.rt.store)
    requires p.rt.phase == Swapped && p.active == p.rt.active != BASE
    requires c.forwardRaises && c.cleanup == VerifyRaises(map[]) && p.rt.store.checksums.Keys != {}
    ensures PluginStep(cfg, p, Forward(c)).rt == p.rt.(weights := base, phase := RollingBack)
  {
    ResidentRuns.EvictionEscapes(cfg, base, p.rt);
  }
}
