/** Where a resident route comes from, and how long it is served. */
module RouteAdmission {
  import opened Prelude
  import opened Tensors
  import opened RuntimeState
  import opened RouteRegistry
  import opened HotSwapModel
  import opened ResidentRuns

  // ----- Where it comes from -----

  // The registry gives the route of the call to its tenant, and ensure_route returns.
  ghost predicate SwapsIn<T>(cfg: Config<T>, s: Runtime<T>, c: EnsureCall<T>) {
    && s.active != c.routeId && Executable(s.registry, c.routeId, cfg.modelHash, c.tenant)
    && EnsureRoute(cfg, s, c).result.Ok?
  }

  // Event i of the run swapped route `id` in, which has been named as active ever since.
  ghost predicate SwappedInAt<T>(cfg: Config<T>, s: Runtime<T>, run: seq<Event<T>>, i: nat, id: RouteId) {
    && i < |run| && run[i].Ensure? && run[i].c.routeId == id
    && SwapsIn(cfg, Run(cfg, s, run[..i]), run[i].c)
    && forall j :: i < j <= |run| ==> Run(cfg, s, run[..j]).active == id
  }

  lemma {:induction false} RunLast<T>(cfg: Config<T>, s: Runtime<T>, run: seq<Event<T>>)
    requires run != []
    ensures Run(cfg, s, run) == Step(cfg, Run(cfg, s, run[..|run| - 1]), run[|run| - 1])
    decreases |run|
  {
    var n := |run| - 1;
    if n > 0 {
      RunLast(cfg, Step(cfg, s, run[0]), run[1..]);
      assert run[1..][..n - 1] == run[..n][1..];
    }
  }

  // A call that makes a route active is its own ensure_route, which the registry lets in.
  lemma StepRoute<T>(cfg: Config<T>, s: Runtime<T>, e: Event<T>)
    ensures var id := Step(cfg, s, e).active;
      || id in {BASE, s.active}
      || (e.Ensure? && e.c.routeId == id && Executable(s.registry, id, cfg.modelHash, e.c.tenant)
          && EnsureRoute(cfg, s, e.c).result.Ok?)
  {
  }

  // In every run, whatever its faults, the route named as active was swapped in by a call
  // of the run, for a tenant that the registry of that moment gave it to.
  lemma {:induction false} ActiveWasSwappedIn<T>(cfg: Config<T>, s: Runtime<T>, run: seq<Event<T>>) returns (i: nat)
    requires s.active == BASE && Run(cfg, s, run).active != BASE
    ensures SwappedInAt(cfg, s, run, i, Run(cfg, s, run).active)
    decreases |run|
  {
    var n := |run| - 1;
    var id, before := Run(cfg, s, run).active, Run(cfg, s, run[..n]);
    RunLast(cfg, s, run);
    StepRoute(cfg, before, run[n]);
    if before.active == id {
      i := ActiveWasSwappedIn(cfg, s, run[..n]);
      StillActive(cfg, s, run, i, id);
    } else {
      i := n;
      NowActive(cfg, s, run, id);
    }
  }

  lemma NowActive<T>(cfg: Config<T>, s: Runtime<T>, run: seq<Event<T>>, id: RouteId)
    requires run != [] && Run(cfg, s, run).active == id
    requires var e := run[|run| - 1];
      e.Ensure? && e.c.routeId == id && SwapsIn(cfg, Run(cfg, s, run[..|run| - 1]), e.c)
    ensures SwappedInAt(cfg, s, run, |run| - 1, id)
  {
    assert run[..|run|] == run;
  }

  // One event more that leaves the route active.
  lemma StillActive<T>(cfg: Config<T>, s: Runtime<T>, run: seq<Event<T>>, i: nat, id: RouteId)
    requires run != [] && SwappedInAt(cfg, s, run[..|run| - 1], i, id) && Run(cfg, s, run).active == id
    ensures SwappedInAt(cfg, s, run, i, id)
  {
    var n := |run| - 1;
    assert run[..n][..i] == run[..i];
    assert run[..|run|] == run;
    forall j | i < j <= |run| ensures Run(cfg, s, run[..j]).active == id {
      assert j <= n ==> run[..n][..j] == run[..j];
    }
  }

  // The route was in the registry then, in production where it had a status, for this model and
  // open to the tenant of the call.
  lemma ActiveWasOpen<T>(cfg: Config<T>, s: Runtime<T>, run: seq<Event<T>>) returns (i: nat)
    requires s.active == BASE && Run(cfg, s, run).active != BASE
    ensures i < |run| && run[i].Ensure? && run[i].c.routeId == Run(cfg, s, run).active
    ensures forall j :: i < j <= |run| ==> Run(cfg, s, run[..j]).active == Run(cfg, s, run).active
    ensures var g, id := Run(cfg, s, run[..i]).registry, Run(cfg, s, run).active;
      && id in g.routes && g.routes[id].modelHash == cfg.modelHash
      && (g.routes[id].tenant.None? || g.routes[id].tenant.value in {"", run[i].c.tenant})
      && (id in g.statuses ==> g.statuses[id] == Production)
  {
    i := ActiveWasSwappedIn(cfg, s, run);
    ExecutableMeans(Run(cfg, s, run[..i]).registry, Run(cfg, s, run).active, cfg.modelHash, run[i].c.tenant);
  }

  // ----- How long it is served -----

  // A call changes the registry only where it is a registry call.
  lemma StepStaysWithdrawn<T>(cfg: Config<T>, s: Runtime<T>, e: Event<T>, id: RouteId)
    requires Withdrawn(s.registry, id)
    requires e.Admin? && e.op.Register? && e.op.verified ==> e.op.id != id
    ensures Withdrawn(Step(cfg, s, e).registry, id)
  {
    if e.Ensure? {
      EnsureKeepsRegistry(cfg, s, e.c);
    }
  }

  lemma EnsureKeepsRegistry<T>(cfg: Config<T>, s: Runtime<T>, c: EnsureCall<T>)
    ensures EnsureRoute(cfg, s, c).state.registry == s.registry
  {
    if Attempts(cfg, s, c) {
      var deltas := DeltasUsed(cfg, s, c);
      AttemptIsSwap(cfg, s, c);
      SwapOrUndoFrame(cfg, Evicted(cfg, s, c, deltas), s.registry.routes[c.routeId], deltas, c);
    }
  }

  lemma {:induction false} RunStaysWithdrawn<T>(cfg: Config<T>, s: Runtime<T>, run: seq<Event<T>>, id: RouteId)
    requires Withdrawn(s.registry, id)
    requires forall i :: 0 <= i < |run| && run[i].Admin? && run[i].op.Register? && run[i].op.verified ==>
        run[i].op.id != id
    ensures Withdrawn(Run(cfg, s, run).registry, id)
    decreases |run|
  {
    if run != [] {
      assert run[0] in run;
      StepStaysWithdrawn(cfg, s, run[0], id);
      RunStaysWithdrawn(cfg, Step(cfg, s, run[0]), run[1..], id);
    }
  }

  // Once a route is withdrawn, and until it is registered again, a call for it on a worker
  // that is not quarantined raises exactly when it is not the active route: a resident
  // route goes on being served, to every tenant, since activity is tested before the registry.
  lemma WithdrawnServedIffActive<T>(cfg: Config<T>, s: Runtime<T>, run: seq<Event<T>>, c: EnsureCall<T>)
    requires Withdrawn(s.registry, c.routeId) && c.routeId != BASE
    requires forall i :: 0 <= i < |run| && run[i].Admin? && run[i].op.Register? && run[i].op.verified ==>
        run[i].op.id != c.routeId
    requires Run(cfg, s, run).phase != WorkerQuarantined
    ensures var e := Run(cfg, s, run); EnsureRoute(cfg, e, c).result.Err? <==> e.active != c.routeId
  {
    RunStaysWithdrawn(cfg, s, run, c.routeId);
    var e := Run(cfg, s, run);
    assert Evict(cfg.ops, e, c.evict).registry == e.registry;
  }
}
