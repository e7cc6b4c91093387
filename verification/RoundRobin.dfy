/** Fairness of the patched scheduler: shelving and restoring moves the served route
    behind the others, so routes take turns. */
module RoundRobin {
  import opened Prelude
  import opened SchedulerPatch

  ghost predicate Present(q: seq<Request>, r: RouteId) {
    Matching(q, r) != []
  }

  // The routes that occur in the queue before the first request of route `r`.
  ghost function Ahead(q: seq<Request>, r: RouteId): set<RouteId> {
    if q == [] || RouteOf(q[0]) == r then {} else {RouteOf(q[0])} + Ahead(q[1..], r)
  }

  lemma {:induction false} AheadAppend(q: seq<Request>, x: seq<Request>, r: RouteId)
    requires Present(q, r)
    ensures Present(q + x, r) && Ahead(q + x, r) == Ahead(q, r)
  {
    assert (q + x)[0] == q[0] && (q + x)[1..] == q[1..] + x;
    if RouteOf(q[0]) != r {
      AheadAppend(q[1..], x, r);
    }
  }

  lemma {:induction false} AheadOthers(q: seq<Request>, t: RouteId, r: RouteId)
    requires Present(q, r) && t != r
    ensures Present(Others(q, t), r) && Ahead(Others(q, t), r) == Ahead(q, r) - {t}
  {
    if RouteOf(q[0]) == t {
      assert Others(q, t) == Others(q[1..], t);
      AheadOthers(q[1..], t, r);
    } else {
      assert Others(q, t)[0] == q[0] && Others(q, t)[1..] == Others(q[1..], t);
      if RouteOf(q[0]) != r {
        AheadOthers(q[1..], t, r);
      }
    }
  }

  // ----- One step -----

  ghost predicate IdleSchedule(s: Sched, ev: Event) {
    ev.Schedule? && s.running == []
  }

  ghost predicate Targets(s: Sched, ev: Event, r: RouteId) {
    ev.Schedule? && TargetRoute(s) == r
  }

  // Requests ahead whose route is the empty string keep every route but the base model's
  // from its turn: the target falls back to the base model and they stay at the front.
  ghost predicate Blocked(q: seq<Request>, r: RouteId) {
    r != BASE && (r == "" || "" in Ahead(q, r))
  }

  lemma StepAhead(s: Sched, ev: Event, r: RouteId)
    requires Homogeneous(s.running) && Possible(s, ev) && !ev.Abort?
    requires Present(s.waiting, r) && !Targets(s, ev, r)
    ensures Present(Step(s, ev).waiting, r)
    ensures Ahead(Step(s, ev).waiting, r)
      == if ev.Schedule? then Ahead(s.waiting, r) - {TargetRoute(s)} else Ahead(s.waiting, r)
  {
    match ev
    case Arrive(x) => AheadAppend(s.waiting, [x], r);
    case Finish(_) =>
    case Schedule(e) =>
      AheadOthers(s.waiting, TargetRoute(s), r);
      AheadAppend(Others(s.waiting, TargetRoute(s)), e.waiting, r);
  }

  // A schedule that starts idle and passes over an unblocked route serves one ahead of it.
  lemma IdleServesAhead(s: Sched, r: RouteId)
    requires s.running == [] && Present(s.waiting, r) && TargetRoute(s) != r && !Blocked(s.waiting, r)
    ensures TargetRoute(s) in Ahead(s.waiting, r)
  {
  }

  // A schedule that starts idle never targets a blocked route.
  lemma BlockedNotTargeted(s: Sched, r: RouteId)
    requires s.running == [] && Present(s.waiting, r) && Blocked(s.waiting, r)
    ensures TargetRoute(s) != r && TargetRoute(s) != ""
  {
  }

  // ----- Runs -----

  ghost function IdleSchedules(s: Sched, run: seq<Event>): nat
    decreases |run|
  {
    if run == [] then 0
    else (if IdleSchedule(s, run[0]) then 1 else 0) + IdleSchedules(Step(s, run[0]), run[1..])
  }

  // Some schedule of the run has route `r` as its target.
  ghost predicate Targeted(s: Sched, run: seq<Event>, r: RouteId)
    decreases |run|
  {
    run != [] && (Targets(s, run[0], r) || Targeted(Step(s, run[0]), run[1..], r))
  }

  ghost predicate NoAborts(run: seq<Event>) {
    run == [] || (!run[0].Abort? && NoAborts(run[1..]))
  }

  // Round robin: a route with p routes ahead of it in the waiting queue becomes the target
  // within p + 1 schedules that start idle, whatever arrives and finishes and whatever busy
  // schedules come in between.
  lemma {:induction false} RouteTakesItsTurn(s: Sched, run: seq<Event>, r: RouteId)
    requires Homogeneous(s.running) && PossibleRun(s, run) && NoAborts(run)
    requires Present(s.waiting, r) && !Blocked(s.waiting, r)
    requires IdleSchedules(s, run) > |Ahead(s.waiting, r)|
    ensures Targeted(s, run, r)
    decreases |run|
  {
    var ev := run[0];
    if !Targets(s, ev, r) {
      StepHomogeneous(s, ev);
      StepAhead(s, ev, r);
      var s' := Step(s, ev);
      if IdleSchedule(s, ev) {
        IdleServesAhead(s, r);
        assert Ahead(s.waiting, r) == Ahead(s'.waiting, r) + {TargetRoute(s)};
      } else {
        SmallerSet(Ahead(s'.waiting, r), Ahead(s.waiting, r));
      }
      RouteTakesItsTurn(s', run[1..], r);
    }
  }

  lemma {:induction false} SmallerSet<X>(a: set<X>, b: set<X>)
    requires a <= b
    ensures |a| <= |b|
  {
    if a != {} {
      var x :| x in a;
      SmallerSet(a - {x}, b - {x});
    }
  }

  // ----- The blocked routes, exactly -----

  ghost predicate EveryScheduleIdle(s: Sched, run: seq<Event>)
    decreases |run|
  {
    run == [] || ((run[0].Schedule? ==> s.running == []) && EveryScheduleIdle(Step(s, run[0]), run[1..]))
  }

  // A blocked route is never the target of a run whose schedules all start idle, however long.
  lemma {:induction false} BlockedRouteStarves(s: Sched, run: seq<Event>, r: RouteId)
    requires Homogeneous(s.running) && PossibleRun(s, run) && NoAborts(run) && EveryScheduleIdle(s, run)
    requires Present(s.waiting, r) && Blocked(s.waiting, r)
    ensures !Targeted(s, run, r)
    decreases |run|
  {
    if run != [] {
      var ev := run[0];
      if ev.Schedule? {
        BlockedNotTargeted(s, r);
      }
      StepHomogeneous(s, ev);
      StepAhead(s, ev, r);
      BlockedRouteStarves(Step(s, ev), run[1..], r);
    }
  }

  // The original scheduler may find nothing to run and leave its lists alone.
  lemma IdleStep(s: Sched) returns (ev: Event)
    requires s.running == []
    ensures ev.Schedule? && Possible(s, ev) && Step(s, ev).running == []
  {
    var t := TargetRoute(s);
    ev := Schedule(Engine([], Matching(s.waiting, t), Matching(s.skipped, t), Some([])));
  }

  lemma {:induction false} IdleRun(s: Sched, n: nat) returns (run: seq<Event>)
    requires s.running == []
    ensures PossibleRun(s, run) && NoAborts(run)
    ensures EveryScheduleIdle(s, run) && IdleSchedules(s, run) == n
    decreases n
  {
    run := [];
    if n > 0 {
      var ev := IdleStep(s);
      var rest := IdleRun(Step(s, ev), n - 1);
      run := [ev] + rest;
      assert run[1..] == rest;
    }
  }

  // The premise of round robin: an abort-free run with enough idle schedules.
  ghost predicate LongEnough(s: Sched, run: seq<Event>, r: RouteId) {
    PossibleRun(s, run) && NoAborts(run) && IdleSchedules(s, run) > |Ahead(s.waiting, r)|
  }

  // Round robin holds of a waiting route exactly when the queue does not block it.
  lemma RoundRobinIffNotBlocked(s: Sched, r: RouteId)
    requires s.running == [] && Present(s.waiting, r)
    ensures (forall run :: LongEnough(s, run, r) ==> Targeted(s, run, r)) <==> !Blocked(s.waiting, r)
  {
    if Blocked(s.waiting, r) {
      var n := |Ahead(s.waiting, r)| + 1;
      var run := IdleRun(s, n);
      BlockedRouteStarves(s, run, r);
      assert LongEnough(s, run, r);
    } else {
      forall run | LongEnough(s, run, r) ensures Targeted(s, run, r) {
        RouteTakesItsTurn(s, run, r);
      }
    }
  }
}
