/** The vLLM scheduler patch: shelve the requests of other routes, let the original
    scheduler run on what is left, restore. The original `schedule()` is a step the
    model does not look into: it moves the requests it is given, and it may raise. */
module SchedulerPatch {
  import opened Prelude

  // `recorded` is what the plugin's metrics table holds for the request's id.
  datatype Request = Request(id: nat, routeAttr: RouteId, recorded: Option<RouteId>)

  function RouteOf(r: Request): RouteId {
    if r.routeAttr != "" then r.routeAttr
    else if r.recorded.Some? then r.recorded.value
    else BASE
  }

  // The request belongs to route `t`: by its own route id if it has one, else by the one
  // recorded for its id, else to the base model.
  ghost predicate Belongs(r: Request, t: RouteId) {
    && (r.routeAttr != "" ==> r.routeAttr == t)
    && (r.routeAttr == "" && r.recorded.Some? ==> r.recorded.value == t)
    && (r.routeAttr == "" && r.recorded.None? ==> t == "__base__")
  }

  lemma RouteOfMeans(r: Request, t: RouteId)
    ensures RouteOf(r) == t <==> Belongs(r, t)
  {
  }

  ghost predicate AllBelong(q: seq<Request>, t: RouteId) {
    forall i :: 0 <= i < |q| ==> Belongs(q[i], t)
  }

  lemma AllOfMeans(q: seq<Request>, t: RouteId)
    ensures AllOf(q, t) <==> AllBelong(q, t)
  {
    forall i | 0 <= i < |q| ensures RouteOf(q[i]) == t <==> Belongs(q[i], t) {
      RouteOfMeans(q[i], t);
    }
  }

  // ----- Queues -----

  // The requests of route `t`, and those of all other routes, in order.
  function Matching(q: seq<Request>, t: RouteId): seq<Request> {
    if q == [] then [] else (if RouteOf(q[0]) == t then [q[0]] else []) + Matching(q[1..], t)
  }

  function Others(q: seq<Request>, t: RouteId): seq<Request> {
    if q == [] then [] else (if RouteOf(q[0]) == t then [] else [q[0]]) + Others(q[1..], t)
  }

  ghost predicate AllOf(q: seq<Request>, t: RouteId) {
    forall i :: 0 <= i < |q| ==> RouteOf(q[i]) == t
  }

  class RequestQueue {
    var items: seq<Request>

    constructor ()
      ensures items == []
    {
      items := [];
    }

    method PopRequest() returns (r: Request)
      requires items != []
      modifies this
      ensures r == old(items)[0] && items == old(items)[1..]
    {
      r := items[0];
      items := items[1..];
    }

    method AddRequest(r: Request)
      modifies this
      ensures items == old(items) + [r]
    {
      items := items + [r];
    }

    method PrependRequest(r: Request)
      modifies this
      ensures items == [r] + old(items)
    {
      items := [r] + items;
    }
  }

  method ShelveQueue(queue: RequestQueue, target: RouteId) returns (shelved: seq<Request>)
    modifies queue
    ensures queue.items == Matching(old(queue.items), target)
    ensures shelved == Others(old(queue.items), target)
  {
    var matching: seq<Request> := [];
    shelved := [];
    while queue.items != []
      invariant matching + Matching(queue.items, target) == Matching(old(queue.items), target)
      invariant shelved + Others(queue.items, target) == Others(old(queue.items), target)
      decreases |queue.items|
    {
      ghost var rest := queue.items[1..];
      ghost var m, o := Matching(rest, target), Others(rest, target);
      var r := queue.PopRequest();
      Snoc(matching, r, m);
      Snoc(shelved, r, o);
      if RouteOf(r) == target {
        matching := matching + [r];
      } else {
        shelved := shelved + [r];
      }
    }
    for i := 0 to |matching|
      invariant queue.items == matching[..i]
    {
      queue.AddRequest(matching[i]);
    }
  }

  method RestoreQueue(queue: RequestQueue, shelved: seq<Request>)
    modifies queue
    ensures queue.items == shelved + old(queue.items)
  {
    var i := |shelved|;
    while i > 0
      invariant 0 <= i <= |shelved|
      invariant queue.items == shelved[i..] + old(queue.items)
    {
      i := i - 1;
      queue.PrependRequest(shelved[i]);
    }
  }

  lemma Snoc(a: seq<Request>, r: Request, b: seq<Request>)
    ensures a + ([r] + b) == (a + [r]) + b && a + ([] + b) == a + b
  {
  }

  // ----- One patched step -----

  datatype Sched = Sched(running: seq<Request>, waiting: seq<Request>, skipped: seq<Request>, active: Option<RouteId>)

  // What the original schedule() leaves behind: its lists, and the requests it scheduled
  // or None if it raised.
  datatype Engine = Engine(running: seq<Request>, waiting: seq<Request>, skipped: seq<Request>,
      scheduled: Option<seq<Request>>)

  datatype Outcome = EngineRaised | MixedBatch | Batch(requests: seq<Request>, route: RouteId)

  function TargetRoute(s: Sched): RouteId {
    var t := if s.running != [] then RouteOf(s.running[0]) else if s.waiting != [] then RouteOf(s.waiting[0]) else "";
    if t == "" then BASE else t
  }

  // Some request of the batch differs in route from the first.
  predicate Mixed(batch: seq<Request>) {
    exists i :: 0 <= i < |batch| && RouteOf(batch[i]) != RouteOf(batch[0])
  }

  function BatchRoute(batch: seq<Request>, target: RouteId): RouteId {
    if batch == [] then target else RouteOf(batch[0])
  }

  function PatchedSchedule(s: Sched, e: Engine): (Sched, Outcome) {
    var t := TargetRoute(s);
    var s1 := Sched(e.running, Others(s.waiting, t) + e.waiting, Others(s.skipped, t) + e.skipped, s.active);
    if e.scheduled.None? then (s1, EngineRaised)
    else if Mixed(e.scheduled.value) then (s1, MixedBatch)
    else (s1.(active := Some(BatchRoute(e.scheduled.value, t))),
        Batch(e.scheduled.value, BatchRoute(e.scheduled.value, t)))
  }

  // The target is the route of the first running request, or else of the first waiting one,
  // or else the base model, which also stands in for an empty route id.
  lemma TargetMeans(s: Sched)
    ensures var t := TargetRoute(s);
      && t != ""
      && (s.running != [] ==> Belongs(s.running[0], t) || (Belongs(s.running[0], "") && t == "__base__"))
      && (s.running == [] && s.waiting != [] ==>
            Belongs(s.waiting[0], t) || (Belongs(s.waiting[0], "") && t == "__base__"))
      && (s.running == [] && s.waiting == [] ==> t == "__base__")
  {
  }

  // The outcome: the original's own exception; or its batch under the one route that all of
  // it belongs to, or under the target when it is empty, which is then active; or the
  // mixed-batch error exactly when there is no such route.
  lemma OutcomeMeans(s: Sched, e: Engine)
    ensures var (s', out) := PatchedSchedule(s, e);
      && s'.running == e.running
      && (out == EngineRaised <==> e.scheduled.None?)
      && (out == MixedBatch <==> e.scheduled.Some? && forall t :: !AllBelong(e.scheduled.value, t))
      && (out.Batch? ==>
            && e.scheduled == Some(out.requests) && AllBelong(out.requests, out.route)
            && (out.requests == [] ==> out.route == TargetRoute(s)))
      && s'.active == if out.Batch? then Some(out.route) else s.active
  {
    if e.scheduled.Some? {
      var batch := e.scheduled.value;
      var t := BatchRoute(batch, TargetRoute(s));
      AllOfMeans(batch, t);
      if Mixed(batch) {
        forall x ensures !AllBelong(batch, x) {
          AllOfMeans(batch, x);
        }
      }
    }
  }

  // The original scheduler only moves requests between the lists it is given, without
  // losing or duplicating any, and schedules some of them.
  ghost predicate Moves(running: seq<Request>, waiting: seq<Request>, skipped: seq<Request>, e: Engine) {
    var given := multiset(running) + multiset(waiting) + multiset(skipped);
    && multiset(e.running) + multiset(e.waiting) + multiset(e.skipped) == given
    && (e.scheduled.Some? ==> forall r :: r in e.scheduled.value ==> r in given)
  }

  // It is given the running requests and the target's waiting ones.
  ghost predicate Admissible(s: Sched, e: Engine) {
    var t := TargetRoute(s);
    Moves(s.running, Matching(s.waiting, t), Matching(s.skipped, t), e)
  }

  class Scheduler {
    var running: seq<Request>
    const waiting: RequestQueue
    const skippedWaiting: RequestQueue
    var activeRouteId: Option<RouteId>

    ghost function View(): Sched
      reads this, waiting, skippedWaiting
    {
      Sched(running, waiting.items, skippedWaiting.items, activeRouteId)
    }

    ghost predicate Valid() {
      waiting != skippedWaiting
    }

    constructor ()
      ensures Valid() && fresh(waiting) && fresh(skippedWaiting) && View() == Sched([], [], [], None)
    {
      running := [];
      waiting := new RequestQueue();
      skippedWaiting := new RequestQueue();
      activeRouteId := None;
    }

    // The original schedule(), with the result it happens to have.
    method OriginalSchedule(e: Engine) returns (scheduled: Option<seq<Request>>)
      requires Valid() && Moves(running, waiting.items, skippedWaiting.items, e)
      modifies this, waiting, skippedWaiting
      ensures View() == Sched(e.running, e.waiting, e.skipped, old(activeRouteId)) && scheduled == e.scheduled
    {
      running, waiting.items, skippedWaiting.items := e.running, e.waiting, e.skipped;
      return e.scheduled;
    }

    // Step 1: the route of the first running request, else of the first waiting one.
    method ChooseTarget() returns (target: RouteId)
      ensures target == TargetRoute(View())
    {
      target := "";
      if running != [] {
        target := RouteOf(running[0]);
      } else if waiting.items != [] {
        target := RouteOf(waiting.items[0]);
      }
      if target == "" {
        target := BASE;
      }
    }

    // Steps 5 and 6: the safety net, then the active route.
    method Accept(batch: seq<Request>, target: RouteId) returns (r: Outcome)
      modifies this`activeRouteId
      ensures r == if Mixed(batch) then MixedBatch else Batch(batch, BatchRoute(batch, target))
      ensures activeRouteId == if Mixed(batch) then old(activeRouteId) else Some(BatchRoute(batch, target))
    {
      if exists i :: 0 <= i < |batch| && RouteOf(batch[i]) != RouteOf(batch[0]) {
        return MixedBatch;
      }
      var route := if batch == [] then target else RouteOf(batch[0]);
      activeRouteId := Some(route);
      return Batch(batch, route);
    }

    method Schedule(e: Engine) returns (r: Outcome)
      requires Valid() && Admissible(View(), e)
      modifies this, waiting, skippedWaiting
      ensures (View(), r) == PatchedSchedule(old(View()), e)
      ensures r == EngineRaised <==> e.scheduled.None?
      ensures r == MixedBatch <==> e.scheduled.Some? && forall t :: !AllBelong(e.scheduled.value, t)
      ensures r.Batch? ==> e.scheduled == Some(r.requests) && AllBelong(r.requests, r.route)
    {
      OutcomeMeans(View(), e);
      var target := ChooseTarget();
      var shelvedWaiting := ShelveQueue(waiting, target);
      var shelvedSkipped := ShelveQueue(skippedWaiting, target);
      var scheduled := OriginalSchedule(e);
      RestoreQueue(waiting, shelvedWaiting);
      RestoreQueue(skippedWaiting, shelvedSkipped);
      if scheduled.None? {
        return EngineRaised;
      }
      r := Accept(scheduled.value, target);
    }
  }

  // ----- Conservation -----

  lemma {:induction false} MatchingAllOf(q: seq<Request>, t: RouteId)
    ensures AllOf(Matching(q, t), t)
  {
    if q != [] {
      MatchingAllOf(q[1..], t);
    }
  }

  lemma {:induction false} MatchingSplits(q: seq<Request>, t: RouteId)
    ensures multiset(q) == multiset(Matching(q, t)) + multiset(Others(q, t))
  {
    if q != [] {
      MatchingSplits(q[1..], t);
      assert q == [q[0]] + q[1..];
    }
  }

  lemma {:induction false} MatchingConcat(a: seq<Request>, b: seq<Request>, r: RouteId)
    ensures Matching(a + b, r) == Matching(a, r) + Matching(b, r)
    decreases |a|
  {
    if a == [] {
      assert a + b == b;
    } else {
      var head := if RouteOf(a[0]) == r then [a[0]] else [];
      var ma, mb := Matching(a[1..], r), Matching(b, r);
      assert (a + b)[0] == a[0] && (a + b)[1..] == a[1..] + b;
      MatchingConcat(a[1..], b, r);
      assert Matching(a + b, r) == head + (ma + mb);
      assert head + (ma + mb) == (head + ma) + mb;
    }
  }

  lemma {:induction false} MatchingAll(q: seq<Request>, t: RouteId, r: RouteId)
    requires AllOf(q, t)
    ensures Matching(q, r) == if r == t then q else []
  {
    if q != [] {
      MatchingAll(q[1..], t, r);
    }
  }

  lemma {:induction false} OthersKeepOrder(q: seq<Request>, t: RouteId, r: RouteId)
    ensures Matching(Others(q, t), r) == if r == t then [] else Matching(q, r)
  {
    if q != [] {
      OthersKeepOrder(q[1..], t, r);
      MatchingConcat(if RouteOf(q[0]) == t then [] else [q[0]], Others(q[1..], t), r);
    }
  }

  // What the original scheduler leaves in a list all belongs to the target route, when
  // what was running did.
  lemma EngineStaysOnTarget(s: Sched, e: Engine)
    requires Admissible(s, e) && AllOf(s.running, TargetRoute(s))
    ensures var t := TargetRoute(s);
      && AllOf(e.running, t) && AllOf(e.waiting, t) && AllOf(e.skipped, t)
      && (e.scheduled.Some? ==> AllOf(e.scheduled.value, t))
  {
    var t := TargetRoute(s);
    MatchingAllOf(s.waiting, t);
    MatchingAllOf(s.skipped, t);
    var given := multiset(s.running) + multiset(Matching(s.waiting, t)) + multiset(Matching(s.skipped, t));
    assert forall r :: r in given ==> RouteOf(r) == t;
    assert forall r :: r in multiset(e.running) + multiset(e.waiting) + multiset(e.skipped) ==> r in given;
    forall i | 0 <= i < |e.running| ensures RouteOf(e.running[i]) == t { assert e.running[i] in multiset(e.running); }
    forall i | 0 <= i < |e.waiting| ensures RouteOf(e.waiting[i]) == t { assert e.waiting[i] in multiset(e.waiting); }
    forall i | 0 <= i < |e.skipped| ensures RouteOf(e.skipped[i]) == t { assert e.skipped[i] in multiset(e.skipped); }
  }

  // One list, with the other routes' requests restored in front of what was left.
  lemma RestoreConserves(q: seq<Request>, left: seq<Request>, t: RouteId)
    ensures multiset(Others(q, t) + left) + multiset(Matching(q, t)) == multiset(q) + multiset(left)
  {
    MatchingSplits(q, t);
  }

  lemma RestoreKeepsOrder(q: seq<Request>, left: seq<Request>, t: RouteId, r: RouteId, restored: seq<Request>)
    requires AllOf(left, t) && restored == Others(q, t) + left
    ensures Matching(restored, r) == if r == t then left else Matching(q, r)
  {
    OthersKeepOrder(q, t, r);
    MatchingConcat(Others(q, t), left, r);
    MatchingAll(left, t, r);
  }

  // Whether the original scheduler returns or raises, no request is lost or duplicated.
  lemma StepConserves(s: Sched, e: Engine)
    requires Admissible(s, e)
    ensures var s' := PatchedSchedule(s, e).0;
      && multiset(s'.running) + multiset(s'.waiting) + multiset(s'.skipped)
           == multiset(s.running) + multiset(s.waiting) + multiset(s.skipped)
  {
    var t := TargetRoute(s);
    RestoreConserves(s.waiting, e.waiting, t);
    RestoreConserves(s.skipped, e.skipped, t);
    var s' := PatchedSchedule(s, e).0;
    Exchange(multiset(s'.running), multiset(s'.waiting), multiset(s'.skipped),
      multiset(s.running), multiset(s.waiting), multiset(s.skipped),
      multiset(Matching(s.waiting, t)), multiset(Matching(s.skipped, t)), multiset(e.waiting), multiset(e.skipped));
  }

  // Lists w and k give up wGiven and kGiven and get wLeft and kLeft back; r makes up the rest.
  lemma Exchange(
      r': multiset<Request>, w': multiset<Request>, k': multiset<Request>,
      r: multiset<Request>, w: multiset<Request>, k: multiset<Request>,
      wGiven: multiset<Request>, kGiven: multiset<Request>, wLeft: multiset<Request>, kLeft: multiset<Request>)
    requires w' + wGiven == w + wLeft && k' + kGiven == k + kLeft
    requires r' + wLeft + kLeft == r + wGiven + kGiven
    ensures r' + w' + k' == r + w + k
  {
    forall x: Request ensures (r' + w' + k')[x] == (r + w + k)[x] {
      assert (w' + wGiven)[x] == (w + wLeft)[x];
      assert (k' + kGiven)[x] == (k + kLeft)[x];
      assert (r' + wLeft + kLeft)[x] == (r + wGiven + kGiven)[x];
    }
  }

  // Whether it returns or raises, every other route's waiting requests are exactly as they
  // were, in order, and the target's are what the original scheduler left of them.
  lemma StepKeepsOrder(s: Sched, e: Engine, r: RouteId)
    requires Admissible(s, e) && AllOf(s.running, TargetRoute(s))
    ensures var s' := PatchedSchedule(s, e).0; var t := TargetRoute(s);
      && Matching(s'.waiting, r) == (if r == t then e.waiting else Matching(s.waiting, r))
      && Matching(s'.skipped, r) == (if r == t then e.skipped else Matching(s.skipped, r))
      && s'.running == e.running
  {
    var t := TargetRoute(s);
    EngineStaysOnTarget(s, e);
    RestoreKeepsOrder(s.waiting, e.waiting, t, r, PatchedSchedule(s, e).0.waiting);
    RestoreKeepsOrder(s.skipped, e.skipped, t, r, PatchedSchedule(s, e).0.skipped);
  }

  // A scheduler that leaves its lists alone turns the queue into its stable partition,
  // the other routes first.
  lemma NoOpPartitions(s: Sched, e: Engine)
    requires e.running == s.running && e.waiting == Matching(s.waiting, TargetRoute(s))
        && e.skipped == Matching(s.skipped, TargetRoute(s))
    requires e.scheduled.None? || e.scheduled == Some([])
    ensures Admissible(s, e)
    ensures var s' := PatchedSchedule(s, e).0; var t := TargetRoute(s);
      && s'.running == s.running
      && s'.waiting == Others(s.waiting, t) + Matching(s.waiting, t)
      && s'.skipped == Others(s.skipped, t) + Matching(s.skipped, t)
  {
  }

  // ----- Runs -----

  // Between schedules requests arrive, running ones finish, and any may be aborted.
  datatype Event = Arrive(r: Request) | Finish(kept: seq<Request>) | Abort(id: nat) | Schedule(e: Engine)

  function Without(q: seq<Request>, id: nat): seq<Request> {
    if q == [] then [] else (if q[0].id == id then [] else [q[0]]) + Without(q[1..], id)
  }

  function Step(s: Sched, ev: Event): Sched {
    match ev
    case Arrive(r) => s.(waiting := s.waiting + [r])
    case Finish(kept) => s.(running := kept)
    case Abort(id) => s.(running := Without(s.running, id), waiting := Without(s.waiting, id),
        skipped := Without(s.skipped, id))
    case Schedule(e) => PatchedSchedule(s, e).0
  }

  ghost predicate Possible(s: Sched, ev: Event) {
    match ev
    case Finish(kept) => forall r :: r in kept ==> r in s.running
    case Schedule(e) => Admissible(s, e)
    case _ => true
  }

  function Run(s: Sched, run: seq<Event>): Sched
    decreases |run|
  {
    if run == [] then s else Run(Step(s, run[0]), run[1..])
  }

  ghost predicate PossibleRun(s: Sched, run: seq<Event>)
    decreases |run|
  {
    run == [] || (Possible(s, run[0]) && PossibleRun(Step(s, run[0]), run[1..]))
  }

  // The running requests share one route, and it is not the empty string.
  ghost predicate Homogeneous(running: seq<Request>) {
    running == [] || (RouteOf(running[0]) != "" && AllOf(running, RouteOf(running[0])))
  }

  lemma {:induction false} WithoutMembers(q: seq<Request>, id: nat)
    ensures forall r :: r in Without(q, id) ==> r in q
  {
    if q != [] {
      WithoutMembers(q[1..], id);
    }
  }

  lemma SubsetHomogeneous(q: seq<Request>, sub: seq<Request>)
    requires Homogeneous(q) && forall r :: r in sub ==> r in q
    ensures Homogeneous(sub)
  {
    forall i | 0 <= i < |sub| ensures q != [] && RouteOf(sub[i]) == RouteOf(q[0]) {
      assert sub[i] in q;
    }
  }

  lemma StepHomogeneous(s: Sched, ev: Event)
    requires Homogeneous(s.running) && Possible(s, ev)
    ensures Homogeneous(Step(s, ev).running)
    ensures ev.Schedule? ==> PatchedSchedule(s, ev.e).1 != MixedBatch
    ensures ev.Schedule? && ev.e.scheduled.Some? ==>
      PatchedSchedule(s, ev.e).1 == Batch(ev.e.scheduled.value, TargetRoute(s))
          && AllOf(ev.e.scheduled.value, TargetRoute(s))
  {
    match ev
    case Finish(kept) => SubsetHomogeneous(s.running, kept);
    case Abort(id) =>
      WithoutMembers(s.running, id);
      SubsetHomogeneous(s.running, Without(s.running, id));
    case Schedule(e) => EngineStaysOnTarget(s, e);
    case Arrive(_) =>
  }

  // Over every run from an empty running list, what runs shares one route, so the next
  // schedule, whatever the original scheduler does, returns a single-route batch tagged
  // with its route or raises the original's own exception: the mixed-batch error of the
  // safety net is unreachable.
  lemma {:induction false} BatchesStayHomogeneous(s: Sched, run: seq<Event>, e: Engine)
    requires Homogeneous(s.running) && PossibleRun(s, run) && Admissible(Run(s, run), e)
    ensures var s' := Run(s, run); var out := PatchedSchedule(s', e).1;
      && Homogeneous(s'.running)
      && (out == EngineRaised || (out.Batch? && AllOf(out.requests, out.route) && out.route == TargetRoute(s')))
      && (out.Batch? ==> out.requests == e.scheduled.value && AllBelong(out.requests, out.route))
    decreases |run|
  {
    if run == [] {
      StepHomogeneous(s, Schedule(e));
      OutcomeMeans(s, e);
    } else {
      StepHomogeneous(s, run[0]);
      BatchesStayHomogeneous(Step(s, run[0]), run[1..], e);
    }
  }
}
