/** The proxy's task-per-request batching. Every accepted request is queued with its
    future and starts one batch task; tasks take turns under the proxy lock, and each
    serves whatever its route's queue holds by then. */
module ProxyBatching {
  import opened Prelude

  const MAX_BATCH_SIZE: nat := 32

  datatype Request = Request(route: RouteId, tenant: string, prompt: string, maxTokens: int)

  // A backend answer, to the request it was computed from.
  datatype Response = Response(to: Request, body: string)

  type Future = nat

  datatype FutureState = Unresolved | Cancelled | Resolved(response: Response) | Failed(message: string)

  datatype RouteQueue = RouteQueue(requests: seq<Request>, futures: seq<Future>)

  // The batch that the lock holder is processing.
  datatype Job = Job(route: RouteId, requests: seq<Request>, futures: seq<Future>)

  datatype Proxy = Proxy(
    queues: map<RouteId, RouteQueue>,
    tasks: multiset<RouteId>,          // started tasks that have not had the lock yet
    job: Option<Job>,                  // held lock
    active: Option<RouteId>,           // current_active_route
    futures: map<Future, FutureState>,
    owner: map<Future, Request>)       // whose future it is

  const EMPTY := RouteQueue([], [])

  function QueueOf(p: Proxy, r: RouteId): RouteQueue {
    if r in p.queues then p.queues[r] else EMPTY
  }

  // ----- Steps -----

  // What happens between two awaits. Cancel is a client that went away.
  datatype Event =
    | Arrive(req: Request, fut: Future)
    | Start(route: RouteId)
    | Finish(bodies: seq<string>)
    | Crash(message: string)
    | Cancel(fut: Future)

  predicate Possible(p: Proxy, e: Event) {
    match e
    case Arrive(_, fut) => fut !in p.futures
    case Start(r) => r in p.tasks && p.job == None
    case Finish(bodies) => p.job.Some? && |bodies| == |p.job.value.requests|
    case Crash(_) => p.job.Some?
    case Cancel(fut) => fut in p.futures
  }

  // infer_endpoint, up to its await.
  function Enqueue(p: Proxy, req: Request, fut: Future): Proxy {
    var q := QueueOf(p, req.route);
    p.(queues := p.queues[req.route := RouteQueue(q.requests + [req], q.futures + [fut])],
       tasks := p.tasks + multiset{req.route},
       futures := p.futures[fut := Unresolved],
       owner := p.owner[fut := req])
  }

  function CutAt(n: nat): nat {
    if n < MAX_BATCH_SIZE then n else MAX_BATCH_SIZE
  }

  // _process_route_batch from taking the lock to its first await: nothing to do, or a batch.
  function Begin(p: Proxy, r: RouteId): Proxy
    requires r in p.tasks
  {
    var p1 := p.(tasks := p.tasks - multiset{r});
    var q := QueueOf(p, r);
    if q.requests == [] then p1
    else
      var n, m := CutAt(|q.requests|), CutAt(|q.futures|);
      p1.(queues := p.queues[r := RouteQueue(q.requests[n..], q.futures[m..])],
          job := Some(Job(r, q.requests[..n], q.futures[..m])),
          active := Some(r))
  }

  predicate DoneState(s: FutureState) {
    s != Unresolved
  }

  // The loop that hands results, or an exception, to the futures that are not done;
  // zip() stops at the shorter list.
  function Settle(states: map<Future, FutureState>, futs: seq<Future>, news: seq<FutureState>): map<Future, FutureState>
    decreases |futs|
  {
    if futs == [] || news == [] then states
    else
      var s := if futs[0] in states && DoneState(states[futs[0]]) then states else states[futs[0] := news[0]];
      Settle(s, futs[1..], news[1..])
  }

  // gather() keeps the order of its tasks: the i-th result answers the i-th request.
  function Answers(j: Job, bodies: seq<string>): seq<FutureState>
    requires |bodies| == |j.requests|
  {
    seq(|bodies|, i requires 0 <= i < |bodies| => Resolved(Response(j.requests[i], bodies[i])))
  }

  function Step(p: Proxy, e: Event): Proxy
    requires Possible(p, e)
  {
    match e
    case Arrive(req, fut) => Enqueue(p, req, fut)
    case Start(r) => Begin(p, r)
    case Finish(bodies) =>
      p.(job := None, futures := Settle(p.futures, p.job.value.futures, Answers(p.job.value, bodies)))
    case Crash(message) =>
      var futs := p.job.value.futures;
      p.(job := None, futures := Settle(p.futures, futs, seq(|futs|, _ => Failed(message))))
    case Cancel(fut) => if DoneState(p.futures[fut]) then p else p.(futures := p.futures[fut := Cancelled])
  }

  // ----- Invariant -----

  ghost predicate Distinct(futs: seq<Future>) {
    forall i, j :: 0 <= i < j < |futs| ==> futs[i] != futs[j]
  }

  // Requests of one route beside their own futures, none of which has been answered.
  ghost predicate Line(p: Proxy, r: RouteId, requests: seq<Request>, futs: seq<Future>) {
    && |requests| == |futs| && Distinct(futs)
    && forall i :: 0 <= i < |futs| ==>
         futs[i] in p.owner && p.owner[futs[i]] == requests[i] && requests[i].route == r
         && futs[i] in p.futures && p.futures[futs[i]] in {Unresolved, Cancelled}
  }

  ghost predicate QueuesInv(p: Proxy) {
    forall r :: r in p.queues ==>
        Line(p, r, p.queues[r].requests, p.queues[r].futures) && |p.queues[r].requests| <= p.tasks[r]
  }

  // The job's futures are no longer queued, and its route is the active one.
  ghost predicate JobInv(p: Proxy) {
    p.job.Some? ==>
      var j := p.job.value;
      && Line(p, j.route, j.requests, j.futures) && p.active == Some(j.route)
      && 0 < |j.requests| <= MAX_BATCH_SIZE
      && forall f :: f in j.futures ==> f !in QueueOf(p, j.route).futures
  }

  // A future that is not done is queued under its request's route or in the job, and an
  // answered future has the answer to its own request.
  ghost predicate FuturesInv(p: Proxy) {
    && p.futures.Keys == p.owner.Keys
    && forall f :: f in p.futures ==>
         && (p.futures[f] == Unresolved ==>
               f in QueueOf(p, p.owner[f].route).futures || (p.job.Some? && f in p.job.value.futures))
         && (p.futures[f].Resolved? ==> p.futures[f].response.to == p.owner[f])
  }

  ghost predicate Inv(p: Proxy) {
    QueuesInv(p) && JobInv(p) && FuturesInv(p)
  }

  lemma {:induction false} SettleEach(states: map<Future, FutureState>, futs: seq<Future>, news: seq<FutureState>)
    requires |futs| == |news| && Distinct(futs) && forall f :: f in futs ==> f in states
    ensures var s := Settle(states, futs, news);
      && s.Keys == states.Keys
      && (forall f :: f in states && f !in futs ==> s[f] == states[f])
      && (forall i :: 0 <= i < |futs| ==> s[futs[i]] == if DoneState(states[futs[i]]) then states[futs[i]] else news[i])
  {
    if futs != [] {
      var s := if DoneState(states[futs[0]]) then states else states[futs[0] := news[0]];
      SettleEach(s, futs[1..], news[1..]);
      assert forall i :: 1 <= i < |futs| ==> futs[i] == futs[1..][i - 1] && news[i] == news[1..][i - 1];
      assert futs[0] !in futs[1..];
    }
  }

  lemma EnqueueKeeps(p: Proxy, req: Request, fut: Future)
    requires Inv(p) && fut !in p.futures
    ensures Inv(Enqueue(p, req, fut))
  {
    var p' := Enqueue(p, req, fut);
    forall r | r in p'.queues
      ensures Line(p', r, p'.queues[r].requests, p'.queues[r].futures) && |p'.queues[r].requests| <= p'.tasks[r]
    {
      assert Line(p, r, QueueOf(p, r).requests, QueueOf(p, r).futures);
      NewFutureKeepsLine(p, req, fut, r, QueueOf(p, r).requests, QueueOf(p, r).futures);
    }
    if p.job.Some? {
      NewFutureKeepsLine(p, req, fut, p.job.value.route, p.job.value.requests, p.job.value.futures);
    }
  }

  // A line stays one, with or without the new request behind it.
  lemma NewFutureKeepsLine(p: Proxy, req: Request, fut: Future, r: RouteId, requests: seq<Request>, futs: seq<Future>)
    requires Line(p, r, requests, futs) && fut !in p.futures
    ensures Line(Enqueue(p, req, fut), r, requests, futs)
    ensures req.route == r ==> Line(Enqueue(p, req, fut), r, requests + [req], futs + [fut])
  {
  }

  lemma BeginKeeps(p: Proxy, r: RouteId)
    requires Inv(p) && r in p.tasks && p.job == None
    ensures Inv(Begin(p, r))
  {
    if QueueOf(p, r).requests != [] {
      BeginLines(p, r);
      BeginFutures(p, r);
    }
  }

  lemma BeginLines(p: Proxy, r: RouteId)
    requires Inv(p) && r in p.tasks && p.job == None && QueueOf(p, r).requests != []
    ensures QueuesInv(Begin(p, r)) && JobInv(Begin(p, r))
  {
    var p', q := Begin(p, r), QueueOf(p, r);
    LineSplits(p, p', r, q.requests, q.futures, CutAt(|q.requests|));
    forall x | x in p'.queues && x != r
      ensures Line(p', x, p'.queues[x].requests, p'.queues[x].futures)
    {
      LineSplits(p, p', x, p.queues[x].requests, p.queues[x].futures, 0);
    }
  }

  lemma BeginFutures(p: Proxy, r: RouteId)
    requires Inv(p) && r in p.tasks && p.job == None && QueueOf(p, r).requests != []
    ensures FuturesInv(Begin(p, r))
  {
    var q := QueueOf(p, r);
    var n := CutAt(|q.requests|);
    assert q.futures == q.futures[..n] + q.futures[n..];
  }

  // A line depends on the futures and their owners only, and can be cut anywhere.
  lemma LineSplits(p: Proxy, p': Proxy, r: RouteId, requests: seq<Request>, futs: seq<Future>, n: nat)
    requires Line(p, r, requests, futs) && n <= |futs| && p'.futures == p.futures && p'.owner == p.owner
    ensures Line(p', r, requests, futs)
    ensures Line(p', r, requests[..n], futs[..n]) && Line(p', r, requests[n..], futs[n..])
  {
  }

  // Settling the job: its futures are done, everything else is as it was.
  lemma SettleKeeps(p: Proxy, news: seq<FutureState>)
    requires Inv(p) && p.job.Some? && |news| == |p.job.value.futures|
    requires forall i :: 0 <= i < |news| ==>
      DoneState(news[i]) && (news[i].Resolved? ==> news[i].response.to == p.job.value.requests[i])
    ensures Inv(p.(job := None, futures := Settle(p.futures, p.job.value.futures, news)))
  {
    var j := p.job.value;
    SettleEach(p.futures, j.futures, news);
    var p' := p.(job := None, futures := Settle(p.futures, j.futures, news));
    forall r | r in p'.queues
      ensures Line(p', r, p'.queues[r].requests, p'.queues[r].futures)
    {
      var q := p.queues[r];
      assert forall i :: 0 <= i < |q.futures| ==> q.futures[i] !in j.futures;
    }
    forall f | f in p'.futures
      ensures p'.futures[f] == Unresolved ==> f in QueueOf(p', p'.owner[f].route).futures
      ensures p'.futures[f].Resolved? ==> p'.futures[f].response.to == p'.owner[f]
    {
      if f in j.futures {
        var k :| 0 <= k < |j.futures| && j.futures[k] == f;
        assert p.owner[j.futures[k]] == j.requests[k];
      }
    }
  }

  lemma CancelKeeps(p: Proxy, fut: Future)
    requires Inv(p) && fut in p.futures && !DoneState(p.futures[fut])
    ensures Inv(p.(futures := p.futures[fut := Cancelled]))
  {
    var p' := p.(futures := p.futures[fut := Cancelled]);
    assert forall r :: r in p'.queues ==> Line(p, r, p.queues[r].requests, p.queues[r].futures);
  }

  lemma StepKeeps(p: Proxy, e: Event)
    requires Inv(p) && Possible(p, e)
    ensures Inv(Step(p, e))
  {
    match e
    case Arrive(req, fut) => EnqueueKeeps(p, req, fut);
    case Start(r) => BeginKeeps(p, r);
    case Finish(bodies) => SettleKeeps(p, Answers(p.job.value, bodies));
    case Crash(message) => SettleKeeps(p, seq(|p.job.value.futures|, _ => Failed(message)));
    case Cancel(fut) =>
      if !DoneState(p.futures[fut]) {
        CancelKeeps(p, fut);
      }
  }

  // ----- Every interleaving -----

  function Run(p: Proxy, run: seq<Event>): Proxy
    requires PossibleRun(p, run)
    decreases |run|
  {
    if run == [] then p else Run(Step(p, run[0]), run[1..])
  }

  predicate PossibleRun(p: Proxy, run: seq<Event>)
    decreases |run|
  {
    run == [] || (Possible(p, run[0]) && PossibleRun(Step(p, run[0]), run[1..]))
  }

  const START := Proxy(map[], multiset{}, None, None, map[], map[])

  lemma {:induction false} RunKeeps(p: Proxy, run: seq<Event>)
    requires Inv(p) && PossibleRun(p, run)
    ensures Inv(Run(p, run))
    decreases |run|
  {
    if run != [] {
      StepKeeps(p, run[0]);
      RunKeeps(Step(p, run[0]), run[1..]);
    }
  }

  // In every interleaving: a route never has more pending requests than batch tasks still
  // to run; every resolved future holds the answer to its own request; a batch is at most
  // the maximum, of the active route only; and once all tasks have finished no request is
  // pending and every future is done.
  lemma NoRequestStranded(run: seq<Event>)
    requires PossibleRun(START, run)
    ensures var p := Run(START, run);
      && (forall r :: |QueueOf(p, r).requests| <= p.tasks[r])
      && (forall f :: f in p.futures && p.futures[f].Resolved? ==>
            f in p.owner && p.futures[f].response.to == p.owner[f])
      && (p.job.Some? ==> p.active == Some(p.job.value.route) && |p.job.value.requests| <= 32
                          && forall q :: q in p.job.value.requests ==> q.route == p.job.value.route)
      && (p.tasks == multiset{} && p.job == None ==>
            (forall r :: QueueOf(p, r).requests == []) && (forall f :: f in p.futures ==> p.futures[f] != Unresolved))
  {
    RunKeeps(START, run);
  }

  // ----- The order of service -----

  // Every queued request has its future at the same place.
  ghost predicate Aligned(q: RouteQueue) {
    |q.requests| == |q.futures|
  }

  // The task that gets the lock takes the first 32 requests of its route, or all if they
  // are fewer, with their futures; the rest stay, and so do the other routes' queues.
  lemma BatchIsFront(p: Proxy, r: RouteId)
    requires Aligned(QueueOf(p, r)) && r in p.tasks && p.job == None
    ensures var p', q := Begin(p, r), QueueOf(p, r); var n := |q.requests|;
      && p'.tasks == p.tasks - multiset{r} && p'.futures == p.futures && p'.owner == p.owner
      && (forall x :: x != r ==> QueueOf(p', x) == QueueOf(p, x))
      && (n == 0 ==> p'.job == None && p'.active == p.active && QueueOf(p', r) == q)
      && (n > 0 ==>
        && p'.job.Some? && p'.job.value.route == r && p'.active == Some(r)
        && |p'.job.value.requests| == |p'.job.value.futures| == (if n < 32 then n else 32)
        && p'.job.value.requests + QueueOf(p', r).requests == q.requests
        && p'.job.value.futures + QueueOf(p', r).futures == q.futures)
  {
  }

  function Join(a: RouteQueue, b: RouteQueue): RouteQueue {
    RouteQueue(a.requests + b.requests, a.futures + b.futures)
  }

  // What the event takes from the route's queue into a batch, and what it adds to it.
  function BatchOf(p: Proxy, e: Event, r: RouteId): RouteQueue
    requires Possible(p, e)
  {
    if e.Start? && e.route == r && Step(p, e).job.Some? then
      RouteQueue(Step(p, e).job.value.requests, Step(p, e).job.value.futures)
    else EMPTY
  }

  function Arriving(e: Event, r: RouteId): RouteQueue {
    if e.Arrive? && e.req.route == r then RouteQueue([e.req], [e.fut]) else EMPTY
  }

  function Taken(p: Proxy, run: seq<Event>, r: RouteId): RouteQueue
    requires PossibleRun(p, run)
    decreases |run|
  {
    if run == [] then EMPTY else Join(BatchOf(p, run[0], r), Taken(Step(p, run[0]), run[1..], r))
  }

  function Arrived(run: seq<Event>, r: RouteId): RouteQueue {
    if run == [] then EMPTY else Join(Arriving(run[0], r), Arrived(run[1..], r))
  }

  lemma StepKeepsOrder(p: Proxy, e: Event, r: RouteId)
    requires Possible(p, e)
    ensures Join(BatchOf(p, e, r), QueueOf(Step(p, e), r)) == Join(QueueOf(p, r), Arriving(e, r))
  {
  }

  lemma Rejoin(a: RouteQueue, b: RouteQueue, c: RouteQueue)
    ensures Join(Join(a, b), c) == Join(a, Join(b, c))
  {
    assert (a.requests + b.requests) + c.requests == a.requests + (b.requests + c.requests);
    assert (a.futures + b.futures) + c.futures == a.futures + (b.futures + c.futures);
  }

  // In every interleaving, a route's requests go into batches in the order of arrival, each
  // once and beside its future: those taken and then those still queued are those queued
  // at the start and then those that arrived.
  lemma {:induction false} ServedInOrder(p: Proxy, run: seq<Event>, r: RouteId)
    requires PossibleRun(p, run)
    ensures Join(Taken(p, run, r), QueueOf(Run(p, run), r)) == Join(QueueOf(p, r), Arrived(run, r))
    decreases |run|
  {
    if run != [] {
      var p' := Step(p, run[0]);
      StepKeepsOrder(p, run[0], r);
      ServedInOrder(p', run[1..], r);
      Rejoin(BatchOf(p, run[0], r), Taken(p', run[1..], r), QueueOf(Run(p, run), r));
      Rejoin(BatchOf(p, run[0], r), QueueOf(p', r), Arrived(run[1..], r));
      Rejoin(QueueOf(p, r), Arriving(run[0], r), Arrived(run[1..], r));
    }
  }

  // How often a task of the route gets the lock.
  function Starts(run: seq<Event>, r: RouteId): nat {
    if run == [] then 0 else (if run[0] == Start(r) then 1 else 0) + Starts(run[1..], r)
  }

  // One event takes n requests and leaves at least the others; a task with the lock takes
  // 32 of them, if there are as many.
  lemma TakesFrom(p: Proxy, e: Event, r: RouteId) returns (n: nat, p': Proxy)
    requires Aligned(QueueOf(p, r)) && Possible(p, e)
    ensures p' == Step(p, e) && n == |BatchOf(p, e, r).futures| && Aligned(QueueOf(p', r))
    ensures |QueueOf(p', r).futures| >= |QueueOf(p, r).futures| - n
    ensures e == Start(r) ==> n >= 32 || n == |QueueOf(p, r).futures|
  {
    n, p' := |BatchOf(p, e, r).futures|, Step(p, e);
    if e == Start(r) {
      BatchIsFront(p, r);
    }
  }

  lemma {:induction false} TakenCount(p: Proxy, run: seq<Event>, r: RouteId)
    requires Aligned(QueueOf(p, r)) && PossibleRun(p, run)
    ensures var taken := |Taken(p, run, r).futures|; taken >= 32 * Starts(run, r) || taken >= |QueueOf(p, r).futures|
    decreases |run|
  {
    if run != [] {
      var n, p' := TakesFrom(p, run[0], r);
      TakenCount(p', run[1..], r);
    }
  }

  // The first 32 * k requests are in batches by the time tasks of the route have had the
  // lock k times.
  lemma TakenInTurn(p: Proxy, run: seq<Event>, r: RouteId, i: nat)
    requires Aligned(QueueOf(p, r)) && PossibleRun(p, run)
    requires i < |QueueOf(p, r).futures| && i < 32 * Starts(run, r)
    ensures QueueOf(p, r).futures[i] in Taken(p, run, r).futures
  {
    var taken := Taken(p, run, r).futures;
    TakenCount(p, run, r);
    ServedInOrder(p, run, r);
    assert (taken + QueueOf(Run(p, run), r).futures)[i] == (QueueOf(p, r).futures + Arrived(run, r).futures)[i];
  }

  // A done future is never set again: whatever happens next, its state stays.
  lemma {:induction false} DoneIsFinal(p: Proxy, run: seq<Event>, f: Future)
    requires Inv(p) && PossibleRun(p, run)
    requires f in p.futures && p.futures[f] != Unresolved
    ensures f in Run(p, run).futures && Run(p, run).futures[f] == p.futures[f]
    decreases |run|
  {
    if run != [] {
      var p' := Step(p, run[0]);
      if run[0].Finish? {
        SettleEach(p.futures, p.job.value.futures, Answers(p.job.value, run[0].bodies));
      } else if run[0].Crash? {
        SettleEach(p.futures, p.job.value.futures, seq(|p.job.value.futures|, _ => Failed(run[0].message)));
      }
      assert f in p'.futures && p'.futures[f] == p.futures[f] by {
        if p.job.Some? && f in p.job.value.futures {
          var i :| 0 <= i < |p.job.value.futures| && p.job.value.futures[i] == f;
        }
      }
      StepKeeps(p, run[0]);
      DoneIsFinal(p', run[1..], f);
    }
  }

  // A client that goes away before its answer is never given one.
  lemma CancelledForGood(p: Proxy, run: seq<Event>, f: Future)
    requires Inv(p) && PossibleRun(p, [Cancel(f)] + run) && p.futures[f] == Unresolved
    ensures var p' := Run(p, [Cancel(f)] + run); f in p'.futures && p'.futures[f] == Cancelled
  {
    var all := [Cancel(f)] + run;
    assert all[1..] == run;
    StepKeeps(p, Cancel(f));
    DoneIsFinal(Step(p, Cancel(f)), run, f);
  }

  // Finishing a batch resolves each of its live futures with the answer to the request at
  // the same place, and a crash fails each of them; no other future changes.
  lemma BatchSettlesItsOwn(p: Proxy, e: Event)
    requires Inv(p) && Possible(p, e) && (e.Finish? || e.Crash?)
    ensures var p' := Step(p, e); var j := p.job.value;
      && p'.futures.Keys == p.futures.Keys
      && (forall f :: f in p.futures && f !in j.futures ==> p'.futures[f] == p.futures[f])
      && (forall i :: 0 <= i < |j.futures| && p.futures[j.futures[i]] == Unresolved ==>
            p'.futures[j.futures[i]]
              == if e.Finish? then Resolved(Response(p.owner[j.futures[i]], e.bodies[i])) else Failed(e.message))
  {
    var j := p.job.value;
    var news := if e.Finish? then Answers(j, e.bodies) else seq(|j.futures|, _ => Failed(e.message));
    SettleEach(p.futures, j.futures, news);
  }

  // ----- The gateway object -----

  class ProxyGateway {
    var queues: map<RouteId, RouteQueue>
    var currentActiveRoute: Option<RouteId>
    var futures: map<Future, FutureState>
    ghost var tasks: multiset<RouteId>
    ghost var job: Option<Job>
    ghost var owner: map<Future, Request>

    ghost function View(): Proxy
      reads this
    {
      Proxy(queues, tasks, job, currentActiveRoute, futures, owner)
    }

    constructor ()
      ensures View() == START
    {
      queues, currentActiveRoute, futures := map[], None, map[];
      tasks, job, owner := multiset{}, None, map[];
    }

    method InferEndpoint(req: Request, fut: Future)
      modifies this
      ensures View() == Enqueue(old(View()), req, fut)
    {
      if req.route !in queues {
        queues := queues[req.route := RouteQueue([], [])];
      }
      var queue := queues[req.route];
      queues := queues[req.route := RouteQueue(queue.requests + [req], queue.futures + [fut])];
      futures := futures[fut := Unresolved];
      owner := owner[fut := req];
      tasks := tasks + multiset{req.route};
    }

    method BeginBatch(route: RouteId) returns (batch: Option<Job>)
      requires route in tasks && job == None
      modifies this
      ensures View() == Begin(old(View()), route) && batch == job
    {
      tasks := tasks - multiset{route};
      if route !in queues || queues[route].requests == [] {
        return None;
      }
      var queue := queues[route];
      var n := if |queue.requests| < MAX_BATCH_SIZE then |queue.requests| else MAX_BATCH_SIZE;
      var m := if |queue.futures| < MAX_BATCH_SIZE then |queue.futures| else MAX_BATCH_SIZE;
      batch := Some(Job(route, queue.requests[..n], queue.futures[..m]));
      queues := queues[route := RouteQueue(queue.requests[n..], queue.futures[m..])];
      if currentActiveRoute != Some(route) {
        currentActiveRoute := Some(route);
      }
      job := batch;
    }

    method SettleBatch(batch: Job, news: seq<FutureState>)
      requires job == Some(batch)
      modifies this`futures, this`job
      ensures View() == old(View()).(job := None, futures := Settle(old(futures), batch.futures, news))
    {
      var i := 0;
      while i < |batch.futures| && i < |news|
        invariant i <= |batch.futures| && i <= |news|
        invariant Settle(futures, batch.futures[i..], news[i..]) == Settle(old(futures), batch.futures, news)
      {
        var f := batch.futures[i];
        assert batch.futures[i..][1..] == batch.futures[i + 1..] && news[i..][1..] == news[i + 1..];
        if !(f in futures && futures[f] != Unresolved) {
          futures := futures[f := news[i]];
        }
        i := i + 1;
      }
      job := None;
    }

    method FinishBatch(batch: Job, bodies: seq<string>)
      requires job == Some(batch) && |bodies| == |batch.requests|
      modifies this
      ensures View() == Step(old(View()), Finish(bodies))
    {
      SettleBatch(batch, Answers(batch, bodies));
    }

    method CrashBatch(batch: Job, message: string)
      requires job == Some(batch)
      modifies this
      ensures View() == Step(old(View()), Crash(message))
    {
      SettleBatch(batch, seq(|batch.futures|, _ => Failed(message)));
    }
  }
}
