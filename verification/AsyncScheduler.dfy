/** The asyncio request scheduler: one accumulator per route, batches cut from the oldest. */
module AsyncScheduler {
  import opened Prelude

  datatype Request<P> = Request(requestId: string, tenantId: string, route: RouteId, payload: P)

  type Future = nat

  datatype ScheduledBatch<P> = ScheduledBatch(route: RouteId, requests: seq<Request<P>>, futures: seq<Future>,
      createdAt: real)

  // A Python dict: its entries, and its keys in insertion order.
  datatype Queues<P> = Queues(entries: map<RouteId, ScheduledBatch<P>>, order: seq<RouteId>)

  // ----- Invariant -----

  ghost predicate Distinct(order: seq<RouteId>) {
    forall i, j :: 0 <= i < j < |order| ==> order[i] != order[j]
  }

  // Every request has its own future beside it and belongs to the accumulator's route.
  ghost predicate Paired<P>(b: ScheduledBatch<P>) {
    |b.requests| == |b.futures| && forall i :: 0 <= i < |b.requests| ==> b.requests[i].route == b.route
  }

  // No empty accumulator is kept.
  ghost predicate Valid<P>(q: Queues<P>) {
    && Distinct(q.order)
    && (forall r :: r in q.entries <==> r in q.order)
    && (forall r :: r in q.entries ==> q.entries[r].route == r && Paired(q.entries[r]) && q.entries[r].requests != [])
  }

  // ----- Submit and fetch -----

  function Submit<P>(q: Queues<P>, req: Request<P>, fut: Future, now: real): Queues<P> {
    var created := req.route !in q.entries;
    var b := if created then ScheduledBatch(req.route, [], [], now) else q.entries[req.route];
    Queues(q.entries[req.route := b.(requests := b.requests + [req], futures := b.futures + [fut])],
           if created then q.order + [req.route] else q.order)
  }

  // min() over the first n keys: the first route, in dict order, of the smallest creation time.
  function OldestFrom<P>(q: Queues<P>, n: nat): (i: nat)
    requires Valid(q) && 0 < n <= |q.order|
    ensures i < n
    ensures forall j :: 0 <= j < n ==> q.entries[q.order[i]].createdAt <= q.entries[q.order[j]].createdAt
    ensures forall j :: 0 <= j < i ==> q.entries[q.order[i]].createdAt < q.entries[q.order[j]].createdAt
  {
    if n == 1 then 0
    else
      var i := OldestFrom(q, n - 1);
      if q.entries[q.order[n - 1]].createdAt < q.entries[q.order[i]].createdAt then n - 1 else i
  }

  function Min(a: nat, b: nat): nat {
    if a < b then a else b
  }

  function Cut<P>(b: ScheduledBatch<P>, max: nat): ScheduledBatch<P>
    requires |b.requests| == |b.futures|
  {
    b.(requests := b.requests[..Min(max, |b.requests|)], futures := b.futures[..Min(max, |b.futures|)])
  }

  function Rest<P>(b: ScheduledBatch<P>, max: nat): ScheduledBatch<P>
    requires |b.requests| == |b.futures|
  {
    b.(requests := b.requests[Min(max, |b.requests|)..], futures := b.futures[Min(max, |b.futures|)..])
  }

  function RemoveAt(order: seq<RouteId>, i: nat): (rest: seq<RouteId>)
    requires i < |order|
    ensures |rest| == |order| - 1
  {
    order[..i] + order[i + 1..]
  }

  // The queues once a batch is cut from the accumulator of the i-th route: what is left of
  // it, or the dict without it when nothing is.
  function TakeFrom<P>(q: Queues<P>, i: nat, max: nat): Queues<P>
    requires Valid(q) && i < |q.order|
  {
    var r := q.order[i];
    var rest := Rest(q.entries[r], max);
    if rest.requests == [] then Queues(q.entries - {r}, RemoveAt(q.order, i)) else q.(entries := q.entries[r := rest])
  }

  // The queues after a fetch, and the batch it hands out.
  function Fetch<P>(q: Queues<P>, max: nat): (Queues<P>, Option<ScheduledBatch<P>>)
    requires Valid(q)
  {
    if q.order == [] then (q, None)
    else
      var i := OldestFrom(q, |q.order|);
      (TakeFrom(q, i, max), Some(Cut(q.entries[q.order[i]], max)))
  }

  class RouteAwareScheduler<P> {
    const maxBatchSize: nat
    var queues: map<RouteId, ScheduledBatch<P>>
    var order: seq<RouteId>

    ghost function View(): Queues<P>
      reads this
    {
      Queues(queues, order)
    }

    constructor (maxBatchSize: nat)
      ensures Valid(View()) && View() == Queues(map[], []) && this.maxBatchSize == maxBatchSize
    {
      this.maxBatchSize := maxBatchSize;
      queues, order := map[], [];
    }

    method SubmitRequest(req: Request<P>, fut: Future, now: real)
      requires Valid(View())
      modifies this
      ensures View() == Submit(old(View()), req, fut, now) && Valid(View())
    {
      SubmitValid(View(), req, fut, now);
      if req.route !in queues {
        queues := queues[req.route := ScheduledBatch(req.route, [], [], now)];
        order := order + [req.route];
      }
      var batch := queues[req.route];
      queues := queues[req.route := batch.(requests := batch.requests + [req], futures := batch.futures + [fut])];
    }

    method FetchNextSafeBatch() returns (batch: Option<ScheduledBatch<P>>)
      requires Valid(View())
      modifies this
      ensures (View(), batch) == Fetch(old(View()), maxBatchSize) && Valid(View())
    {
      FetchValid(View(), maxBatchSize);
      if order == [] {
        return None;
      }
      var oldest := 0;
      for n := 1 to |order|
        invariant oldest == OldestFrom(View(), n)
      {
        if queues[order[n]].createdAt < queues[order[oldest]].createdAt {
          oldest := n;
        }
      }
      var cut := CutBatch(oldest);
      return Some(cut);
    }

    method CutBatch(i: nat) returns (batch: ScheduledBatch<P>)
      requires Valid(View()) && i < |order|
      modifies this
      ensures batch == Cut(old(queues[order[i]]), maxBatchSize)
      ensures View() == TakeFrom(old(View()), i, maxBatchSize)
    {
      var route := order[i];
      var source := queues[route];
      var cut := Min(maxBatchSize, |source.requests|);
      batch := source.(requests := source.requests[..cut], futures := source.futures[..cut]);
      var rest := source.(requests := source.requests[cut..], futures := source.futures[cut..]);
      if rest.requests == [] {
        queues := queues - {route};
        order := order[..i] + order[i + 1..];
      } else {
        queues := queues[route := rest];
      }
    }
  }

  // The secondary assertion; false where it raises.
  method ValidateBatchHomogeneity<P>(b: ScheduledBatch<P>) returns (ok: bool)
    ensures ok <==> forall i :: 0 <= i < |b.requests| ==> b.requests[i].route == b.route
  {
    var routes: set<RouteId> := {};
    for i := 0 to |b.requests|
      invariant forall r :: r in routes <==> exists j :: 0 <= j < i && b.requests[j].route == r
    {
      routes := routes + {b.requests[i].route};
    }
    assert forall j :: 0 <= j < |b.requests| ==> b.requests[j].route in routes;
    if b.requests == [] {
      return true;
    }
    assert b.requests[0].route in routes;
    if routes != {b.requests[0].route} {
      assert exists r :: r in routes && r != b.requests[0].route;
      return false;
    }
    return b.route in routes;
  }

  lemma SubmitValid<P>(q: Queues<P>, req: Request<P>, fut: Future, now: real)
    requires Valid(q)
    ensures Valid(Submit(q, req, fut, now))
  {
  }

  lemma RemoveAtDistinct(order: seq<RouteId>, i: nat)
    requires Distinct(order) && i < |order|
    ensures Distinct(RemoveAt(order, i))
    ensures forall x :: x in RemoveAt(order, i) <==> x in order && x != order[i]
  {
    var rest := RemoveAt(order, i);
    forall x | x in order && x != order[i] ensures x in rest {
      var j :| 0 <= j < |order| && order[j] == x;
      assert j < i ==> rest[j] == x;
      assert j > i ==> rest[j - 1] == x;
    }
  }

  lemma TakeFromValid<P>(q: Queues<P>, i: nat, max: nat)
    requires Valid(q) && i < |q.order|
    ensures Valid(TakeFrom(q, i, max))
  {
    RemoveAtDistinct(q.order, i);
    assert Paired(Rest(q.entries[q.order[i]], max));
  }

  lemma FetchValid<P>(q: Queues<P>, max: nat)
    requires Valid(q)
    ensures Valid(Fetch(q, max).0)
  {
    if q.order != [] {
      TakeFromValid(q, OldestFrom(q, |q.order|), max);
    }
  }

  // ----- One call, by its fields -----

  // A request joins the end of its route's accumulator, which keeps its creation time; a
  // route without one gets one, created now, behind the others. Other routes are unchanged.
  lemma SubmitMeans<P>(q: Queues<P>, req: Request<P>, fut: Future, now: real)
    ensures var q', r := Submit(q, req, fut, now), req.route;
      && q'.entries.Keys == q.entries.Keys + {r}
      && (forall x :: x in q.entries && x != r ==> q'.entries[x] == q.entries[x])
      && (r in q.entries ==>
        && q'.order == q.order && q'.entries[r].createdAt == q.entries[r].createdAt
        && q'.entries[r].route == q.entries[r].route
        && q'.entries[r].requests == q.entries[r].requests + [req]
        && q'.entries[r].futures == q.entries[r].futures + [fut])
      && (r !in q.entries ==>
        && q'.order == q.order + [r] && q'.entries[r].createdAt == now && q'.entries[r].route == r
        && q'.entries[r].requests == [req] && q'.entries[r].futures == [fut])
  {
  }

  // The batch is the first max requests, or all, of the accumulator created first, with
  // their futures; what is left keeps its creation time and its place in the dict.
  lemma FetchMeans<P>(q: Queues<P>, max: nat) returns (r: RouteId)
    requires Valid(q) && q.order != []
    ensures r in q.entries && Fetch(q, max).1.Some?
    ensures var q', b, was := Fetch(q, max).0, Fetch(q, max).1.value, q.entries[r];
      && (forall x :: x in q.entries ==> was.createdAt <= q.entries[x].createdAt)
      && b.route == r && |b.requests| == |b.futures|
      && b.requests <= was.requests && b.futures <= was.futures
      && |b.requests| == (if max < |was.requests| then max else |was.requests|)
      && (forall x :: x in q.entries && x != r ==> x in q'.entries && q'.entries[x] == q.entries[x])
      && (|was.requests| <= max ==> q'.entries.Keys == q.entries.Keys - {r})
      && (|was.requests| > max ==>
        && q'.order == q.order && q'.entries.Keys == q.entries.Keys && q'.entries[r].createdAt == was.createdAt
        && b.requests + q'.entries[r].requests == was.requests && b.futures + q'.entries[r].futures == was.futures)
  {
    var i := OldestFrom(q, |q.order|);
    r := q.order[i];
    assert forall x :: x in q.entries ==> x in q.order;
  }

  // ----- Conservation over every run -----

  // A request with its future.
  function Zip<P>(b: ScheduledBatch<P>): (z: seq<(Request<P>, Future)>)
    requires |b.requests| == |b.futures|
    ensures |z| == |b.requests|
  {
    seq(|b.requests|, i requires 0 <= i < |b.requests| => (b.requests[i], b.futures[i]))
  }

  ghost function Pending<P>(q: Queues<P>, r: RouteId): seq<(Request<P>, Future)>
    requires Valid(q)
  {
    if r in q.entries then Zip(q.entries[r]) else []
  }

  datatype Event<P> = Enqueue(req: Request<P>, fut: Future, now: real) | Dequeue

  // What has been handed out so far beside what is queued.
  datatype History<P> = History(q: Queues<P>, batches: seq<ScheduledBatch<P>>)

  ghost function Step<P>(h: History<P>, max: nat, e: Event<P>): History<P>
    requires Valid(h.q)
  {
    match e
    case Enqueue(req, fut, now) => h.(q := Submit(h.q, req, fut, now))
    case Dequeue =>
      var (q', b) := Fetch(h.q, max);
      History(q', h.batches + if b.Some? then [b.value] else [])
  }

  lemma StepValid<P>(h: History<P>, max: nat, e: Event<P>)
    requires Valid(h.q)
    ensures Valid(Step(h, max, e).q)
  {
    match e
    case Enqueue(req, fut, now) => SubmitValid(h.q, req, fut, now);
    case Dequeue => FetchValid(h.q, max);
  }

  ghost function Run<P>(h: History<P>, max: nat, run: seq<Event<P>>): (h': History<P>)
    requires Valid(h.q)
    ensures Valid(h'.q)
    decreases |run|
  {
    if run == [] then h
    else
      StepValid(h, max, run[0]);
      Run(Step(h, max, run[0]), max, run[1..])
  }

  // What an event submits to route `r`.
  function Contribution<P>(e: Event<P>, r: RouteId): seq<(Request<P>, Future)> {
    if e.Enqueue? && e.req.route == r then [(e.req, e.fut)] else []
  }

  ghost function Submitted<P>(run: seq<Event<P>>, r: RouteId): seq<(Request<P>, Future)> {
    if run == [] then [] else Contribution(run[0], r) + Submitted(run[1..], r)
  }

  // A batch as the fetches hand it out: one route, no more than the maximum.
  ghost predicate Safe<P>(b: ScheduledBatch<P>, max: nat) {
    Paired(b) && |b.requests| <= max
  }

  ghost function Dispatched<P>(batches: seq<ScheduledBatch<P>>, r: RouteId): seq<(Request<P>, Future)> {
    if batches == [] then []
    else
      var b := batches[|batches| - 1];
      Dispatched(batches[..|batches| - 1], r) + if b.route == r && |b.requests| == |b.futures| then Zip(b) else []
  }

  // Per route: what was handed out, then what is queued.
  ghost function Seen<P>(h: History<P>, r: RouteId): seq<(Request<P>, Future)>
    requires Valid(h.q)
  {
    Dispatched(h.batches, r) + Pending(h.q, r)
  }

  lemma SubmitPending<P>(q: Queues<P>, req: Request<P>, fut: Future, now: real, r: RouteId)
    requires Valid(q)
    ensures Valid(Submit(q, req, fut, now))
    ensures Pending(Submit(q, req, fut, now), r) == Pending(q, r) + if req.route == r then [(req, fut)] else []
  {
    SubmitValid(q, req, fut, now);
  }

  lemma TakePending<P>(q: Queues<P>, i: nat, max: nat, r: RouteId)
    requires Valid(q) && i < |q.order|
    ensures Valid(TakeFrom(q, i, max))
    ensures Pending(q, r)
        == (if q.order[i] == r then Zip(Cut(q.entries[r], max)) else []) + Pending(TakeFrom(q, i, max), r)
  {
    TakeFromValid(q, i, max);
    if q.order[i] == r {
      var b := q.entries[r];
      assert Zip(b) == Zip(Cut(b, max)) + Zip(Rest(b, max));
    }
  }

  lemma DispatchOne<P>(batches: seq<ScheduledBatch<P>>, b: ScheduledBatch<P>, r: RouteId)
    requires Paired(b)
    ensures Dispatched(batches + [b], r) == Dispatched(batches, r) + if b.route == r then Zip(b) else []
  {
    assert (batches + [b])[..|batches|] == batches;
  }

  // What a fetch hands out is safe, and moves from pending to dispatched.
  lemma DequeueSeen<P>(h: History<P>, max: nat, r: RouteId)
    requires Valid(h.q) && h.q.order != []
    ensures var h' := Step(h, max, Dequeue);
      && Valid(h'.q) && Seen(h', r) == Seen(h, r)
      && |h'.batches| == |h.batches| + 1 && h'.batches[..|h.batches|] == h.batches
      && Safe(h'.batches[|h.batches|], max)
  {
    var i := OldestFrom(h.q, |h.q.order|);
    var b := Cut(h.q.entries[h.q.order[i]], max);
    assert Safe(b, max);
    TakePending(h.q, i, max, r);
    DispatchOne(h.batches, b, r);
    var q' := TakeFrom(h.q, i, max);
    assert Step(h, max, Dequeue) == History(q', h.batches + [b]);
    Associate(Dispatched(h.batches, r), if b.route == r then Zip(b) else [], Pending(q', r));
  }

  lemma StepSeen<P>(h: History<P>, max: nat, e: Event<P>, r: RouteId)
    requires Valid(h.q)
    ensures Valid(Step(h, max, e).q)
    ensures Seen(Step(h, max, e), r) == Seen(h, r) + Contribution(e, r)
  {
    match e
    case Enqueue(req, fut, now) =>
      SubmitPending(h.q, req, fut, now, r);
      var z := if req.route == r then [(req, fut)] else [];
      assert Dispatched(h.batches, r) + (Pending(h.q, r) + z) == Seen(h, r) + z;
    case Dequeue =>
      if h.q.order != [] {
        DequeueSeen(h, max, r);
      } else {
        assert h.batches + [] == h.batches;
      }
  }

  lemma {:induction false} RunSeen<P>(h: History<P>, max: nat, run: seq<Event<P>>, r: RouteId)
    requires Valid(h.q)
    ensures Seen(Run(h, max, run), r) == Seen(h, r) + Submitted(run, r)
    decreases |run|
  {
    if run == [] {
      assert Seen(h, r) + [] == Seen(h, r);
    } else {
      StepSeen(h, max, run[0], r);
      RunSeen(Step(h, max, run[0]), max, run[1..], r);
      Associate(Seen(h, r), Contribution(run[0], r), Submitted(run[1..], r));
    }
  }

  lemma Associate<X>(a: seq<X>, b: seq<X>, c: seq<X>)
    ensures (a + b) + c == a + (b + c)
  {
  }

  ghost predicate AllSafe<P>(batches: seq<ScheduledBatch<P>>, max: nat) {
    forall i :: 0 <= i < |batches| ==> Safe(batches[i], max)
  }

  lemma StepSafe<P>(h: History<P>, max: nat, e: Event<P>)
    requires Valid(h.q) && AllSafe(h.batches, max)
    ensures AllSafe(Step(h, max, e).batches, max)
  {
    if e.Dequeue? && h.q.order != [] {
      DequeueSeen(h, max, "");
      var batches := Step(h, max, e).batches;
      assert forall i :: 0 <= i < |h.batches| ==> batches[i] == batches[..|h.batches|][i];
    }
  }

  lemma {:induction false} RunSafe<P>(h: History<P>, max: nat, run: seq<Event<P>>)
    requires Valid(h.q) && AllSafe(h.batches, max)
    ensures AllSafe(Run(h, max, run).batches, max)
    decreases |run|
  {
    if run != [] {
      StepValid(h, max, run[0]);
      StepSafe(h, max, run[0]);
      RunSafe(Step(h, max, run[0]), max, run[1..]);
    }
  }

  function NoQueues<P>(): Queues<P> {
    Queues(map[], [])
  }

  // For every interleaving of submits and fetches: per route, what was dispatched followed
  // by what is pending is what was submitted, in order and each request with its own
  // future; every batch is of one route and within the maximum; no empty queue is kept.
  lemma NothingLostNothingMixed<P>(max: nat, run: seq<Event<P>>, r: RouteId)
    ensures var h := Run(History(NoQueues<P>(), []), max, run);
      && Dispatched(h.batches, r) + Pending(h.q, r) == Submitted(run, r)
      && (forall i :: 0 <= i < |h.batches| ==>
            var b := h.batches[i];
            && |b.requests| == |b.futures| <= max
            && forall k :: 0 <= k < |b.requests| ==> b.requests[k].route == b.route)
      && (r in h.q.entries ==> h.q.entries[r].requests != [])
  {
    RunSeen(History(NoQueues<P>(), []), max, run, r);
    RunSafe(History(NoQueues<P>(), []), max, run);
  }

  // ----- Draining -----

  // Batches needed for n requests.
  function Ceil(n: nat, max: nat): nat
    requires max > 0
  {
    if n == 0 then 0 else 1 + Ceil(n - Min(max, n), max)
  }

  // It is n / max rounded up.
  lemma {:induction false} CeilRoundsUp(n: nat, max: nat)
    requires max > 0
    ensures n <= Ceil(n, max) * max < n + max
    ensures Ceil(n, max) == (n + max - 1) / max
  {
    var k := Ceil(n, max);
    if n > max {
      CeilRoundsUp(n - max, max);
      assert k * max == (k - 1) * max + max;
    } else if n > 0 {
      assert Ceil(n, max) == 1 + Ceil(0, max);
    }
    DivUnique(n + max - 1, max, k);
  }

  lemma DivUnique(a: nat, max: nat, k: nat)
    requires max > 0 && k * max <= a < k * max + max
    ensures a / max == k
  {
    var d := a / max;
    assert d * max <= a < d * max + max;
    if d < k {
      MulMonotone(d + 1, k, max);
    } else if k < d {
      MulMonotone(k + 1, d, max);
    }
  }

  lemma MulMonotone(x: nat, y: nat, m: nat)
    requires x <= y
    ensures x * m <= y * m
  {
  }

  // The batches that the queues of `order` take, and the routes they go to when each
  // route is served in one stretch.
  ghost function BatchesNeeded<P>(entries: map<RouteId, ScheduledBatch<P>>, order: seq<RouteId>, max: nat): nat
    requires max > 0 && forall r :: r in order ==> r in entries
  {
    if order == [] then 0
    else Ceil(|entries[order[0]].requests|, max) + BatchesNeeded(entries, order[1..], max)
  }

  function Repeat(r: RouteId, n: nat): seq<RouteId> {
    seq(n, _ => r)
  }

  ghost function Stretches<P>(entries: map<RouteId, ScheduledBatch<P>>, order: seq<RouteId>, max: nat): seq<RouteId>
    requires max > 0 && forall r :: r in order ==> r in entries
  {
    if order == [] then []
    else Repeat(order[0], Ceil(|entries[order[0]].requests|, max)) + Stretches(entries, order[1..], max)
  }

  lemma {:induction false} NeededUpdate<P>(
      entries: map<RouteId, ScheduledBatch<P>>, order: seq<RouteId>, max: nat, i: nat, b: ScheduledBatch<P>)
    requires max > 0 && (forall r :: r in order ==> r in entries) && Distinct(order) && i < |order|
    ensures BatchesNeeded(entries[order[i] := b], order, max)
         == BatchesNeeded(entries, order, max) - Ceil(|entries[order[i]].requests|, max) + Ceil(|b.requests|, max)
    decreases |order|
  {
    if i == 0 {
      NeededSame(entries, entries[order[0] := b], order[1..], max);
    } else {
      NeededUpdate(entries, order[1..], max, i - 1, b);
    }
  }

  lemma {:induction false} NeededSame<P>(
      a: map<RouteId, ScheduledBatch<P>>, b: map<RouteId, ScheduledBatch<P>>, order: seq<RouteId>, max: nat)
    requires max > 0 && forall r :: r in order ==> r in a && r in b && a[r] == b[r]
    ensures BatchesNeeded(a, order, max) == BatchesNeeded(b, order, max)
    ensures Stretches(a, order, max) == Stretches(b, order, max)
  {
    if order != [] {
      NeededSame(a, b, order[1..], max);
    }
  }

  lemma {:induction false} NeededRemove<P>(
      entries: map<RouteId, ScheduledBatch<P>>, order: seq<RouteId>, max: nat, i: nat)
    requires max > 0 && (forall r :: r in order ==> r in entries) && Distinct(order) && i < |order|
    ensures forall r :: r in RemoveAt(order, i) ==> r in order && r != order[i]
    ensures BatchesNeeded(entries - {order[i]}, RemoveAt(order, i), max)
         == BatchesNeeded(entries, order, max) - Ceil(|entries[order[i]].requests|, max)
    decreases |order|
  {
    RemoveAtDistinct(order, i);
    var rest := RemoveAt(order, i);
    NeededSame(entries - {order[i]}, entries, rest, max);
    if i == 0 {
      assert rest == order[1..];
    } else {
      assert rest[0] == order[0] && rest[1..] == RemoveAt(order[1..], i - 1);
      RemoveAtDistinct(order[1..], i - 1);
      NeededRemove(entries, order[1..], max, i - 1);
      NeededSame(entries - {order[i]}, entries, RemoveAt(order[1..], i - 1), max);
    }
  }

  ghost function Needed<P>(q: Queues<P>, max: nat): nat
    requires Valid(q) && max > 0
  {
    BatchesNeeded(q.entries, q.order, max)
  }

  // Each fetch from non-empty queues leaves exactly one batch less to take.
  lemma TakeNeeds<P>(q: Queues<P>, i: nat, max: nat)
    requires Valid(q) && max > 0 && i < |q.order|
    ensures Valid(TakeFrom(q, i, max)) && Needed(TakeFrom(q, i, max), max) == Needed(q, max) - 1
  {
    TakeFromValid(q, i, max);
    var r := q.order[i];
    var n, rest := |q.entries[r].requests|, Rest(q.entries[r], max);
    if rest.requests == [] {
      NeededRemove(q.entries, q.order, max, i);
    } else {
      NeededUpdate(q.entries, q.order, max, i, rest);
    }
  }

  // Fetching until there is nothing to fetch.
  ghost function Drain<P>(q: Queues<P>, max: nat): seq<ScheduledBatch<P>>
    requires Valid(q) && max > 0
    decreases Needed(q, max)
  {
    var (q', b) := Fetch(q, max);
    if b.None? then []
    else
      TakeNeeds(q, OldestFrom(q, |q.order|), max);
      [b.value] + Drain(q', max)
  }

  // A drain takes exactly as many batches as its queues need, and then gets None.
  lemma {:induction false} DrainCount<P>(q: Queues<P>, max: nat)
    requires Valid(q) && max > 0
    ensures |Drain(q, max)| == Needed(q, max)
    decreases Needed(q, max)
  {
    if q.order != [] {
      var i := OldestFrom(q, |q.order|);
      TakeNeeds(q, i, max);
      DrainCount(TakeFrom(q, i, max), max);
    }
  }

  // ----- A clock that does not go back -----

  // The creation times of the accumulators, in dict order.
  ghost function Stamps<P>(q: Queues<P>): (t: seq<real>)
    requires Valid(q)
    ensures |t| == |q.order| && forall i :: 0 <= i < |t| ==> t[i] == q.entries[q.order[i]].createdAt
  {
    seq(|q.order|, i requires 0 <= i < |q.order| => q.entries[q.order[i]].createdAt)
  }

  ghost predicate Rising(t: seq<real>, now: real) {
    && (forall i, j :: 0 <= i < j < |t| ==> t[i] <= t[j])
    && (forall i :: 0 <= i < |t| ==> t[i] <= now)
  }

  // Accumulators stand in order of creation, none created after `now`.
  ghost predicate Chronological<P>(q: Queues<P>, now: real)
    requires Valid(q)
  {
    Rising(Stamps(q), now)
  }

  lemma FirstIsOldest<P>(q: Queues<P>, now: real)
    requires Valid(q) && Chronological(q, now) && q.order != []
    ensures OldestFrom(q, |q.order|) == 0
  {
    var t := Stamps(q);
    assert forall j :: 0 <= j < |t| ==> t[0] <= t[j];
  }

  // A submit behind a chronological clock leaves the first route first.
  lemma SubmitChronological<P>(q: Queues<P>, req: Request<P>, fut: Future, now: real, later: real)
    requires Valid(q) && Chronological(q, now) && now <= later
    ensures var q' := Submit(q, req, fut, later);
      Valid(q') && Chronological(q', later) && (q.order != [] ==> q'.order != [] && q'.order[0] == q.order[0])
  {
    SubmitValid(q, req, fut, later);
    var q' := Submit(q, req, fut, later);
    assert Stamps(q') == Stamps(q) + if req.route in q.entries then [] else [later];
  }

  // Cutting the first route's accumulator keeps the creation times of what stays.
  lemma TakeFirstShape<P>(q: Queues<P>, max: nat)
    requires Valid(q) && q.order != []
    ensures var q' := TakeFrom(q, 0, max);
      && Valid(q')
      && q'.order == (if Rest(q.entries[q.order[0]], max).requests == [] then q.order[1..] else q.order)
      && (forall r :: r in q'.entries ==> r in q.entries && q'.entries[r].createdAt == q.entries[r].createdAt)
      && (forall r :: r in q'.entries && r != q.order[0] ==> q'.entries[r] == q.entries[r])
      && (q.order[0] in q'.entries ==> q'.entries[q.order[0]] == Rest(q.entries[q.order[0]], max))
  {
    TakeFromValid(q, 0, max);
    assert RemoveAt(q.order, 0) == q.order[1..];
    RemoveAtDistinct(q.order, 0);
    if Rest(q.entries[q.order[0]], max).requests == [] {
      assert q.order[0] !in TakeFrom(q, 0, max).entries;
    }
  }

  // The queues agree on the order from `k` on, and on the creation times.
  lemma StampsSuffix<P>(q: Queues<P>, q': Queues<P>, k: nat)
    requires Valid(q) && Valid(q') && k <= |q.order| && q'.order == q.order[k..]
    requires forall r :: r in q'.entries ==> r in q.entries && q'.entries[r].createdAt == q.entries[r].createdAt
    ensures Stamps(q') == Stamps(q)[k..]
  {
  }

  lemma TakeFirstChronological<P>(q: Queues<P>, max: nat, now: real)
    requires Valid(q) && Chronological(q, now) && q.order != []
    ensures Valid(TakeFrom(q, 0, max)) && Chronological(TakeFrom(q, 0, max), now)
  {
    TakeFirstShape(q, max);
    var q' := TakeFrom(q, 0, max);
    assert q.order[0..] == q.order;
    StampsSuffix(q, q', if q'.order == q.order then 0 else 1);
  }

  // Submits only, with a clock that does not go back.
  ghost predicate Submits<P>(run: seq<Event<P>>, now: real) {
    run == [] || (run[0].Enqueue? && now <= run[0].now && Submits(run[1..], run[0].now))
  }

  // A selected route that is not emptied is selected again by the next fetch, whatever
  // arrives in between.
  lemma {:induction false} SelectedRouteStays<P>(h: History<P>, max: nat, run: seq<Event<P>>, now: real)
    requires Valid(h.q) && Chronological(h.q, now) && h.q.order != [] && Submits(run, now)
    ensures var q := Run(h, max, run).q; Fetch(q, max).1.Some? && Fetch(q, max).1.value.route == h.q.order[0]
    decreases |run|
  {
    if run == [] {
      FirstIsOldest(h.q, now);
    } else {
      SubmitChronological(h.q, run[0].req, run[0].fut, now, run[0].now);
      SelectedRouteStays(Step(h, max, run[0]), max, run[1..], run[0].now);
    }
  }

  // The clock of the run's submits starts no earlier than `now` and does not go back.
  ghost predicate Clocked<P>(run: seq<Event<P>>, now: real) {
    run == [] || ((run[0].Enqueue? ==> now <= run[0].now) && Clocked(run[1..], Reading(run[0], now)))
  }

  ghost function Reading<P>(e: Event<P>, now: real): real {
    if e.Enqueue? then e.now else now
  }

  ghost function Latest<P>(run: seq<Event<P>>, now: real): real {
    if run == [] then now else Latest(run[1..], Reading(run[0], now))
  }

  lemma StepChronological<P>(h: History<P>, max: nat, e: Event<P>, now: real)
    requires Valid(h.q) && Chronological(h.q, now) && (e.Enqueue? ==> now <= e.now)
    ensures Valid(Step(h, max, e).q) && Chronological(Step(h, max, e).q, Reading(e, now))
  {
    match e
    case Enqueue(req, fut, later) => SubmitChronological(h.q, req, fut, now, later);
    case Dequeue =>
      if h.q.order != [] {
        FirstIsOldest(h.q, now);
        TakeFirstChronological(h.q, max, now);
      }
  }

  lemma {:induction false} RunChronological<P>(h: History<P>, max: nat, run: seq<Event<P>>, now: real)
    requires Valid(h.q) && Chronological(h.q, now) && Clocked(run, now)
    ensures Chronological(Run(h, max, run).q, Latest(run, now))
    decreases |run|
  {
    if run != [] {
      StepChronological(h, max, run[0], now);
      RunChronological(Step(h, max, run[0]), max, run[1..], Reading(run[0], now));
    }
  }

  // What a fetch does not take of its route stays first.
  lemma LeftoverStaysFirst<P>(q: Queues<P>, max: nat, now: real)
    requires Valid(q) && Chronological(q, now) && q.order != []
    ensures var (q', b) := Fetch(q, max); var r := q.order[0];
      && Valid(q') && Chronological(q', now) && b.Some? && b.value.route == r
      && (r in q'.entries ==> q'.order == q.order)
  {
    FirstIsOldest(q, now);
    TakeFirstChronological(q, max, now);
    TakeFirstShape(q, max);
    RemoveAtDistinct(q.order, 0);
  }

  lemma SelectedAgain<P>(h: History<P>, max: nat, submits: seq<Event<P>>, now: real)
    requires Valid(h.q) && Chronological(h.q, now) && Submits(submits, now)
    ensures var (q, b) := Fetch(h.q, max); Valid(q) && (b.Some? && b.value.route in q.entries ==>
      SelectedAfter(History(q, h.batches + [b.value]), max, submits, b.value.route))
  {
    FetchValid(h.q, max);
    if h.q.order != [] {
      LeftoverStaysFirst(h.q, max, now);
      var (q, b) := Fetch(h.q, max);
      if b.value.route in q.entries {
        SelectedRouteStays(History(q, h.batches + [b.value]), max, submits, now);
      }
    }
  }

  // After the run, the next fetch hands out a batch of route r.
  ghost predicate SelectedAfter<P>(h: History<P>, max: nat, run: seq<Event<P>>, r: RouteId)
    requires Valid(h.q)
  {
    var b := Fetch(Run(h, max, run).q, max).1;
    b.Some? && b.value.route == r
  }

  // In every run whose clock does not go back: a route that a fetch selects and does not
  // empty is selected by the next fetch too, whatever is submitted in between.
  lemma ServedToTheEnd<P>(max: nat, run: seq<Event<P>>, submits: seq<Event<P>>, now: real)
    requires Clocked(run, now) && Submits(submits, Latest(run, now))
    ensures var h := Run(History(NoQueues<P>(), []), max, run); var (q, b) := Fetch(h.q, max);
      && Valid(q)
      && (b.Some? && b.value.route in q.entries ==>
            SelectedAfter(History(q, h.batches + [b.value]), max, submits, b.value.route))
  {
    RunChronological(History(NoQueues<P>(), []), max, run, now);
    SelectedAgain(Run(History(NoQueues<P>(), []), max, run), max, submits, Latest(run, now));
  }

  // ----- Starvation -----

  lemma {:induction false} RunAppend<P>(h: History<P>, max: nat, a: seq<Event<P>>, b: seq<Event<P>>)
    requires Valid(h.q)
    ensures Run(h, max, a + b) == Run(Run(h, max, a), max, b)
    decreases |a|
  {
    if a == [] {
      assert a + b == b;
    } else {
      assert (a + b)[0] == a[0] && (a + b)[1..] == a[1..] + b;
      StepValid(h, max, a[0]);
      RunAppend(Step(h, max, a[0]), max, a[1..], b);
    }
  }

  // The batches handed out since h0 are all of route r.
  ghost predicate OnlyRoute<P>(h0: History<P>, h: History<P>, r: RouteId) {
    && |h0.batches| <= |h.batches|
    && forall k :: |h0.batches| <= k < |h.batches| ==> h.batches[k].route == r
  }

  lemma StepServesFirst<P>(h: History<P>, max: nat, e: Event<P>, now: real)
    requires Valid(h.q) && Chronological(h.q, now) && h.q.order != [] && (e.Enqueue? ==> now <= e.now)
    ensures var h' := Step(h, max, e);
      && Valid(h'.q) && Chronological(h'.q, Reading(e, now)) && OnlyRoute(h, h', h.q.order[0])
      && (h.q.order[0] in h'.q.entries ==> h'.q.order != [] && h'.q.order[0] == h.q.order[0])
  {
    StepValid(h, max, e);
    StepChronological(h, max, e, now);
    match e
    case Enqueue(req, fut, later) => SubmitChronological(h.q, req, fut, now, later);
    case Dequeue => LeftoverStaysFirst(h.q, max, now);
  }

  // Route r is never emptied in the course of the run.
  ghost predicate NeverEmptied<P>(h: History<P>, max: nat, run: seq<Event<P>>, r: RouteId)
    requires Valid(h.q)
    decreases |run|
  {
    StepValid(h, max, if run == [] then Dequeue else run[0]);
    r in h.q.entries && (run == [] || NeverEmptied(Step(h, max, run[0]), max, run[1..], r))
  }

  // With a clock that does not go back, the selected route is the only one served for as
  // long as it is never emptied: every other route starves.
  lemma {:induction false} OthersStarve<P>(h: History<P>, max: nat, run: seq<Event<P>>, now: real)
    requires Valid(h.q) && Chronological(h.q, now) && h.q.order != [] && Clocked(run, now)
    requires NeverEmptied(h, max, run, h.q.order[0])
    ensures OnlyRoute(h, Run(h, max, run), h.q.order[0])
    decreases |run|
  {
    if run != [] {
      var h1 := Step(h, max, run[0]);
      StepServesFirst(h, max, run[0], now);
      OthersStarve(h1, max, run[1..], Reading(run[0], now));
      BatchesKept(h1, max, run[1..]);
      StillOnlyRoute(h, h1, Run(h1, max, run[1..]), h.q.order[0]);
    }
  }

  lemma StillOnlyRoute<P>(h0: History<P>, h1: History<P>, h2: History<P>, r: RouteId)
    requires OnlyRoute(h0, h1, r) && OnlyRoute(h1, h2, r) && h1.batches <= h2.batches
    ensures OnlyRoute(h0, h2, r)
  {
    assert forall k :: 0 <= k < |h1.batches| ==> h2.batches[k] == h1.batches[k];
  }

  lemma {:induction false} BatchesKept<P>(h: History<P>, max: nat, run: seq<Event<P>>)
    requires Valid(h.q)
    ensures h.batches <= Run(h, max, run).batches
    decreases |run|
  {
    if run != [] {
      StepValid(h, max, run[0]);
      BatchesKept(Step(h, max, run[0]), max, run[1..]);
    }
  }

  lemma SubmitGrows<P>(h: History<P>, max: nat, e: Event<P>, r: RouteId)
    requires Valid(h.q) && e.Enqueue? && e.req.route == r && r in h.q.entries
    ensures var h' := Step(h, max, e);
      && Valid(h'.q) && r in h'.q.entries && |h'.q.entries[r].requests| == |h.q.entries[r].requests| + 1
      && h'.q.order == h.q.order && h'.batches == h.batches
  {
    StepValid(h, max, e);
  }

  // n submits to a pending route.
  lemma {:induction false} SubmitsGrow<P>(h: History<P>, max: nat, e: Event<P>, r: RouteId, n: nat)
    requires Valid(h.q) && e.Enqueue? && e.req.route == r && r in h.q.entries
    ensures var run := seq(n, _ => e); var h' := Run(h, max, run);
      && NeverEmptied(h, max, run, r) && r in h'.q.entries
      && |h'.q.entries[r].requests| == |h.q.entries[r].requests| + n
      && h'.q.order == h.q.order && h'.batches == h.batches
    decreases n
  {
    if n > 0 {
      SubmitGrows(h, max, e, r);
      assert seq(n, _ => e)[1..] == seq(n - 1, _ => e);
      SubmitsGrow(Step(h, max, e), max, e, r, n - 1);
    }
  }

  // And it happens: as many submits to the selected route before each fetch as the fetch
  // takes let n fetches go by, for any n, that all serve that route.
  lemma {:induction false} StarvingRun<P>(h: History<P>, max: nat, e: Event<P>, now: real, n: nat)
      returns (run: seq<Event<P>>)
    requires Valid(h.q) && Chronological(h.q, now) && h.q.order != []
    requires e.Enqueue? && e.req.route == h.q.order[0] && e.now == now
    ensures var h' := Run(h, max, run);
      && |h'.batches| == |h.batches| + n && OnlyRoute(h, h', h.q.order[0])
      && (forall r :: r in h.q.entries ==> r in h'.q.entries)
    decreases n
  {
    run := [];
    if n > 0 {
      var h2, round := StarvingRound(h, max, e, now);
      var rest := StarvingRun(h2, max, e, now, n - 1);
      run := round + rest;
      RunAppend(h, max, round, rest);
      BatchesKept(h2, max, rest);
      StillOnlyRoute(h, h2, Run(h2, max, rest), h.q.order[0]);
    }
  }

  lemma StarvingRound<P>(h: History<P>, max: nat, e: Event<P>, now: real) returns (h2: History<P>, round: seq<Event<P>>)
    requires Valid(h.q) && Chronological(h.q, now) && h.q.order != []
    requires e.Enqueue? && e.req.route == h.q.order[0] && e.now == now
    ensures h2 == Run(h, max, round) && |h2.batches| == |h.batches| + 1 && OnlyRoute(h, h2, h.q.order[0])
    ensures Chronological(h2.q, now) && h2.q.order == h.q.order
    ensures forall r :: r in h.q.entries ==> r in h2.q.entries
  {
    var r, submits := h.q.order[0], seq(max, _ => e);
    SubmitsGrow(h, max, e, r, max);
    var h1 := Run(h, max, submits);
    SameClock(submits, now);
    RunChronological(h, max, submits, now);
    FetchLeaves(h1, max, now);
    h2, round := Step(h1, max, Dequeue), submits + [Dequeue];
    RunAppend(h, max, submits, [Dequeue]);
    assert Run(h1, max, [Dequeue]) == Run(h2, max, []);
  }

  lemma {:induction false} SameClock<P>(run: seq<Event<P>>, now: real)
    requires forall i :: 0 <= i < |run| ==> run[i].Enqueue? && run[i].now == now
    ensures Clocked(run, now) && Latest(run, now) == now
    decreases |run|
  {
    if run != [] {
      SameClock(run[1..], now);
    }
  }

  lemma FetchKeepsFirst<P>(q: Queues<P>, max: nat, now: real)
    requires Valid(q) && Chronological(q, now) && q.order != [] && |q.entries[q.order[0]].requests| > max
    ensures var q' := Fetch(q, max).0; q'.order == q.order && q'.entries.Keys == q.entries.Keys
  {
    FirstIsOldest(q, now);
  }

  // A fetch from a first route with more than a batch leaves the dictionary's keys alone.
  lemma FetchLeaves<P>(h: History<P>, max: nat, now: real)
    requires Valid(h.q) && Chronological(h.q, now) && h.q.order != []
    requires |h.q.entries[h.q.order[0]].requests| > max
    ensures var h' := Step(h, max, Dequeue);
      && Valid(h'.q) && Chronological(h'.q, now) && h'.q.order == h.q.order && h'.q.entries.Keys == h.q.entries.Keys
      && |h'.batches| == |h.batches| + 1 && OnlyRoute(h, h', h.q.order[0])
  {
    StepServesFirst(h, max, Dequeue, now);
    FetchKeepsFirst(h.q, max, now);
  }

  ghost function Routes<P>(batches: seq<ScheduledBatch<P>>): seq<RouteId> {
    if batches == [] then [] else [batches[0].route] + Routes(batches[1..])
  }

  // A drain serves each route in one stretch, oldest first, of as many batches as it needs.
  lemma {:induction false} DrainIsContiguous<P>(q: Queues<P>, max: nat, now: real)
    requires Valid(q) && max > 0 && Chronological(q, now)
    ensures Routes(Drain(q, max)) == Stretches(q.entries, q.order, max)
    decreases Needed(q, max)
  {
    if q.order != [] {
      FirstIsOldest(q, now);
      TakeNeeds(q, 0, max);
      TakeFirstChronological(q, max, now);
      var q' := TakeFrom(q, 0, max);
      DrainIsContiguous(q', max, now);
      TakeFirstStretch(q, max);
      assert Drain(q, max)[1..] == Drain(q', max);
    }
  }

  lemma RepeatOne(r: RouteId, n: nat)
    requires n > 0
    ensures Repeat(r, n) == [r] + Repeat(r, n - 1)
  {
  }

  // The last batch of the first route's stretch.
  lemma StretchEnds<P>(
      a: map<RouteId, ScheduledBatch<P>>, b: map<RouteId, ScheduledBatch<P>>, order: seq<RouteId>, max: nat)
    requires max > 0 && order != [] && (forall r :: r in order ==> r in a)
    requires forall r :: r in order[1..] ==> r in b && b[r] == a[r]
    requires 0 < |a[order[0]].requests| <= max
    ensures Stretches(a, order, max) == [order[0]] + Stretches(b, order[1..], max)
  {
    NeededSame(a, b, order[1..], max);
    LastCeil(|a[order[0]].requests|, max);
    assert Repeat(order[0], 1) == [order[0]];
  }

  lemma LastCeil(n: nat, max: nat)
    requires 0 < n <= max
    ensures Ceil(n, max) == 1
  {
    assert Ceil(0, max) == 0;
  }

  // One batch of it, when more remains.
  lemma StretchGoesOn<P>(
      a: map<RouteId, ScheduledBatch<P>>, b: map<RouteId, ScheduledBatch<P>>, order: seq<RouteId>, max: nat)
    requires max > 0 && order != [] && forall r :: r in order ==> r in a && r in b
    requires forall r :: r in order[1..] ==> b[r] == a[r]
    requires |a[order[0]].requests| > max && |b[order[0]].requests| == |a[order[0]].requests| - max
    ensures Stretches(a, order, max) == [order[0]] + Stretches(b, order, max)
  {
    var n, r, rest := |a[order[0]].requests|, order[0], Stretches(b, order[1..], max);
    NeededSame(a, b, order[1..], max);
    assert Ceil(n, max) == 1 + Ceil(n - max, max);
    RepeatOne(r, Ceil(n, max));
    Associate([r], Repeat(r, Ceil(n - max, max)), rest);
    assert Stretches(a, order, max) == ([r] + Repeat(r, Ceil(n - max, max))) + rest;
  }

  lemma TakeFirstStretch<P>(q: Queues<P>, max: nat)
    requires Valid(q) && max > 0 && q.order != []
    ensures var q' := TakeFrom(q, 0, max);
      Valid(q') && Stretches(q.entries, q.order, max) == [q.order[0]] + Stretches(q'.entries, q'.order, max)
  {
    TakeFirstShape(q, max);
    RemoveAtDistinct(q.order, 0);
    assert RemoveAt(q.order, 0) == q.order[1..];
    if |q.entries[q.order[0]].requests| <= max {
      StretchEnds(q.entries, TakeFrom(q, 0, max).entries, q.order, max);
    } else {
      StretchGoesOn(q.entries, TakeFrom(q, 0, max).entries, q.order, max);
    }
  }

  // With a maximum batch size of zero a fetch hands out an empty batch and changes nothing,
  // so a drain never ends.
  lemma ZeroBatchSizeNeverDrains<P>(q: Queues<P>)
    requires Valid(q) && q.order != []
    ensures var (q', b) := Fetch(q, 0); q' == q && b.Some? && b.value.requests == []
  {
    var i := OldestFrom(q, |q.order|);
    var r := q.order[i];
    assert Rest(q.entries[r], 0) == q.entries[r];
    assert q.entries[r := q.entries[r]] == q.entries;
  }
}
