/** The in-process pipeline: route-tagged KV blocks, homogeneous batches, a guarded runner. */
module MockPipeline {
  import opened Prelude

  // Requests are told apart by `id`; route None is the base model.
  datatype Request = Request(id: nat, route: Option<RouteId>)

  datatype Block = Block(route: Option<RouteId>, refCount: nat)

  datatype Allocator = Allocator(free: seq<nat>, blocks: map<nat, Block>)

  datatype Runner = Runner(alloc: Allocator, kv: map<Request, seq<nat>>, completed: set<Request>,
                           active: Option<RouteId>, quarantined: bool,
                           leaks: nat, rollbackFailures: nat, swaps: nat)

  datatype Error = OutOfBlocks | RouteLeakage | MixedBatch | InQuarantine

  // ----- Scheduling -----

  function Matching(q: seq<Request>, route: Option<RouteId>): (r: seq<Request>)
    ensures |r| <= |q|
    ensures forall i :: 0 <= i < |r| ==> r[i].route == route
  {
    if q == [] then []
    else if q[0].route == route then [q[0]] + Matching(q[1..], route)
    else Matching(q[1..], route)
  }

  // How many elements the slice [:max] keeps of n.
  function Taken(n: nat, max: int): (k: nat)
    ensures k <= n
  {
    if max >= 0 then (if max <= n then max else n) else (if -max <= n then n + max else 0)
  }

  // The queue without its first k requests of the route.
  function Without(q: seq<Request>, route: Option<RouteId>, k: nat): seq<Request> {
    if q == [] || k == 0 then q
    else if q[0].route == route then Without(q[1..], route, k - 1)
    else [q[0]] + Without(q[1..], route, k)
  }

  function NextBatch(q: seq<Request>, max: int): seq<Request> {
    if q == [] then [] else
      var group := Matching(q, q[0].route);
      group[..Taken(|group|, max)]
  }

  function Remaining(q: seq<Request>, max: int): seq<Request> {
    if q == [] then [] else Without(q, q[0].route, |NextBatch(q, max)|)
  }

  // list.remove: the first occurrence goes.
  function RemoveFirst(q: seq<Request>, r: Request): seq<Request>
    requires r in q
  {
    if q[0] == r then q[1..] else [q[0]] + RemoveFirst(q[1..], r)
  }

  // Removing the first request of the route that is left removes one more of the prefix.
  lemma {:induction false} RemoveOneMore(q: seq<Request>, route: Option<RouteId>, k: nat)
    requires k < |Matching(q, route)|
    ensures var r, left := Matching(q, route)[k], Without(q, route, k);
      r in left && RemoveFirst(left, r) == Without(q, route, k + 1)
  {
    if q[0].route == route {
      if k > 0 {
        RemoveOneMore(q[1..], route, k - 1);
      } else {
        assert Without(q[1..], route, 0) == q[1..];
      }
    } else {
      RemoveOneMore(q[1..], route, k);
      if k == 0 {
        assert q == [q[0]] + q[1..];
      }
    }
  }

  class RouteAwareScheduler {
    var pendingRequests: seq<Request>
    const maxBatchSize: int

    constructor (maxBatchSize: int)
      ensures pendingRequests == [] && this.maxBatchSize == maxBatchSize
    {
      pendingRequests := [];
      this.maxBatchSize := maxBatchSize;
    }

    method AddRequest(r: Request)
      modifies this
      ensures pendingRequests == old(pendingRequests) + [r]
    {
      pendingRequests := pendingRequests + [r];
    }

    method ScheduleNextBatch() returns (batch: seq<Request>)
      modifies this
      ensures batch == NextBatch(old(pendingRequests), maxBatchSize)
      ensures pendingRequests == Remaining(old(pendingRequests), maxBatchSize)
    {
      if pendingRequests == [] {
        return [];
      }
      var target := pendingRequests[0].route;
      var groups := GroupByRoute(pendingRequests);
      assert GroupOf(groups, target) == Matching(pendingRequests, target) != [];
      var group := groups[target];
      batch := group[..Taken(|group|, maxBatchSize)];
      RemoveScheduled(batch, target);
    }

    method RemoveScheduled(batch: seq<Request>, target: Option<RouteId>)
      requires batch <= Matching(pendingRequests, target)
      modifies this
      ensures pendingRequests == Without(old(pendingRequests), target, |batch|)
    {
      var j := 0;
      while j < |batch|
        invariant 0 <= j <= |batch|
        invariant pendingRequests == Without(old(pendingRequests), target, j)
      {
        RemoveOneMore(old(pendingRequests), target, j);
        pendingRequests := RemoveFirst(pendingRequests, batch[j]);
        j := j + 1;
      }
    }
  }

  lemma {:induction false} MatchingAppend(a: seq<Request>, b: seq<Request>, route: Option<RouteId>)
    ensures Matching(a + b, route) == Matching(a, route) + Matching(b, route)
    decreases |a|
  {
    if a == [] {
      assert a + b == b;
    } else {
      assert (a + b)[0] == a[0] && (a + b)[1..] == a[1..] + b;
      MatchingAppend(a[1..], b, route);
    }
  }

  lemma MatchingOne(r: Request, route: Option<RouteId>)
    ensures Matching([r], route) == if r.route == route then [r] else []
  {
  }

  function GroupOf(groups: map<Option<RouteId>, seq<Request>>, route: Option<RouteId>): seq<Request> {
    if route in groups then groups[route] else []
  }

  method GroupByRoute(q: seq<Request>) returns (groups: map<Option<RouteId>, seq<Request>>)
    ensures forall route :: GroupOf(groups, route) == Matching(q, route)
    ensures forall route :: route in groups <==> Matching(q, route) != []
  {
    groups := map[];
    var i := 0;
    while i < |q|
      invariant 0 <= i <= |q|
      invariant forall route :: GroupOf(groups, route) == Matching(q[..i], route)
      invariant forall route :: route in groups ==> groups[route] != []
    {
      var r := q[i];
      if r.route !in groups {
        groups := groups[r.route := []];
      }
      ghost var before := groups;
      groups := groups[r.route := groups[r.route] + [r]];
      forall route ensures GroupOf(groups, route) == Matching(q[..i + 1], route) {
        MatchingSnoc(q, i, route);
        assert GroupOf(before, route) == Matching(q[..i], route);
      }
      i := i + 1;
    }
    assert q[..|q|] == q;
  }

  lemma MatchingSnoc(q: seq<Request>, i: nat, route: Option<RouteId>)
    requires i < |q|
    ensures Matching(q[..i + 1], route) == Matching(q[..i], route) + if q[i].route == route then [q[i]] else []
  {
    assert q[..i + 1] == q[..i] + [q[i]];
    MatchingAppend(q[..i], [q[i]], route);
  }

  // ----- Executing a batch -----

  function Held(w: Runner, r: Request): seq<nat> {
    if r in w.kv then w.kv[r] else []
  }

  // Every id in use names a block.
  ghost predicate InRange(w: Runner) {
    && (forall i :: 0 <= i < |w.alloc.free| ==> w.alloc.free[i] in w.alloc.blocks)
    && (forall r, i :: r in w.kv && 0 <= i < |w.kv[r]| ==> w.kv[r][i] in w.alloc.blocks)
  }

  // No block held by the request carries another route's tag.
  predicate Accessible(w: Runner, r: Request)
    requires InRange(w)
  {
    forall i :: 0 <= i < |Held(w, r)| ==> w.alloc.blocks[Held(w, r)[i]].route == r.route
  }

  function Popped(a: Allocator, route: Option<RouteId>): Allocator
    requires a.free != []
  {
    Allocator(a.free[1..], a.blocks[a.free[0] := Block(route, 1)])
  }

  // One more block for the request, which is then completed.
  function Grant(w: Runner, r: Request): Runner
    requires w.alloc.free != []
  {
    w.(alloc := Popped(w.alloc, r.route), kv := w.kv[r := Held(w, r) + [w.alloc.free[0]]],
       completed := w.completed + {r})
  }

  function Serve(w: Runner, batch: seq<Request>): (Runner, Result<(), Error>)
    requires InRange(w)
    decreases |batch|
  {
    if batch == [] then (w, Ok(()))
    else if !Accessible(w, batch[0]) then (w.(leaks := w.leaks + 1), Err(RouteLeakage))
    else if w.alloc.free == [] then (w, Err(OutOfBlocks))
    else Serve(Grant(w, batch[0]), batch[1..])
  }

  predicate Homogeneous(batch: seq<Request>) {
    forall i :: 0 <= i < |batch| ==> batch[i].route == batch[0].route
  }

  function Swap(w: Runner, route: Option<RouteId>): Runner {
    if w.active == route then w else w.(active := route, swaps := w.swaps + 1)
  }

  // Any failure while serving rolls the weights back before it is raised again.
  function Execute(w: Runner, batch: seq<Request>): (Runner, Result<(), Error>)
    requires InRange(w)
  {
    if w.quarantined then (w, Err(InQuarantine))
    else if batch == [] then (w, Ok(()))
    else if !Homogeneous(batch) then (w, Err(MixedBatch))
    else
      var (w', res) := Serve(Swap(w, batch[0].route), batch);
      (w'.(active := None), res)
  }

  class RouteAwareBlockAllocator {
    var blocks: map<nat, Block>
    var freeBlocks: seq<nat>

    ghost function View(): Allocator
      reads this
    {
      Allocator(freeBlocks, blocks)
    }

    constructor (numBlocks: nat)
      ensures View() == Fresh(numBlocks)
    {
      blocks := map i | i in Ids(numBlocks) :: Block(None, 0);
      freeBlocks := seq(numBlocks, i => i);
    }

    method Allocate(route: Option<RouteId>) returns (id: Result<nat, Error>)
      requires freeBlocks == [] || freeBlocks[0] in blocks
      modifies this
      ensures old(freeBlocks) == [] ==> id == Err(OutOfBlocks) && View() == old(View())
      ensures old(freeBlocks) != [] ==> id == Ok(old(freeBlocks[0])) && View() == Popped(old(View()), route)
    {
      if freeBlocks == [] {
        return Err(OutOfBlocks);
      }
      var next := freeBlocks[0];
      freeBlocks := freeBlocks[1..];
      blocks := blocks[next := blocks[next].(route := route)];
      blocks := blocks[next := blocks[next].(refCount := 1)];
      id := Ok(next);
    }

    method VerifyAccess(id: nat, route: Option<RouteId>) returns (ok: bool)
      requires id in blocks
      ensures ok <==> blocks[id].route == route
    {
      ok := blocks[id].route == route;
    }
  }

  function Ids(n: nat): (ids: set<nat>)
    ensures forall b: nat :: b in ids <==> b < n
    ensures |ids| == n
  {
    if n == 0 then {} else Ids(n - 1) + {n - 1}
  }

  function Fresh(numBlocks: nat): Allocator {
    Allocator(seq(numBlocks, i => i), map i | i in Ids(numBlocks) :: Block(None, 0))
  }

  /** The runner. The block lists and statuses the requests carry are the two tables here. */
  class RouteAwareModelRunner {
    const allocator: RouteAwareBlockAllocator
    var kvBlocks: map<Request, seq<nat>>
    var completed: set<Request>
    var activeWeightsRoute: Option<RouteId>
    var isQuarantined: bool
    var routeLeakageEvents: nat
    var rollbackFailures: nat
    var swapsPerformed: nat

    ghost function View(): Runner
      reads this, allocator
    {
      Runner(allocator.View(), kvBlocks, completed, activeWeightsRoute, isQuarantined,
             routeLeakageEvents, rollbackFailures, swapsPerformed)
    }

    constructor (allocator: RouteAwareBlockAllocator)
      ensures this.allocator == allocator
      ensures View() == Start(allocator.View())
    {
      this.allocator := allocator;
      kvBlocks, completed := map[], {};
      activeWeightsRoute, isQuarantined := None, false;
      routeLeakageEvents, rollbackFailures, swapsPerformed := 0, 0, 0;
    }

    method SwapWeights(route: Option<RouteId>)
      modifies this
      ensures View() == Swap(old(View()), route)
    {
      if activeWeightsRoute == route {
        return;
      }
      activeWeightsRoute := route;
      swapsPerformed := swapsPerformed + 1;
    }

    method ExecuteForwardPass(batch: seq<Request>) returns (res: Result<(), Error>)
      requires InRange(View())
      modifies this, allocator
      ensures (View(), res) == Execute(old(View()), batch)
    {
      if isQuarantined {
        return Err(InQuarantine);
      }
      if batch == [] {
        return Ok(());
      }
      var target := batch[0].route;
      var i := 0;
      while i < |batch|
        invariant 0 <= i <= |batch|
        invariant forall j :: 0 <= j < i ==> batch[j].route == target
      {
        if batch[i].route != target {
          return Err(MixedBatch);
        }
        i := i + 1;
      }
      SwapWeights(target);
      res := Forward(batch);
      activeWeightsRoute := None;
    }

    // The loop inside the try block.
    method Forward(batch: seq<Request>) returns (res: Result<(), Error>)
      requires InRange(View())
      modifies this, allocator
      ensures (View(), res) == Serve(old(View()), batch)
    {
      var i := 0;
      while i < |batch|
        invariant 0 <= i <= |batch| && InRange(View())
        invariant Serve(old(View()), batch) == Serve(View(), batch[i..])
      {
        var ok := VerifyBlocks(batch[i]);
        if !ok {
          routeLeakageEvents := routeLeakageEvents + 1;
          return Err(RouteLeakage);
        }
        res := GrantBlock(batch[i]);
        if res.Err? {
          return;
        }
        assert batch[i..][1..] == batch[i + 1..];
        i := i + 1;
      }
      res := Ok(());
    }

    // The end of the loop body.
    method GrantBlock(r: Request) returns (res: Result<(), Error>)
      requires InRange(View())
      modifies this, allocator
      ensures old(View()).alloc.free == [] ==> res == Err(OutOfBlocks) && View() == old(View())
      ensures old(View()).alloc.free != [] ==> res == Ok(()) && View() == Grant(old(View()), r)
    {
      ghost var before := View();
      var block := allocator.Allocate(r.route);
      if block.Err? {
        return Err(block.error);
      }
      kvBlocks := kvBlocks[r := (if r in kvBlocks then kvBlocks[r] else []) + [block.value]];
      completed := completed + {r};
      assert View() == Grant(before, r);
      res := Ok(());
    }

    method VerifyBlocks(r: Request) returns (ok: bool)
      requires InRange(View())
      ensures ok <==> Accessible(View(), r)
    {
      var held := if r in kvBlocks then kvBlocks[r] else [];
      assert held == Held(View(), r);
      var i := 0;
      while i < |held|
        invariant 0 <= i <= |held|
        invariant forall j :: 0 <= j < i ==> allocator.blocks[held[j]].route == r.route
      {
        ok := allocator.VerifyAccess(held[i], r.route);
        if !ok {
          assert View().alloc.blocks[Held(View(), r)[i]].route != r.route;
          return;
        }
        i := i + 1;
      }
      ok := true;
    }
  }

  function Start(a: Allocator): Runner {
    Runner(a, map[], {}, None, false, 0, 0, 0)
  }

  // ----- Blocks have one owner and its route's tag -----

  ghost predicate Distinct(s: seq<nat>) {
    forall i, j :: 0 <= i < j < |s| ==> s[i] != s[j]
  }

  ghost predicate Owns(kv: map<Request, seq<nat>>, r: Request, b: nat) {
    r in kv && b in kv[r]
  }

  ghost predicate SoundBlocks(a: Allocator, kv: map<Request, seq<nat>>, total: nat) {
    && a.blocks.Keys == Ids(total)
    && Distinct(a.free)
    && (forall i :: 0 <= i < |a.free| ==> a.free[i] in a.blocks)
    && (forall r :: r in kv ==> Distinct(kv[r]))
    && (forall r, b: nat :: Owns(kv, r, b) ==> b in a.blocks && b !in a.free && a.blocks[b] == Block(r.route, 1))
    && (forall r, r', b: nat :: Owns(kv, r, b) && Owns(kv, r', b) ==> r == r')
    && (forall b: nat :: b in a.blocks ==> b in a.free || exists r :: Owns(kv, r, b))
  }

  ghost predicate Clean(w: Runner) {
    !w.quarantined && w.leaks == 0 && w.rollbackFailures == 0
  }

  lemma SoundInRange(w: Runner, total: nat)
    requires SoundBlocks(w.alloc, w.kv, total)
    ensures InRange(w)
    ensures forall r :: Accessible(w, r)
  {
    forall r, i | r in w.kv && 0 <= i < |w.kv[r]| ensures Owns(w.kv, r, w.kv[r][i]) {
    }
  }

  // The granted block leaves the free list and gains its one owner.
  lemma GrantMoves(w: Runner, r: Request, total: nat)
    requires SoundBlocks(w.alloc, w.kv, total) && w.alloc.free != []
    ensures var w', b := Grant(w, r), w.alloc.free[0];
      && (forall x: nat :: x in w'.alloc.free <==> x in w.alloc.free && x != b)
      && (forall r', x: nat :: Owns(w'.kv, r', x) <==> Owns(w.kv, r', x) || (r' == r && x == b))
      && Distinct(w'.kv[r])
  {
    var w', b := Grant(w, r), w.alloc.free[0];
    forall x: nat ensures x in w'.alloc.free <==> x in w.alloc.free && x != b {
      assert w.alloc.free == [b] + w'.alloc.free;
    }
    forall i, j | 0 <= i < j < |w'.kv[r]| ensures w'.kv[r][i] != w'.kv[r][j] {
      if j == |w.kv[r]| && r in w.kv {
        assert Owns(w.kv, r, w.kv[r][i]);
      }
    }
  }

  lemma GrantKeeps(w: Runner, r: Request, total: nat)
    requires SoundBlocks(w.alloc, w.kv, total) && w.alloc.free != []
    ensures SoundBlocks(Grant(w, r).alloc, Grant(w, r).kv, total)
  {
    GrantMoves(w, r, total);
    GrantAccounts(w, r, total);
    GrantTags(w, r, total);
  }

  lemma GrantTags(w: Runner, r: Request, total: nat)
    requires SoundBlocks(w.alloc, w.kv, total) && w.alloc.free != []
    ensures var w' := Grant(w, r);
      forall r', x: nat :: Owns(w'.kv, r', x) ==>
        x in w'.alloc.blocks && x !in w'.alloc.free && w'.alloc.blocks[x] == Block(r'.route, 1)
  {
    GrantMoves(w, r, total);
  }

  // Every block is still free or owned.
  lemma GrantAccounts(w: Runner, r: Request, total: nat)
    requires SoundBlocks(w.alloc, w.kv, total) && w.alloc.free != []
    ensures var w' := Grant(w, r);
      forall x: nat :: x in w'.alloc.blocks ==> x in w'.alloc.free || exists r' :: Owns(w'.kv, r', x)
  {
    var w', b := Grant(w, r), w.alloc.free[0];
    GrantMoves(w, r, total);
    forall x: nat | x in w'.alloc.blocks && x !in w'.alloc.free ensures exists r' :: Owns(w'.kv, r', x) {
      if x == b {
        assert Owns(w'.kv, r, b);
      } else {
        var r' :| Owns(w.kv, r', x);
        assert Owns(w'.kv, r', x);
      }
    }
  }

  // Serving never finds a foreign tag, and stops early only for want of blocks: it grants
  // as many requests as there are free blocks.
  lemma {:induction false} ServeKeeps(w: Runner, batch: seq<Request>, total: nat)
    requires SoundBlocks(w.alloc, w.kv, total)
    ensures InRange(w)
    ensures var (w', res) := Serve(w, batch);
      && SoundBlocks(w'.alloc, w'.kv, total)
      && w'.(alloc := w.alloc, kv := w.kv, completed := w.completed) == w
      && res == (if |batch| <= |w.alloc.free| then Ok(()) else Err(OutOfBlocks))
      && |w'.alloc.free| == if |batch| <= |w.alloc.free| then |w.alloc.free| - |batch| else 0
    decreases |batch|
  {
    SoundInRange(w, total);
    if batch != [] && w.alloc.free != [] {
      GrantKeeps(w, batch[0], total);
      ServeKeeps(Grant(w, batch[0]), batch[1..], total);
    }
  }

  // The blocks that r gets when the batch is served from the free list.
  function Share(batch: seq<Request>, free: seq<nat>, r: Request): seq<nat>
    decreases |batch|
  {
    if batch == [] || free == [] then []
    else (if batch[0] == r then [free[0]] else []) + Share(batch[1..], free[1..], r)
  }

  // The requests that n blocks suffice for.
  function Served(batch: seq<Request>, n: nat): seq<Request> {
    batch[..if |batch| <= n then |batch| else n]
  }

  lemma ServedFirst(batch: seq<Request>, n: nat, r: Request)
    requires batch != [] && n > 0
    ensures r in Served(batch, n) <==> r == batch[0] || r in Served(batch[1..], n - 1)
  {
    assert Served(batch, n) == [batch[0]] + Served(batch[1..], n - 1);
  }

  // As many requests as there are free blocks are completed, and no others.
  lemma {:induction false} ServeCompletes(w: Runner, batch: seq<Request>, total: nat, r: Request)
    requires SoundBlocks(w.alloc, w.kv, total)
    ensures InRange(w)
    ensures var w', done := Serve(w, batch).0, r in Served(batch, |w.alloc.free|);
      && (r in w'.completed <==> r in w.completed || done) && (r in w'.kv <==> r in w.kv || done)
    decreases |batch|
  {
    SoundInRange(w, total);
    if batch != [] && w.alloc.free != [] {
      var w' := ServeNext(w, batch, total);
      ServedFirst(batch, |w.alloc.free|, r);
      ServeCompletes(w', batch[1..], total, r);
    }
  }

  lemma NextShare(w: Runner, batch: seq<Request>, r: Request)
    requires batch != [] && w.alloc.free != []
    ensures var w' := Grant(w, batch[0]);
      Held(w, r) + Share(batch, w.alloc.free, r) == Held(w', r) + Share(batch[1..], w'.alloc.free, r)
  {
    GrantHeld(w, batch[0], r);
    Regrouped(Held(w, r), if batch[0] == r then [w.alloc.free[0]] else [], Share(batch[1..], w.alloc.free[1..], r));
  }

  lemma Regrouped(a: seq<nat>, b: seq<nat>, c: seq<nat>)
    ensures (a + b) + c == a + (b + c)
  {
  }

  lemma GrantHeld(w: Runner, r: Request, other: Request)
    requires w.alloc.free != []
    ensures Held(Grant(w, r), other) == Held(w, other) + if r == other then [w.alloc.free[0]] else []
  {
  }

  lemma ServeNext(w: Runner, batch: seq<Request>, total: nat) returns (w': Runner)
    requires SoundBlocks(w.alloc, w.kv, total) && batch != [] && w.alloc.free != []
    ensures w' == Grant(w, batch[0]) && SoundBlocks(w'.alloc, w'.kv, total)
    ensures InRange(w) && InRange(w') && Serve(w, batch) == Serve(w', batch[1..])
  {
    w' := Grant(w, batch[0]);
    SoundInRange(w, total);
    GrantKeeps(w, batch[0], total);
    SoundInRange(w', total);
  }

  // They get the free blocks, one each in order; nothing else is given out.
  lemma {:induction false} ServeGrants(w: Runner, batch: seq<Request>, total: nat, r: Request)
    requires SoundBlocks(w.alloc, w.kv, total)
    ensures InRange(w) && Held(Serve(w, batch).0, r) == Held(w, r) + Share(batch, w.alloc.free, r)
    decreases |batch|
  {
    SoundInRange(w, total);
    if batch != [] && w.alloc.free != [] {
      var w' := ServeNext(w, batch, total);
      ServeGrants(w', batch[1..], total, r);
      NextShare(w, batch, r);
    }
  }

  // Request i gets block i.
  lemma {:induction false} ShareHas(batch: seq<Request>, free: seq<nat>, i: nat)
    requires i < |batch| && i < |free|
    ensures free[i] in Share(batch, free, batch[i])
    decreases i
  {
    if i > 0 {
      ShareHas(batch[1..], free[1..], i - 1);
    }
  }

  // The guards, read from the fields: quarantine first, then the empty batch, then a second
  // route in the batch, none of which changes anything; then a block of the first request
  // with another route's tag, which is counted as a leak and rolled back.
  lemma GuardsInOrder(w: Runner, batch: seq<Request>)
    requires InRange(w)
    ensures var (w', res) := Execute(w, batch);
      && (res == Err(InQuarantine) <==> w.quarantined)
      && (res == Err(MixedBatch) <==>
            !w.quarantined && exists i :: 0 <= i < |batch| && batch[i].route != batch[0].route)
      && (w.quarantined || batch == [] || res == Err(MixedBatch) ==> w' == w)
      && (!w.quarantined && batch == [] ==> res == Ok(()))
      && (!w.quarantined && batch != [] && res != Err(MixedBatch) ==>
        && w'.active == None
        && w'.swaps == w.swaps + (if w.active == batch[0].route then 0 else 1)
        && ((exists b :: b in Held(w, batch[0]) && w.alloc.blocks[b].route != batch[0].route) ==>
              res == Err(RouteLeakage) && w' == w.(active := None, swaps := w'.swaps, leaks := w.leaks + 1)))
  {
    if !w.quarantined && batch != [] && Homogeneous(batch) {
      var v := Swap(w, batch[0].route);
      ServeFrame(v, batch);
      if b :| b in Held(w, batch[0]) && w.alloc.blocks[b].route != batch[0].route {
        var i :| 0 <= i < |Held(w, batch[0])| && Held(w, batch[0])[i] == b;
        assert Held(v, batch[0])[i] == b;
      }
    }
  }

  lemma {:induction false} ServeFrame(w: Runner, batch: seq<Request>)
    requires InRange(w)
    ensures var (w', res) := Serve(w, batch);
      && w'.swaps == w.swaps && w'.active == w.active && w'.quarantined == w.quarantined
      && res !in {Err(InQuarantine), Err(MixedBatch)}
    decreases |batch|
  {
    if batch != [] && Accessible(w, batch[0]) && w.alloc.free != [] {
      ServeFrame(Grant(w, batch[0]), batch[1..]);
    }
  }

  // ----- Runs of the pipeline -----

  datatype Pipeline = Pipeline(runner: Runner, pending: seq<Request>, max: int)

  datatype Step = Add(req: Request) | Dispatch

  function Batch(p: Pipeline, s: Step): seq<Request> {
    if s == Dispatch then NextBatch(p.pending, p.max) else []
  }

  function After(p: Pipeline, s: Step): Pipeline
    requires InRange(p.runner)
  {
    match s
    case Add(r) => p.(pending := p.pending + [r])
    case Dispatch =>
      p.(runner := Execute(p.runner, Batch(p, s)).0, pending := Remaining(p.pending, p.max))
  }

  function Outcome(p: Pipeline, s: Step): Result<(), Error>
    requires InRange(p.runner)
  {
    if s == Dispatch then Execute(p.runner, Batch(p, s)).1 else Ok(())
  }

  ghost predicate Inv(p: Pipeline, total: nat) {
    SoundBlocks(p.runner.alloc, p.runner.kv, total) && Clean(p.runner) && p.runner.active == None
  }

  lemma StartSound(numBlocks: nat, max: int)
    ensures Inv(Pipeline(Start(Fresh(numBlocks)), [], max), numBlocks)
  {
    var a := Fresh(numBlocks);
    forall b: nat | b in a.blocks ensures b in a.free {
      assert a.free[b] == b;
    }
  }

  lemma ExecuteKeeps(w: Runner, batch: seq<Request>, total: nat)
    requires SoundBlocks(w.alloc, w.kv, total) && Clean(w) && w.active == None && Homogeneous(batch)
    ensures InRange(w)
    ensures var (w', res) := Execute(w, batch);
      && SoundBlocks(w'.alloc, w'.kv, total) && Clean(w') && w'.active == None
      && res == (if |batch| <= |w.alloc.free| then Ok(()) else Err(OutOfBlocks))
      && w'.swaps == w.swaps + if batch != [] && batch[0].route != None then 1 else 0
  {
    SoundInRange(w, total);
    if batch != [] {
      ServeKeeps(Swap(w, batch[0].route), batch, total);
    }
  }

  // A step keeps the blocks sound and swaps once per batch of a real route; running out of
  // blocks is the only error, raised exactly when the batch is longer than the free list.
  lemma StepKeeps(p: Pipeline, s: Step, total: nat)
    requires Inv(p, total)
    ensures InRange(p.runner)
    ensures Inv(After(p, s), total)
    ensures Outcome(p, s) == (if |Batch(p, s)| <= |p.runner.alloc.free| then Ok(()) else Err(OutOfBlocks))
    ensures After(p, s).runner.swaps
      == p.runner.swaps + if Batch(p, s) != [] && p.pending[0].route != None then 1 else 0
  {
    SoundInRange(p.runner, total);
    if s == Dispatch {
      ExecuteKeeps(p.runner, Batch(p, s), total);
    }
  }

  ghost function Run(p: Pipeline, run: seq<Step>, total: nat): (p': Pipeline)
    requires Inv(p, total)
    ensures Inv(p', total)
    decreases |run|
  {
    StepKeeps(p, if run == [] then Dispatch else run[0], total);
    if run == [] then p else Run(After(p, run[0]), run[1..], total)
  }

  // The requests dispatched in a run, in order, and those added.
  ghost function Dispatched(p: Pipeline, run: seq<Step>, total: nat): seq<Request>
    requires Inv(p, total)
    decreases |run|
  {
    StepKeeps(p, if run == [] then Dispatch else run[0], total);
    if run == [] then [] else Batch(p, run[0]) + Dispatched(After(p, run[0]), run[1..], total)
  }

  // From w to w', r gains its share of the blocks, and is completed if it gets any.
  ghost predicate Gains(w: Runner, w': Runner, batch: seq<Request>, r: Request) {
    var free := w.alloc.free; var done := r in Served(batch, |free|);
    && (r in w'.completed <==> r in w.completed || done) && (r in w'.kv <==> r in w.kv || done)
    && Held(w', r) == Held(w, r) + Share(batch, free, r)
    && |w'.alloc.free| == |free| - |Served(batch, |free|)|
  }

  lemma ServeGains(w: Runner, batch: seq<Request>, total: nat, r: Request)
    requires SoundBlocks(w.alloc, w.kv, total)
    ensures InRange(w) && Gains(w, Serve(w, batch).0, batch, r)
  {
    ServeKeeps(w, batch, total);
    ServeCompletes(w, batch, total, r);
    ServeGrants(w, batch, total, r);
  }

  lemma ExecuteGains(w: Runner, batch: seq<Request>, total: nat, r: Request)
    requires SoundBlocks(w.alloc, w.kv, total) && !w.quarantined && Homogeneous(batch)
    ensures InRange(w) && Gains(w, Execute(w, batch).0, batch, r)
  {
    SoundInRange(w, total);
    if batch != [] {
      ServeGains(Swap(w, batch[0].route), batch, total, r);
    }
  }

  lemma StepGains(p: Pipeline, s: Step, total: nat, r: Request)
    requires Inv(p, total)
    ensures InRange(p.runner) && Gains(p.runner, After(p, s).runner, Batch(p, s), r)
  {
    ExecuteGains(p.runner, Batch(p, s), total, r);
  }

  lemma ServedAppend(a: seq<Request>, b: seq<Request>, n: nat)
    ensures Served(a + b, n) == Served(a, n) + Served(b, n - |Served(a, n)|)
  {
  }

  // Over a run, the requests completed are exactly the first of those dispatched, as many as
  // there were free blocks, and they are the ones that hold blocks.
  lemma {:induction false} CompletedIff(p: Pipeline, run: seq<Step>, total: nat, r: Request)
    requires Inv(p, total)
    ensures var w, w' := p.runner, Run(p, run, total).runner;
      var done := r in Served(Dispatched(p, run, total), |w.alloc.free|);
      (r in w'.completed <==> r in w.completed || done) && (r in w'.kv <==> r in w.kv || done)
    decreases |run|
  {
    if run != [] {
      StepKeeps(p, run[0], total);
      StepGains(p, run[0], total, r);
      var p' := After(p, run[0]);
      CompletedIff(p', run[1..], total, r);
      ServedAppend(Batch(p, run[0]), Dispatched(p', run[1..], total), |p.runner.alloc.free|);
    }
  }

  function Added(run: seq<Step>): seq<Request> {
    if run == [] then [] else (if run[0].Add? then [run[0].req] else []) + Added(run[1..])
  }

  function Dispatches(run: seq<Step>): nat {
    if run == [] then 0 else (if run[0].Dispatch? then 1 else 0) + Dispatches(run[1..])
  }

  // In every run no leak is counted, nothing is quarantined, the weights rest at base, and
  // the free and the owned blocks together are all the blocks.
  lemma RunKeeps(numBlocks: nat, max: int, run: seq<Step>)
    ensures var p := Pipeline(Start(Fresh(numBlocks)), [], max);
      && Inv(p, numBlocks)
      && var w := Run(p, run, numBlocks).runner;
        && w.leaks == 0 && !w.quarantined && w.active == None
        && (forall r, r', b :: Owns(w.kv, r, b) && Owns(w.kv, r', b) ==> r == r')
        && (forall r, b :: Owns(w.kv, r, b) ==> b in w.alloc.blocks && w.alloc.blocks[b].route == r.route)
        && |w.alloc.free| + |OwnedBlocks(w)| == numBlocks
  {
    var p := Pipeline(Start(Fresh(numBlocks)), [], max);
    StartSound(numBlocks, max);
    BlocksAdd(Run(p, run, numBlocks).runner, numBlocks);
  }

  ghost function OwnedBlocks(w: Runner): set<nat> {
    set r, b | r in w.kv && b in w.kv[r] :: b
  }

  lemma {:induction false} DistinctCount(s: seq<nat>, n: nat)
    requires Distinct(s) && n <= |s|
    ensures |set i | 0 <= i < n :: s[i]| == n
  {
    if n > 0 {
      DistinctCount(s, n - 1);
      var rest := set i | 0 <= i < n - 1 :: s[i];
      assert (set i | 0 <= i < n :: s[i]) == rest + {s[n - 1]};
      assert s[n - 1] !in rest;
    }
  }

  function FreeBlocks(free: seq<nat>): set<nat> {
    set b | b in free
  }

  lemma FreeOrOwned(w: Runner, total: nat)
    requires SoundBlocks(w.alloc, w.kv, total)
    ensures FreeBlocks(w.alloc.free) + OwnedBlocks(w) == w.alloc.blocks.Keys
    ensures FreeBlocks(w.alloc.free) !! OwnedBlocks(w)
  {
    forall b: nat ensures b in OwnedBlocks(w) <==> exists r :: Owns(w.kv, r, b) {
      if b in OwnedBlocks(w) {
        var r :| r in w.kv && b in w.kv[r];
        assert Owns(w.kv, r, b);
      }
    }
  }

  lemma FreeCount(free: seq<nat>)
    requires Distinct(free)
    ensures |FreeBlocks(free)| == |free|
  {
    DistinctCount(free, |free|);
    assert FreeBlocks(free) == set i | 0 <= i < |free| :: free[i];
  }

  lemma BlocksAdd(w: Runner, total: nat)
    requires SoundBlocks(w.alloc, w.kv, total)
    ensures |w.alloc.free| + |OwnedBlocks(w)| == total
  {
    FreeOrOwned(w, total);
    FreeCount(w.alloc.free);
    UnionCount(FreeBlocks(w.alloc.free), OwnedBlocks(w), total);
  }

  lemma UnionCount(a: set<nat>, b: set<nat>, total: nat)
    requires a !! b && a + b == Ids(total)
    ensures |a| + |b| == total
  {
    assert |a + b| == |a| + |b|;
  }

  // ----- Nothing is lost, and the wait is bounded -----

  // Taking the first k of a route leaves the others of it, and all of any other route.
  lemma {:induction false} WithoutOwn(q: seq<Request>, route: Option<RouteId>, k: nat)
    requires k <= |Matching(q, route)|
    ensures Matching(Without(q, route, k), route) == Matching(q, route)[k..]
    decreases |q|
  {
    if q != [] && k > 0 {
      if q[0].route == route {
        WithoutOwn(q[1..], route, k - 1);
        Tail(q[0], Matching(q[1..], route), k);
      } else {
        WithoutOwn(q[1..], route, k);
        MatchingCons(q[0], Without(q[1..], route, k), route);
      }
    }
  }

  lemma {:induction false} WithoutOther(q: seq<Request>, route: Option<RouteId>, k: nat, other: Option<RouteId>)
    requires other != route
    ensures Matching(Without(q, route, k), other) == Matching(q, other)
    decreases |q|
  {
    if q != [] && k > 0 {
      if q[0].route == route {
        WithoutOther(q[1..], route, k - 1, other);
      } else {
        WithoutOther(q[1..], route, k, other);
        MatchingCons(q[0], Without(q[1..], route, k), other);
      }
    }
  }

  lemma Tail(r: Request, s: seq<Request>, k: nat)
    requires 0 < k <= |s| + 1
    ensures ([r] + s)[k..] == s[k - 1..]
  {
  }

  lemma MatchingCons(r: Request, q: seq<Request>, route: Option<RouteId>)
    ensures Matching([r] + q, route) == if r.route == route then [r] + Matching(q, route) else Matching(q, route)
  {
    assert ([r] + q)[1..] == q;
  }

  lemma {:induction false} AllMatch(q: seq<Request>, route: Option<RouteId>)
    requires forall i :: 0 <= i < |q| ==> q[i].route == route
    ensures forall other :: Matching(q, other) == if other == route then q else []
  {
    if q != [] {
      AllMatch(q[1..], route);
    }
  }

  lemma BatchThenRest(q: seq<Request>, max: int, route: Option<RouteId>)
    ensures Matching(NextBatch(q, max), route) + Matching(Remaining(q, max), route) == Matching(q, route)
  {
    if q != [] {
      var group := Matching(q, q[0].route);
      PrefixThenRest(q, q[0].route, Taken(|group|, max), route);
    }
  }

  lemma PrefixThenRest(q: seq<Request>, target: Option<RouteId>, k: nat, route: Option<RouteId>)
    requires k <= |Matching(q, target)|
    ensures Matching(Matching(q, target)[..k], route) + Matching(Without(q, target, k), route) == Matching(q, route)
  {
    var group := Matching(q, target);
    AllMatch(group[..k], target);
    if route == target {
      WithoutOwn(q, target, k);
      Halves(group, k);
    } else {
      WithoutOther(q, target, k, route);
    }
  }

  lemma Halves(s: seq<Request>, k: nat)
    requires k <= |s|
    ensures s[..k] + s[k..] == s
  {
  }

  lemma StepConserves(p: Pipeline, s: Step, total: nat, route: Option<RouteId>)
    requires Inv(p, total)
    ensures InRange(p.runner)
    ensures Matching(Batch(p, s), route) + Matching(After(p, s).pending, route)
      == Matching(p.pending, route) + Matching(Added([s]), route)
  {
    StepKeeps(p, s, total);
    if s.Add? {
      MatchingAppend(p.pending, [s.req], route);
    } else {
      BatchThenRest(p.pending, p.max, route);
    }
  }

  // Per route, what was dispatched and then what is pending is what was pending and then
  // what was added, in that order.
  lemma {:induction false} NothingLost(p: Pipeline, run: seq<Step>, total: nat, route: Option<RouteId>)
    requires Inv(p, total)
    ensures Matching(Dispatched(p, run, total), route) + Matching(Run(p, run, total).pending, route)
      == Matching(p.pending, route) + Matching(Added(run), route)
    decreases |run|
  {
    if run != [] {
      StepConserves(p, run[0], total, route);
      StepKeeps(p, run[0], total);
      var p' := After(p, run[0]);
      var later := Dispatched(p', run[1..], total);
      NothingLost(p', run[1..], total, route);
      RunParts(p, run, total, route);
      Regroup(Matching(Batch(p, run[0]), route), Matching(later, route), Matching(Run(p, run, total).pending, route),
              Matching(p'.pending, route), Matching(Added(run[1..]), route),
              Matching(p.pending, route), Matching(Added([run[0]]), route));
    }
  }

  // The run's dispatches and additions are those of its first step and of the rest.
  lemma RunParts(p: Pipeline, run: seq<Step>, total: nat, route: Option<RouteId>)
    requires Inv(p, total) && run != []
    ensures InRange(p.runner) && Inv(After(p, run[0]), total)
    ensures Matching(Dispatched(p, run, total), route)
      == Matching(Batch(p, run[0]), route) + Matching(Dispatched(After(p, run[0]), run[1..], total), route)
    ensures Matching(Added(run), route) == Matching(Added([run[0]]), route) + Matching(Added(run[1..]), route)
    ensures Run(p, run, total) == Run(After(p, run[0]), run[1..], total)
  {
    StepKeeps(p, run[0], total);
    MatchingAppend(Batch(p, run[0]), Dispatched(After(p, run[0]), run[1..], total), route);
    AddedParts(run, route);
  }

  lemma AddedParts(run: seq<Step>, route: Option<RouteId>)
    requires run != []
    ensures Matching(Added(run), route) == Matching(Added([run[0]]), route) + Matching(Added(run[1..]), route)
  {
    MatchingAppend(Added([run[0]]), Added(run[1..]), route);
    assert Added(run) == Added([run[0]]) + Added(run[1..]);
  }

  lemma Regroup(a: seq<Request>, b: seq<Request>, c: seq<Request>, d: seq<Request>, e: seq<Request>,
                f: seq<Request>, g: seq<Request>)
    requires b + c == d + e && a + d == f + g
    ensures (a + b) + c == f + (g + e)
  {
    assert (a + b) + c == a + (b + c);
    assert a + (d + e) == (a + d) + e;
    assert (f + g) + e == f + (g + e);
  }

  // The first position of r in the queue.
  function First(q: seq<Request>, r: Request): nat
    requires r in q
  {
    if q[0] == r then 0 else 1 + First(q[1..], r)
  }

  lemma {:induction false} FirstBound(q: seq<Request>, i: nat)
    requires i < |q|
    ensures First(q, q[i]) <= i
  {
    if q[0] != q[i] {
      FirstBound(q[1..], i - 1);
    }
  }

  lemma {:induction false} FirstAppend(q: seq<Request>, more: seq<Request>, r: Request)
    requires r in q
    ensures First(q + more, r) == First(q, r)
  {
    if q[0] != r {
      assert (q + more)[1..] == q[1..] + more;
      FirstAppend(q[1..], more, r);
    }
  }

  lemma MatchingHead(q: seq<Request>, k: nat)
    requires q != [] && 0 < k <= |Matching(q, q[0].route)|
    ensures var m := Matching(q, q[0].route)[..k];
      m == [q[0]] + Matching(q[1..], q[0].route)[..k - 1] && m[0] == q[0]
  {
  }

  // A request that is not among the k removed keeps its place and gets no later.
  lemma {:induction false} FirstAfterRemoval(q: seq<Request>, route: Option<RouteId>, k: nat, r: Request)
    requires r in q && k <= |Matching(q, route)| && r !in Matching(q, route)[..k]
    ensures r in Without(q, route, k) && First(Without(q, route, k), r) <= First(q, r)
  {
    if k > 0 && q[0] == r {
      if r.route == route {
        MatchingHead(q, k);
        assert false;
      }
    } else if k > 0 {
      if q[0].route == route {
        MatchingHead(q, k);
        FirstAfterRemoval(q[1..], route, k - 1, r);
      } else {
        FirstAfterRemoval(q[1..], route, k, r);
        var left := Without(q[1..], route, k);
        assert ([q[0]] + left)[1..] == left;
      }
    }
  }

  // A dispatch either takes the request or moves it forward, unless the slice is empty.
  lemma DispatchAdvances(q: seq<Request>, max: int, r: Request)
    requires r in q && NextBatch(q, max) != [] && r !in NextBatch(q, max)
    ensures r in Remaining(q, max) && First(Remaining(q, max), r) < First(q, r)
  {
    var target, k := q[0].route, |NextBatch(q, max)|;
    MatchingHead(q, k);
    FirstAfterRemoval(q[1..], target, k - 1, r);
  }

  // With room for one request in a batch, the request at position i is dispatched within
  // i + 1 dispatches, whatever arrives meanwhile and whether or not dispatches fail.
  lemma {:induction false} DispatchedInTurn(p: Pipeline, run: seq<Step>, total: nat, r: Request)
    requires Inv(p, total) && p.max >= 1
    requires r in p.pending && First(p.pending, r) < Dispatches(run)
    ensures r in Dispatched(p, run, total)
    decreases |run|
  {
    StepKeeps(p, run[0], total);
    var p' := After(p, run[0]);
    if run[0].Add? {
      FirstAppend(p.pending, [run[0].req], r);
      DispatchedInTurn(p', run[1..], total, r);
    } else if r !in NextBatch(p.pending, p.max) {
      DispatchAdvances(p.pending, p.max, r);
      DispatchedInTurn(p', run[1..], total, r);
    }
  }

  lemma BoundedWait(p: Pipeline, run: seq<Step>, total: nat, i: nat)
    requires Inv(p, total) && p.max >= 1
    requires i < |p.pending| && i < Dispatches(run)
    ensures p.pending[i] in Dispatched(p, run, total)
  {
    FirstBound(p.pending, i);
    DispatchedInTurn(p, run, total, p.pending[i]);
  }

  // The slice: up to max of the front route's requests, or all but the last -max of them.
  lemma BatchIsSlice(q: seq<Request>, max: int)
    requires q != []
    ensures var group, batch := Matching(q, q[0].route), NextBatch(q, max); var n := |group|;
      && batch <= group && group[0] == q[0]
      && (max >= 0 ==> |batch| <= max && |batch| <= n && |batch| in {max, n})
      && (max < 0 ==> |batch| >= n + max && |batch| in {n + max, 0})
  {
  }

  // A dispatch on a non-empty queue makes no progress exactly when the slice keeps nothing:
  // a limit of zero, or a negative one at least as long as the front route's group.
  lemma StuckIff(q: seq<Request>, max: int)
    requires q != []
    ensures NextBatch(q, max) == [] <==> max == 0 || (max < 0 && |Matching(q, q[0].route)| <= -max)
    ensures NextBatch(q, max) == [] ==> Remaining(q, max) == q
  {
  }
}
