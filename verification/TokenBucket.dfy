/** The per-key token bucket of the proxy, in exact reals. */
module TokenBucket {

  // The wall clock in tokens: what is refilled between two readings is their difference.
  function TokenClock(now: real, rate: real): real {
    now * rate
  }

  // A balance and the token clock at its last refill.
  datatype Bucket = Bucket(tokens: real, mark: real)

  datatype Limiter = Limiter(capacity: real, buckets: map<string, Bucket>)

  function Min(a: real, b: real): real {
    if a <= b then a else b
  }

  // A key's bucket, refilled up to `mark`; a new key starts full.
  function Refilled(l: Limiter, key: string, mark: real): Bucket {
    var b := if key in l.buckets then l.buckets[key] else Bucket(l.capacity, mark);
    Bucket(Min(l.capacity, b.tokens + (mark - b.mark)), mark)
  }

  function Spend(l: Limiter, key: string, n: int, mark: real): (Limiter, bool) {
    var b := Refilled(l, key, mark);
    var ok := b.tokens >= n as real;
    (l.(buckets := l.buckets[key := if ok then b.(tokens := b.tokens - n as real) else b]), ok)
  }

  ghost function Paired(tokens: map<string, real>, last: map<string, real>, rate: real): map<string, Bucket>
    requires tokens.Keys == last.Keys
  {
    map k | k in tokens :: Bucket(tokens[k], TokenClock(last[k], rate))
  }

  lemma PairedUpdate(tokens: map<string, real>, last: map<string, real>, rate: real, key: string, t: real, now: real)
    requires tokens.Keys == last.Keys
    ensures Paired(tokens[key := t], last[key := now], rate)
      == Paired(tokens, last, rate)[key := Bucket(t, TokenClock(now, rate))]
  {
  }

  class RateLimiter {
    const capacity: real
    const refillRate: real
    var tokens: map<string, real>
    var lastRefill: map<string, real>

    ghost predicate Valid()
      reads this
    {
      tokens.Keys == lastRefill.Keys
    }

    ghost function View(): Limiter
      reads this
      requires Valid()
    {
      Limiter(capacity, Paired(tokens, lastRefill, refillRate))
    }

    constructor (capacity: real, refillRate: real)
      ensures Valid() && View() == Limiter(capacity, map[])
      ensures this.refillRate == refillRate
    {
      this.capacity, this.refillRate := capacity, refillRate;
      tokens, lastRefill := map[], map[];
    }

    method Consume(key: string, n: int, now: real) returns (ok: bool)
      requires Valid()
      modifies this
      ensures Valid() && (View(), ok) == Spend(old(View()), key, n, TokenClock(now, refillRate))
      ensures lastRefill == old(lastRefill)[key := now]
    {
      ghost var l, mark := View(), TokenClock(now, refillRate);
      if key !in tokens {
        tokens := tokens[key := capacity];
        lastRefill := lastRefill[key := now];
      }
      var elapsed := now - lastRefill[key];
      var refill := elapsed * refillRate;
      Distribute(lastRefill[key], now, refillRate);
      tokens := tokens[key := Min(capacity, tokens[key] + refill)];
      lastRefill := lastRefill[key := now];
      assert Bucket(tokens[key], mark) == Refilled(l, key, mark);
      ok := tokens[key] >= n as real;
      if ok {
        tokens := tokens[key := tokens[key] - n as real];
      }
      assert tokens == old(tokens)[key := tokens[key]] && lastRefill == old(lastRefill)[key := now];
      PairedUpdate(old(tokens), old(lastRefill), refillRate, key, tokens[key], now);
    }
  }

  lemma Distribute(t0: real, t1: real, rate: real)
    ensures (t1 - t0) * rate == TokenClock(t1, rate) - TokenClock(t0, rate)
  {
  }

  // ----- Runs -----

  datatype Event = Event(key: string, n: nat, mark: real)

  function Run(l: Limiter, run: seq<Event>): Limiter
    decreases |run|
  {
    if run == [] then l else Run(Spend(l, run[0].key, run[0].n, run[0].mark).0, run[1..])
  }

  // Tokens of `key` accepted in the run.
  function Accepted(l: Limiter, run: seq<Event>, key: string): nat
    decreases |run|
  {
    if run == [] then 0
    else
      var (l', ok) := Spend(l, run[0].key, run[0].n, run[0].mark);
      (if ok && run[0].key == key then run[0].n else 0) + Accepted(l', run[1..], key)
  }

  // The clock reads no earlier than `from` and does not go back.
  ghost predicate Forward(run: seq<Event>, from: real) {
    run == [] || (from <= run[0].mark && Forward(run[1..], run[0].mark))
  }

  function End(run: seq<Event>, from: real): real {
    if run == [] then from else run[|run| - 1].mark
  }

  // Every stored balance is in range and was stored no later than `now`.
  ghost predicate Inv(l: Limiter, mark: real) {
    && l.capacity >= 0.0
    && forall k :: k in l.buckets ==> 0.0 <= l.buckets[k].tokens <= l.capacity && l.buckets[k].mark <= mark
  }

  // A call is granted exactly when the capacity and what is in store with the refill cover it.
  lemma GrantedIffCovered(l: Limiter, key: string, n: nat, mark: real)
    requires Inv(l, mark)
    ensures Spend(l, key, n, mark).1 <==>
      n as real <= l.capacity
          && (key in l.buckets ==> n as real <= l.buckets[key].tokens + (mark - l.buckets[key].mark))
  {
  }

  lemma {:induction false} RunInv(l: Limiter, run: seq<Event>, from: real)
    requires Inv(l, from) && Forward(run, from)
    ensures Inv(Run(l, run), End(run, from)) && from <= End(run, from)
    ensures Run(l, run).capacity == l.capacity
    decreases |run|
  {
    if run != [] {
      RunInv(Spend(l, run[0].key, run[0].n, run[0].mark).0, run[1..], run[0].mark);
    }
  }

  // What the key could spend at `mark`.
  function Credit(l: Limiter, key: string, mark: real): real {
    Refilled(l, key, mark).tokens
  }

  // What is accepted in a run is paid for by the credit at its start and the refill in it.
  lemma {:induction false} AcceptedIsPaidFor(l: Limiter, run: seq<Event>, key: string, from: real)
    requires Inv(l, from) && Forward(run, from)
    ensures var end := End(run, from);
      Accepted(l, run, key) as real + Credit(Run(l, run), key, end) <= Credit(l, key, from) + (end - from)
    decreases |run|
  {
    if run != [] {
      var e := run[0];
      var (l', ok) := Spend(l, e.key, e.n, e.mark);
      var spent := if ok && e.key == key then e.n as real else 0.0;
      assert Credit(l', key, e.mark) <= Credit(l, key, from) + (e.mark - from) - spent;
      AcceptedIsPaidFor(l', run[1..], key, e.mark);
    }
  }

  // The credit of a key: full before its first call; growing with the clock up to the
  // capacity; and lowered by a granted call of the key, by exactly the tokens granted,
  // which are at most the credit. Other calls leave it alone, as do the refused ones.
  lemma CreditLaws(l: Limiter, key: string, n: int, mark: real, other: string, later: real)
    ensures key !in l.buckets ==> Credit(l, key, mark) == l.capacity
    ensures key in l.buckets ==>
      var grown := l.buckets[key].tokens + (mark - l.buckets[key].mark);
      Credit(l, key, mark) == if grown <= l.capacity then grown else l.capacity
    ensures mark <= later ==>
      var grown := Credit(l, key, mark) + (later - mark);
      Credit(l, key, later) == if grown <= l.capacity then grown else l.capacity
    ensures var (l', ok) := Spend(l, key, n, mark);
      && (ok <==> n as real <= Credit(l, key, mark))
      && l'.capacity == l.capacity && l'.buckets.Keys == l.buckets.Keys + {key}
      && (forall k :: k in l.buckets && k != key ==> l'.buckets[k] == l.buckets[k])
      && l'.buckets[key] == Bucket(Credit(l, key, mark) - (if ok then n as real else 0.0), mark)
      && (n >= 0 ==> Credit(l', key, mark) == Credit(l, key, mark) - (if ok then n as real else 0.0))
      && (other != key ==> Credit(l', other, later) == Credit(l, other, later))
  {
  }

  // What the key could spend at the end, had the bucket been full at call j.
  function FullAt(l: Limiter, run: seq<Event>, j: nat, key: string): real
    requires j < |run|
  {
    l.capacity + (run[|run| - 1].mark - run[j].mark) - Accepted(Run(l, run[..j]), run[j..], key) as real
  }

  lemma FullLater(l: Limiter, run: seq<Event>, j: nat, key: string)
    requires 0 < j < |run|
    ensures FullAt(l, run, j, key) == FullAt(Spend(l, run[0].key, run[0].n, run[0].mark).0, run[1..], j - 1, key)
  {
    assert run[..j][1..] == run[1..][..j - 1] && run[1..][j - 1..] == run[j..];
  }

  lemma FirstCall(l: Limiter, run: seq<Event>, key: string, from: real) returns (l': Limiter)
    requires Forward(run, from) && run != []
    ensures l' == Spend(l, run[0].key, run[0].n, run[0].mark).0 && Run(l, run) == Run(l', run[1..])
    ensures FullAt(l, run, 0, key) == l.capacity + (run[|run| - 1].mark - run[0].mark) - Accepted(l, run, key) as real
    ensures Credit(l', key, run[0].mark) - Accepted(l', run[1..], key) as real
      == Min(l.capacity, Credit(l, key, from) + (run[0].mark - from)) - Accepted(l, run, key) as real
  {
    l' := Spend(l, run[0].key, run[0].n, run[0].mark).0;
    assert run[..0] == [] && run[0..] == run;
  }

  // No token is lost or made: the credit after a run is the least of what it would be from
  // the credit at the start, without the cap, and from a full bucket at any one call.
  // Place i attains it, |run| standing for the start.
  lemma {:induction false} CreditIsExact(l: Limiter, run: seq<Event>, key: string, from: real) returns (i: nat)
    requires Forward(run, from)
    ensures var end := End(run, from);
      var uncapped := Credit(l, key, from) + (end - from) - Accepted(l, run, key) as real;
      var c := Credit(Run(l, run), key, end);
      && c <= uncapped && (forall j: nat :: j < |run| ==> c <= FullAt(l, run, j, key))
      && i <= |run| && c == if i == |run| then uncapped else FullAt(l, run, i, key)
    decreases |run|
  {
    i := 0;
    if run != [] {
      var e := run[0];
      var l' := FirstCall(l, run, key, from);
      var k := CreditIsExact(l', run[1..], key, e.mark);
      forall j: nat | 0 < j < |run| ensures FullAt(l, run, j, key) == FullAt(l', run[1..], j - 1, key) {
        FullLater(l, run, j, key);
      }
      i := if k < |run| - 1 then k + 1
        else if Credit(l, key, from) + (e.mark - from) <= l.capacity then |run| else 0;
    }
  }

  lemma {:induction false} RunAppend(l: Limiter, a: seq<Event>, b: seq<Event>, from: real)
    requires Forward(a + b, from)
    ensures Run(l, a + b) == Run(Run(l, a), b)
    ensures Forward(a, from) && Forward(b, End(a, from))
    decreases |a|
  {
    if a == [] {
      assert a + b == b;
    } else {
      assert (a + b)[1..] == a[1..] + b;
      RunAppend(Spend(l, a[0].key, a[0].n, a[0].mark).0, a[1..], b, a[0].mark);
    }
  }

  lemma WindowOfMarks(l: Limiter, before: seq<Event>, window: seq<Event>, key: string, from: real)
    requires l.buckets == map[] && l.capacity >= 0.0
    requires Forward(before + window, from) && window != []
    ensures var start := Run(l, before); var end := Run(start, window);
      && Accepted(start, window, key) as real <= l.capacity + (window[|window| - 1].mark - window[0].mark)
      && (forall k :: k in end.buckets ==> 0.0 <= end.buckets[k].tokens <= l.capacity)
  {
    RunAppend(l, before, window, from);
    RunInv(l, before, from);
    var start, m := Run(l, before), window[0].mark;
    AcceptedIsPaidFor(start, window, key, m);
    RunInv(start, window, m);
  }

  // A call at a reading of the wall clock.
  datatype Call = Call(key: string, n: nat, now: real)

  function Mark(c: Call, rate: real): Event {
    Event(c.key, c.n, TokenClock(c.now, rate))
  }

  function Marked(calls: seq<Call>, rate: real): (r: seq<Event>)
    ensures |r| == |calls|
    decreases |calls|
  {
    if calls == [] then []
    else [Mark(calls[0], rate)] + Marked(calls[1..], rate)
  }

  lemma {:induction false} MarkedAppend(a: seq<Call>, b: seq<Call>, rate: real)
    ensures Marked(a + b, rate) == Marked(a, rate) + Marked(b, rate)
    decreases |a|
  {
    if a == [] {
      assert a + b == b;
    } else {
      assert (a + b)[0] == a[0] && (a + b)[1..] == a[1..] + b;
      MarkedAppend(a[1..], b, rate);
    }
  }

  lemma {:induction false} MarkedAt(calls: seq<Call>, rate: real, i: nat)
    requires i < |calls|
    ensures Marked(calls, rate)[i] == Mark(calls[i], rate)
    decreases |calls|
  {
    if i > 0 {
      MarkedAt(calls[1..], rate, i - 1);
    }
  }

  ghost predicate Ordered(calls: seq<Call>) {
    forall i, j :: 0 <= i < j < |calls| ==> calls[i].now <= calls[j].now
  }

  lemma Monotone(t0: real, t1: real, rate: real)
    requires rate >= 0.0 && t0 <= t1
    ensures TokenClock(t0, rate) <= TokenClock(t1, rate)
  {
  }

  lemma {:induction false} OrderedForward(calls: seq<Call>, rate: real, from: real)
    requires rate >= 0.0 && Ordered(calls) && (calls == [] || from <= calls[0].now)
    ensures Forward(Marked(calls, rate), TokenClock(from, rate))
    decreases |calls|
  {
    if calls != [] {
      Monotone(from, calls[0].now, rate);
      OrderedForward(calls[1..], rate, calls[0].now);
      assert Marked(calls, rate)[1..] == Marked(calls[1..], rate);
    }
  }

  // In every window of every run with a clock that does not go back, a key's accepted
  // tokens are at most the capacity plus what the window's length refills, and the stored
  // balances stay between zero and the capacity.
  lemma WindowBound(l: Limiter, rate: real, before: seq<Call>, window: seq<Call>, key: string)
    requires l.buckets == map[] && l.capacity >= 0.0 && rate >= 0.0
    requires Ordered(before + window) && window != []
    ensures var start := Run(l, Marked(before, rate)); var end := Run(start, Marked(window, rate));
      && Accepted(start, Marked(window, rate), key) as real
         <= l.capacity + (window[|window| - 1].now - window[0].now) * rate
      && (forall k :: k in end.buckets ==> 0.0 <= end.buckets[k].tokens <= l.capacity)
  {
    var m := WindowForward(before, window, rate);
    WindowOfMarks(l, Marked(before, rate), Marked(window, rate), key, m);
    WindowLength(window, rate);
  }

  lemma WindowForward(before: seq<Call>, window: seq<Call>, rate: real) returns (m: real)
    requires rate >= 0.0 && Ordered(before + window) && window != []
    ensures Forward(Marked(before, rate) + Marked(window, rate), m)
  {
    m := TokenClock((before + window)[0].now, rate);
    OrderedForward(before + window, rate, (before + window)[0].now);
    MarkedAppend(before, window, rate);
  }

  lemma WindowLength(window: seq<Call>, rate: real)
    requires window != []
    ensures var m := Marked(window, rate);
      m[|m| - 1].mark - m[0].mark == (window[|window| - 1].now - window[0].now) * rate
  {
    MarkedAt(window, rate, 0);
    MarkedAt(window, rate, |window| - 1);
    Distribute(window[0].now, window[|window| - 1].now, rate);
  }

  // ----- Keys are independent -----

  function OnlyKey(run: seq<Event>, key: string): seq<Event> {
    if run == [] then [] else (if run[0].key == key then [run[0]] else []) + OnlyKey(run[1..], key)
  }

  // The limiters treat `key` alike.
  ghost predicate SameFor(a: Limiter, b: Limiter, key: string) {
    && a.capacity == b.capacity
    && (key in a.buckets <==> key in b.buckets)
    && (key in a.buckets ==> a.buckets[key] == b.buckets[key])
  }

  // What a key is granted depends on its own calls only.
  lemma {:induction false} KeysIndependent(a: Limiter, b: Limiter, run: seq<Event>, key: string)
    requires SameFor(a, b, key)
    ensures SameFor(Run(a, run), Run(b, OnlyKey(run, key)), key)
    ensures Accepted(a, run, key) == Accepted(b, OnlyKey(run, key), key)
    decreases |run|
  {
    if run != [] {
      var e, rest := run[0], OnlyKey(run[1..], key);
      var a' := Spend(a, e.key, e.n, e.mark).0;
      if e.key == key {
        assert OnlyKey(run, key)[0] == e && OnlyKey(run, key)[1..] == rest;
        KeysIndependent(a', Spend(b, e.key, e.n, e.mark).0, run[1..], key);
      } else {
        assert OnlyKey(run, key) == rest;
        KeysIndependent(a', b, run[1..], key);
      }
    }
  }

  // ----- A clock that goes back -----

  // However much is asked for, the balance left is negative exactly when the clock went
  // back by more than the tokens stored would refill.
  lemma OverdrawnIffClockWentBack(l: Limiter, key: string, n: nat, mark: real)
    requires key in l.buckets && 0.0 <= l.buckets[key].tokens <= l.capacity
    ensures Spend(l, key, n, mark).0.buckets[key].tokens < 0.0
      <==> l.buckets[key].mark - mark > l.buckets[key].tokens
  {
  }
}
