/**
 apps/server/src/ws/rate-limit.ts: the token bucket that polices inbound frames.
 Times are clock readings in milliseconds, rates are tokens per second.
 */
module RateLimit {
  datatype Bucket = Bucket(capacity: real, rate: real, tokens: real, updatedAt: int)

  /** One call of take: when the clock was read and what was asked for. */
  datatype Request = Request(now: int, cost: real)

  function Min(a: real, b: real): real {
    if a <= b then a else b
  }

  /** Tokens earned over a span of the clock. */
  function Earned(rate: real, ms: int): real {
    ms as real / 1000.0 * rate
  }

  function Fresh(capacity: real, rate: real, now: int): Bucket {
    Bucket(capacity, rate, capacity, now)
  }

  function Refilled(b: Bucket, now: int): real {
    Min(b.capacity, b.tokens + Earned(b.rate, now - b.updatedAt))
  }

  function Admits(b: Bucket, r: Request): bool {
    Refilled(b, r.now) >= r.cost
  }

  function Take(b: Bucket, r: Request): Bucket {
    var tokens := Refilled(b, r.now);
    b.(tokens := if tokens < r.cost then tokens else tokens - r.cost, updatedAt := r.now)
  }

  class TokenBucket {
    const capacity: real
    const refillPerSecond: real
    var tokens: real
    var updatedAt: int

    function View(): Bucket
      reads this
    {
      Bucket(capacity, refillPerSecond, tokens, updatedAt)
    }

    constructor (capacity: real, refillPerSecond: real, now: int)
      ensures View() == Fresh(capacity, refillPerSecond, now)
    {
      this.capacity := capacity;
      this.refillPerSecond := refillPerSecond;
      tokens := capacity;
      updatedAt := now;
    }

    method TakeTokens(now: int, cost: real) returns (ok: bool)
      modifies this
      ensures ok == Admits(old(View()), Request(now, cost))
      ensures View() == Take(old(View()), Request(now, cost))
    {
      var elapsed := (now - updatedAt) as real / 1000.0;
      tokens := Min(capacity, tokens + elapsed * refillPerSecond);
      updatedAt := now;
      if tokens < cost {
        return false;
      }
      tokens := tokens - cost;
      return true;
    }
  }

  // ------------------------------------------------------------------ whole runs

  /** The bucket after a sequence of requests. */
  function After(b: Bucket, rs: seq<Request>): (after: Bucket)
    ensures after.capacity == b.capacity && after.rate == b.rate
  {
    if rs == [] then b else Take(After(b, rs[..|rs| - 1]), rs[|rs| - 1])
  }

  /** Was request i of the run let through? */
  predicate Accepted(b: Bucket, rs: seq<Request>, i: nat)
    requires i < |rs|
  {
    Admits(After(b, rs[..i]), rs[i])
  }

  /** Cost let through by the requests from position `from` up to the end of the run. */
  function Spent(b: Bucket, rs: seq<Request>, from: nat): real
    requires from <= |rs|
    decreases |rs|
  {
    if from == |rs| then 0.0
    else
      var n := |rs| - 1;
      Spent(b, rs[..n], from) + if Accepted(b, rs, n) then rs[n].cost else 0.0
  }

  /**
   What a window opening at request `from` still allows at time `now`: a full
   bucket, what the window has earned, less what it has let through.
   */
  function Allowance(b: Bucket, rs: seq<Request>, from: nat, now: int): real
    requires from <= |rs|
  {
    var since := if from < |rs| then rs[from].now else now;
    b.capacity + Earned(b.rate, now - since) - Spent(b, rs, from)
  }

  /** The same for the window that opens when the bucket is created. */
  function LifetimeAllowance(b: Bucket, rs: seq<Request>, now: int): real {
    b.tokens + Earned(b.rate, now - b.updatedAt) - Spent(b, rs, 0)
  }

  lemma EarnedSplits(rate: real, a: int, b: int)
    ensures Earned(rate, a + b) == Earned(rate, a) + Earned(rate, b)
  {
    var x, y := a as real / 1000.0, b as real / 1000.0;
    assert (a + b) as real / 1000.0 == x + y;
    assert (x + y) * rate == x * rate + y * rate;
  }

  /** A later clock reading adds exactly what was earned meanwhile to every window. */
  lemma AllowanceExtends(b: Bucket, rs: seq<Request>, from: nat, r: Request, now: int)
    requires from <= |rs|
    ensures Allowance(b, rs + [r], from, now)
         == Allowance(b, rs, from, r.now)
            - (if Accepted(b, rs + [r], |rs|) then r.cost else 0.0) + Earned(b.rate, now - r.now)
  {
    var all := rs + [r];
    assert all[..|rs|] == rs;
    var since := if from < |rs| then rs[from].now else r.now;
    assert all[from].now == since;
    EarnedSplits(b.rate, r.now - since, now - r.now);
    if from == |rs| {
      assert Spent(b, all, from) == Spent(b, rs, from) + if Accepted(b, all, |rs|) then r.cost else 0.0;
    }
  }

  lemma LifetimeExtends(b: Bucket, rs: seq<Request>, r: Request, now: int)
    ensures LifetimeAllowance(b, rs + [r], now)
         == LifetimeAllowance(b, rs, r.now)
            - (if Accepted(b, rs + [r], |rs|) then r.cost else 0.0) + Earned(b.rate, now - r.now)
  {
    assert (rs + [r])[..|rs|] == rs;
    EarnedSplits(b.rate, r.now - b.updatedAt, now - r.now);
  }

  /**
   The bucket is exact: what a request finds after refill is the least allowance
   over every window that could have been opened, the bucket's creation included.
   */
  lemma {:induction false} TokensAreLeastAllowance(b: Bucket, rs: seq<Request>, now: int)
    ensures var t := Refilled(After(b, rs), now);
      && t <= LifetimeAllowance(b, rs, now)
      && (forall j :: 0 <= j <= |rs| ==> t <= Allowance(b, rs, j, now))
      && (t == LifetimeAllowance(b, rs, now) || exists j :: 0 <= j <= |rs| && t == Allowance(b, rs, j, now))
  {
    if rs == [] {
      assert Allowance(b, rs, 0, now) == b.capacity;
    } else {
      var n := |rs| - 1;
      var past, r := rs[..n], rs[n];
      assert rs == past + [r];
      TokensAreLeastAllowance(b, past, r.now);
      var before := Refilled(After(b, past), r.now);
      var paid := if Accepted(b, rs, n) then r.cost else 0.0;
      var t := Refilled(After(b, rs), now);
      assert t == Min(b.capacity, before - paid + Earned(b.rate, now - r.now));
      LifetimeExtends(b, past, r, now);
      forall j | 0 <= j <= n
        ensures Allowance(b, rs, j, now) == Allowance(b, past, j, r.now) - paid + Earned(b.rate, now - r.now)
      {
        AllowanceExtends(b, past, j, r, now);
      }
      assert Allowance(b, rs, |rs|, now) == b.capacity;
      if t != b.capacity && before != LifetimeAllowance(b, past, r.now) {
        var j :| 0 <= j <= n && before == Allowance(b, past, j, r.now);
        assert t == Allowance(b, rs, j, now);
      }
    }
  }

  /** No window of any run lets through more than a full bucket plus what it earned. */
  lemma WindowBound(b: Bucket, rs: seq<Request>, i: nat)
    requires i < |rs| && Accepted(b, rs, |rs| - 1)
    ensures Spent(b, rs, i) <= b.capacity + Earned(b.rate, rs[|rs| - 1].now - rs[i].now)
  {
    var n := |rs| - 1;
    TokensAreLeastAllowance(b, rs[..n], rs[n].now);
    assert Refilled(After(b, rs[..n]), rs[n].now) <= Allowance(b, rs[..n], i, rs[n].now);
  }

  /** A request is refused exactly when letting it through would overrun some window. */
  lemma RefusedIffSomeWindowOverruns(capacity: real, rate: real, start: int, rs: seq<Request>, r: Request)
    ensures var b := Fresh(capacity, rate, start);
      !Admits(After(b, rs), r) <==>
        (Spent(b, rs, 0) + r.cost > capacity + Earned(rate, r.now - start)
         || r.cost > capacity
         || exists j :: 0 <= j < |rs| && Spent(b, rs, j) + r.cost > capacity + Earned(rate, r.now - rs[j].now))
  {
    var b := Fresh(capacity, rate, start);
    TokensAreLeastAllowance(b, rs, r.now);
    var t := Refilled(After(b, rs), r.now);
    assert Allowance(b, rs, |rs|, r.now) == capacity;
    forall j | 0 <= j < |rs|
      ensures Allowance(b, rs, j, r.now) == capacity + Earned(rate, r.now - rs[j].now) - Spent(b, rs, j)
    {
    }
    if t < r.cost {
      if t != LifetimeAllowance(b, rs, r.now) {
        var j :| 0 <= j <= |rs| && t == Allowance(b, rs, j, r.now);
      }
    }
  }
}
