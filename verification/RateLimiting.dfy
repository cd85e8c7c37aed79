/** The token bucket of the load tool. Times are the readings of a monotonic clock in
    nanoseconds; tokens and rates are real numbers. */
module RateLimiting {
  import opened Lists

  // Everything the mutex protects: tokens per second, tokens, their cap, the last refill.
  datatype Bucket = Bucket(rate: real, tokens: real, cap: real, last: int)

  function MinOf(a: real, b: real): real {
    if a < b then a else b
  }

  function MaxOf(a: real, b: real): real {
    if a > b then a else b
  }

  // A duration_cast to microseconds, in seconds.
  function Elapsed(last: int, now: int): (seconds: real)
    requires last <= now
    ensures 0.0 <= seconds <= Seconds(last, now) < seconds + 0.000001
  {
    var us := (now - last) / 1000;
    assert us * 1000 <= now - last < us * 1000 + 1000;
    us as real / 1000000.0
  }

  function Seconds(from: int, to: int): real {
    (to - from) as real / 1000000000.0
  }

  // What a refill brings, as far as the cap allows.
  function Gain(b: Bucket, now: int): real
    requires b.last <= now
  {
    Elapsed(b.last, now) * b.rate
  }

  function Refilled(b: Bucket, now: int): Bucket
    requires b.last <= now
  {
    b.(last := now, tokens := MinOf(b.cap, b.tokens + Gain(b, now)))
  }

  // No request is larger than the cap.
  function Raised(b: Bucket, n: nat): Bucket {
    b.(cap := MaxOf(b.cap, n as real))
  }

  // One round of Acquire(n) under the mutex, at clock reading now. A rate of zero or less lets
  // everyone pass and takes nothing.
  predicate Passes(b: Bucket, n: nat, now: int)
    requires b.last <= now
  {
    b.rate <= 0.0 || Refilled(Raised(b, n), now).tokens >= n as real
  }

  function Tried(b: Bucket, n: nat, now: int): Bucket
    requires b.last <= now
  {
    var raised := Raised(b, n);
    if b.rate <= 0.0 then raised
    else
      var full := Refilled(raised, now);
      if full.tokens >= n as real then full.(tokens := full.tokens - n as real) else full
  }

  // How long a round that failed sleeps, in microseconds.
  function Nap(deficit: real, rate: real): (us: int)
    requires rate > 0.0
    ensures us >= 1 && us as real >= deficit / rate * 1000000.0
    ensures us == 1 || (us - 1) as real < deficit / rate * 1000000.0
  {
    var x := deficit / rate * 1000000.0;
    var ceiling := -((-x).Floor);
    if ceiling > 1 then ceiling else 1
  }

  // ----- The limiter used by one thread alone. The clock advances by the nap and by however much
  // the thread oversleeps.

  class RateLimiter {
    var rate: real
    var tokens: real
    var maxTokens: real
    var lastTime: int

    function View(): Bucket
      reads this
    {
      Bucket(rate, tokens, maxTokens, lastTime)
    }

    constructor (rate: real, burst: int, now: int)
      ensures View() == Bucket(rate, burst as real, burst as real, now)
    {
      this.rate, tokens, maxTokens, lastTime := rate, burst as real, burst as real, now;
    }

    method RefillTokens(now: int)
      requires lastTime <= now
      modifies this
      ensures View() == Refilled(old(View()), now)
    {
      var elapsedUs := (now - lastTime) / 1000;
      assert elapsedUs as real / 1000000.0 == Elapsed(lastTime, now);
      lastTime := now;
      var newTokens := elapsedUs as real / 1000000.0 * rate;
      tokens := if maxTokens < tokens + newTokens then maxTokens else tokens + newTokens;
    }

    method SetRate(newRate: real, now: int)
      requires lastTime <= now
      modifies this
      ensures View() == Refilled(old(View()), now).(rate := newRate)
    {
      RefillTokens(now);
      rate := newRate;
    }

    // What Acquire does under the mutex before its loop.
    method Raise(n: nat)
      modifies this
      ensures View() == Raised(old(View()), n)
    {
      maxTokens := if maxTokens > n as real then maxTokens else n as real;
    }

    // One round of the loop of Acquire, from locking to unlocking, whatever other threads did since
    // the one before: None if the thread got its tokens, otherwise how long it is to sleep.
    method Round(n: nat, now: int) returns (nap: Option<int>)
      requires lastTime <= now && maxTokens >= n as real
      modifies this
      ensures View() == Tried(old(View()), n, now)
      ensures nap.None? <==> Passes(old(View()), n, now)
      ensures nap.Some? ==> rate > 0.0 && nap.value == Nap(n as real - tokens, rate)
    {
      nap := None;
      if rate > 0.0 {
        RefillTokens(now);
        if tokens >= n as real {
          tokens := tokens - n as real;
        } else {
          nap := Some(Nap(n as real - tokens, rate));
        }
      }
    }

    // A thread that nobody disturbs gets its tokens at once or after a single nap.
    method Acquire(n: int, now: int, oversleep: nat) returns (done: int)
      requires lastTime <= now
      modifies this
      ensures n <= 0 ==> View() == old(View()) && done == now
      ensures n > 0 && Passes(old(View()), n, now) ==> View() == Tried(old(View()), n, now) && done == now
      ensures n > 0 && !Passes(old(View()), n, now) ==>
                var failed := Tried(old(View()), n, now);
                && done == now + Nap(n as real - failed.tokens, failed.rate) * 1000 + oversleep
                && Passes(failed, n, done) && View() == Tried(failed, n, done)
    {
      done := now;
      if n <= 0 {
        return;
      }
      Raise(n);
      ghost var slept := false;
      while true
        invariant lastTime <= done && maxTokens >= n as real
        invariant !slept ==> View() == Raised(old(View()), n) && done == now
        invariant slept ==> !Passes(old(View()), n, now) && View() == Tried(old(View()), n, now)
                            && done == now + Nap(n as real - tokens, rate) * 1000 + oversleep
        decreases !slept
      {
        if slept {
          NapSuffices(View(), n, done);
        }
        var nap := Round(n, done);
        if nap.None? {
          return;
        }
        done := done + nap.value * 1000 + oversleep;
        slept := true;
      }
    }
  }

  // After the nap the missing tokens are there.
  lemma NapSuffices(b: Bucket, n: nat, now: int)
    requires b.rate > 0.0 && b.cap >= n as real && b.tokens < n as real
    requires now >= b.last + Nap(n as real - b.tokens, b.rate) * 1000
    ensures Refilled(b, now).tokens >= n as real
  {
    var deficit := n as real - b.tokens;
    var us := (now - b.last) / 1000;
    assert us >= Nap(deficit, b.rate);
    assert Elapsed(b.last, now) == us as real / 1000000.0 >= deficit / b.rate;
    TimeEnough(Elapsed(b.last, now), deficit, b.rate);
  }

  // A microsecond less would not have been enough, unless the nap is the shortest there is.
  lemma NapIsLeast(b: Bucket, n: nat)
    requires b.rate > 0.0 && b.cap >= n as real && b.tokens < n as real
    ensures var us := Nap(n as real - b.tokens, b.rate);
            us > 1 ==> Refilled(b, b.last + (us - 1) * 1000).tokens < n as real
  {
    var deficit := n as real - b.tokens;
    var us := Nap(deficit, b.rate);
    if us > 1 {
      var now := b.last + (us - 1) * 1000;
      assert (now - b.last) / 1000 == us - 1;
      assert Elapsed(b.last, now) < deficit / b.rate;
      ScaleStrictly(deficit / b.rate, Elapsed(b.last, now), b.rate);
      assert deficit / b.rate * b.rate == deficit;
    }
  }

  // A round takes its tokens exactly when they are there, however small the cap was before.
  lemma PassesIff(b: Bucket, n: nat, now: int)
    requires b.last <= now
    ensures Passes(b, n, now) <==> b.rate <= 0.0 || b.tokens + Gain(b, now) >= n as real
  {
    assert Gain(Raised(b, n), now) == Gain(b, now);
  }

  lemma TimeEnough(seconds: real, deficit: real, rate: real)
    requires rate > 0.0 && seconds >= deficit / rate
    ensures seconds * rate >= deficit
  {
    Scale(seconds, deficit / rate, rate);
    assert deficit / rate * rate == deficit;
  }

  lemma Scale(a: real, b: real, r: real)
    requires a >= b && r >= 0.0
    ensures a * r >= b * r
  {}

  // ----- Any number of threads: their rounds and rate changes in the order they take the mutex.

  datatype Op = Try(n: nat, now: int) | SetRate(rate: real, now: int)

  function After(b: Bucket, op: Op): Bucket
    requires b.last <= op.now
  {
    match op
    case Try(n, now) => Tried(b, n, now)
    case SetRate(rate, now) => Refilled(b, now).(rate := rate)
  }

  // The clock is monotonic.
  predicate InOrder(start: int, ops: seq<Op>) {
    (forall i | 0 <= i < |ops| :: start <= ops[i].now)
    && forall i, j | 0 <= i < j < |ops| :: ops[i].now <= ops[j].now
  }

  function Run(b: Bucket, ops: seq<Op>): Bucket
    requires InOrder(b.last, ops)
    decreases |ops|
  {
    if ops == [] then b
    else
      InOrderStays(b, ops);
      Run(After(b, ops[0]), ops[1..])
  }

  lemma InOrderStays(b: Bucket, ops: seq<Op>)
    requires ops != [] && InOrder(b.last, ops)
    ensures InOrder(After(b, ops[0]).last, ops[1..])
  {}

  // Tokens that one operation grants while the rate is positive, and what its refill brings.
  function Paid(b: Bucket, op: Op): nat
    requires b.last <= op.now
  {
    if op.Try? && b.rate > 0.0 && Passes(b, op.n, op.now) then op.n else 0
  }

  function Income(b: Bucket, op: Op): real
    requires b.last <= op.now
  {
    if op.SetRate? || b.rate > 0.0 then Gain(b, op.now) else 0.0
  }

  function Granted(b: Bucket, ops: seq<Op>): nat
    requires InOrder(b.last, ops)
    decreases |ops|
  {
    if ops == [] then 0
    else
      InOrderStays(b, ops);
      Paid(b, ops[0]) + Granted(After(b, ops[0]), ops[1..])
  }

  function Earned(b: Bucket, ops: seq<Op>): real
    requires InOrder(b.last, ops)
    decreases |ops|
  {
    if ops == [] then 0.0
    else
      InOrderStays(b, ops);
      Income(b, ops[0]) + Earned(After(b, ops[0]), ops[1..])
  }

  // What its refill brings beyond the cap, and is lost.
  function Spilled(b: Bucket, op: Op): real
    requires b.last <= op.now
  {
    var cap := if op.Try? then MaxOf(b.cap, op.n as real) else b.cap;
    if op.SetRate? || b.rate > 0.0 then MaxOf(0.0, b.tokens + Gain(b, op.now) - cap) else 0.0
  }

  function Lost(b: Bucket, ops: seq<Op>): (lost: real)
    requires InOrder(b.last, ops)
    ensures lost >= 0.0
    decreases |ops|
  {
    if ops == [] then 0.0
    else
      InOrderStays(b, ops);
      Spilled(b, ops[0]) + Lost(After(b, ops[0]), ops[1..])
  }

  lemma OneRound(b: Bucket, op: Op)
    requires b.last <= op.now
    ensures Paid(b, op) as real + After(b, op).tokens + Spilled(b, op) == b.tokens + Income(b, op)
  {}

  predicate Full(b: Bucket) {
    0.0 <= b.tokens <= b.cap
  }

  // Every token that was in the bucket or earned since is granted, still there, or was one too many for
  // the cap, at whatever rates.
  lemma {:induction false} TokensConserved(b: Bucket, ops: seq<Op>)
    requires InOrder(b.last, ops)
    ensures Granted(b, ops) as real + Run(b, ops).tokens + Lost(b, ops) == b.tokens + Earned(b, ops)
    decreases |ops|
  {
    if ops != [] {
      InOrderStays(b, ops);
      OneRound(b, ops[0]);
      TokensConserved(After(b, ops[0]), ops[1..]);
    }
  }

  predicate AnyTried(ops: seq<Op>) {
    ops != [] && (ops[0].Try? || AnyTried(ops[1..]))
  }

  // The most that any round asked for.
  function MostTried(ops: seq<Op>): (n: nat)
    ensures !AnyTried(ops) ==> n == 0
  {
    if ops == [] then 0
    else
      var rest := MostTried(ops[1..]);
      if ops[0].Try? && ops[0].n > rest then ops[0].n else rest
  }

  lemma {:induction false} MostTriedIsMost(ops: seq<Op>)
    ensures forall op | op in ops && op.Try? :: op.n <= MostTried(ops)
    ensures AnyTried(ops) ==> exists op :: op in ops && op.Try? && op.n == MostTried(ops)
  {
    if ops != [] {
      MostTriedIsMost(ops[1..]);
      assert ops[0] in ops && forall op | op in ops :: op == ops[0] || op in ops[1..];
      if AnyTried(ops[1..]) {
        var op :| op in ops[1..] && op.Try? && op.n == MostTried(ops[1..]);
        assert op in ops;
      }
    }
  }

  // The cap is what it was, or the most that was asked for if that is more.
  lemma {:induction false} CapIsExact(b: Bucket, ops: seq<Op>)
    requires InOrder(b.last, ops)
    ensures Run(b, ops).cap == if AnyTried(ops) then MaxOf(b.cap, MostTried(ops) as real) else b.cap
    decreases |ops|
  {
    if ops != [] {
      InOrderStays(b, ops);
      CapIsExact(After(b, ops[0]), ops[1..]);
      CapAfter(b, ops[0]);
    }
  }

  lemma CapAfter(b: Bucket, op: Op)
    requires b.last <= op.now
    ensures After(b, op).cap == if op.Try? then MaxOf(b.cap, op.n as real) else b.cap
  {}

  // The tokens stay between nothing and the cap, although the cap may grow, as long as no rate is
  // negative ...
  lemma {:induction false} StaysFull(b: Bucket, ops: seq<Op>)
    requires InOrder(b.last, ops) && Full(b) && b.rate >= 0.0
    requires forall op | op in ops && op.SetRate? :: op.rate >= 0.0
    ensures Full(Run(b, ops)) && Run(b, ops).cap >= b.cap
    decreases |ops|
  {
    if ops != [] {
      InOrderStays(b, ops);
      assert ops[0] in ops;
      GainBounds(b, ops[0].now);
      StaysFull(After(b, ops[0]), ops[1..]);
    }
  }

  // ... and only then: the next change of a negative rate can come late enough to leave a debt.
  lemma NegativeRateMakesDebt(b: Bucket)
    requires Full(b)
    ensures (forall rate: real, now | b.last <= now :: Full(After(b, SetRate(rate, now)))) <==> b.rate >= 0.0
  {
    if b.rate < 0.0 {
      var s := (b.tokens / -b.rate).Floor + 1;
      var now := b.last + s * 1000000000;
      assert (now - b.last) / 1000 == s * 1000000;
      assert Elapsed(b.last, now) == s as real;
      Drained(s as real, b.tokens, -b.rate);
      assert Gain(b, now) == -(s as real * -b.rate);
      assert !Full(After(b, SetRate(1.0, now)));
    } else {
      forall rate: real, now | b.last <= now ensures Full(After(b, SetRate(rate, now))) {
        Scale(Elapsed(b.last, now), 0.0, b.rate);
      }
    }
  }

  lemma Drained(seconds: real, tokens: real, drain: real)
    requires drain > 0.0 && seconds > tokens / drain
    ensures seconds * drain > tokens
  {
    ScaleStrictly(seconds, tokens / drain, drain);
    assert tokens / drain * drain == tokens;
  }

  lemma ScaleStrictly(a: real, b: real, r: real)
    requires a > b && r > 0.0
    ensures a * r > b * r
  {}

  // ----- Constant positive rate.

  predicate OnlyTries(ops: seq<Op>) {
    forall op | op in ops :: op.Try?
  }

  // What a rate yields in an interval.
  function Yield(rate: real, from: int, to: int): real {
    rate * Seconds(from, to)
  }

  lemma GainBounds(b: Bucket, now: int)
    requires b.last <= now && b.rate >= 0.0
    ensures 0.0 <= Gain(b, now) <= Yield(b.rate, b.last, now)
  {
    Scale(Elapsed(b.last, now), 0.0, b.rate);
    Scale(Seconds(b.last, now), Elapsed(b.last, now), b.rate);
  }

  lemma YieldAdds(rate: real, a: int, b: int, c: int)
    ensures Yield(rate, a, b) + Yield(rate, b, c) == Yield(rate, a, c)
  {
    assert Seconds(a, b) + Seconds(b, c) == Seconds(a, c);
    Distribute(rate, Seconds(a, b), Seconds(b, c));
  }

  lemma YieldGrows(rate: real, from: int, a: int, b: int, to: int)
    requires from <= a <= b <= to && rate >= 0.0
    ensures 0.0 <= Yield(rate, a, b) <= Yield(rate, from, to)
  {
    Scale(Seconds(a, b), 0.0, rate);
    Scale(Seconds(from, to), Seconds(a, b), rate);
  }

  lemma Distribute(r: real, x: real, y: real)
    ensures r * (x + y) == r * x + r * y
  {}

  lemma OneTry(b: Bucket, op: Op)
    requires b.last <= op.now && op.Try? && b.rate > 0.0
    ensures After(b, op).rate == b.rate && After(b, op).last == op.now
    ensures Income(b, op) <= Yield(b.rate, b.last, op.now)
  {
    GainBounds(b, op.now);
  }

  lemma {:induction false} EarnedAtConstantRate(b: Bucket, ops: seq<Op>)
    requires InOrder(b.last, ops) && OnlyTries(ops) && b.rate > 0.0
    ensures Earned(b, ops) <= Yield(b.rate, b.last, Run(b, ops).last)
    ensures Run(b, ops).last == if ops == [] then b.last else ops[|ops| - 1].now
    decreases |ops|
  {
    if ops != [] {
      InOrderStays(b, ops);
      assert ops[0] in ops;
      OneTry(b, ops[0]);
      EarnedAtConstantRate(After(b, ops[0]), ops[1..]);
      YieldAdds(b.rate, b.last, ops[0].now, Run(b, ops).last);
    } else {
      YieldGrows(b.rate, b.last, b.last, b.last, b.last);
    }
  }

  // Over a whole run no more is granted than the burst and what the rate yields in its time.
  lemma RunWithinBudget(rate: real, burst: nat, start: int, ops: seq<Op>)
    requires rate > 0.0 && InOrder(start, ops) && OnlyTries(ops)
    ensures var b := Bucket(rate, burst as real, burst as real, start);
            Granted(b, ops) as real <= burst as real + Yield(rate, start, Run(b, ops).last)
  {
    var b := Bucket(rate, burst as real, burst as real, start);
    TokensConserved(b, ops);
    EarnedAtConstantRate(b, ops);
    StaysFull(b, ops);
  }

  // In any interval the rounds whose clock readings lie within it are granted no more than the cap, or
  // the most one of them asks for if that is more, and what the rate yields in that interval, whatever
  // happened before.
  lemma IntervalWithinBudget(b: Bucket, ops: seq<Op>, from: int, to: int)
    requires InOrder(b.last, ops) && OnlyTries(ops) && b.rate > 0.0 && Full(b) && from <= to
    requires forall op | op in ops :: from <= op.now <= to
    ensures Granted(b, ops) as real <= MaxOf(b.cap, MostTried(ops) as real) + Yield(b.rate, from, to)
  {
    YieldGrows(b.rate, from, from, from, to);
    CapIsExact(b, ops);
    if ops != [] {
      var c, op, last := After(b, ops[0]), ops[0], ops[|ops| - 1];
      InOrderStays(b, ops);
      assert op in ops && last in ops;
      FirstRound(b, op);
      RestWithinBudget(c, ops[1..]);
      YieldGrows(b.rate, from, c.last, Run(b, ops).last, to);
    }
  }

  // The first refill fills the bucket to its cap at most.
  lemma FirstRound(b: Bucket, op: Op)
    requires b.last <= op.now && op.Try? && b.rate > 0.0 && Full(b)
    ensures var c := After(b, op);
            Paid(b, op) as real + c.tokens <= c.cap && Full(c) && c.rate == b.rate && c.last == op.now
  {
    GainBounds(b, op.now);
  }

  lemma RestWithinBudget(b: Bucket, ops: seq<Op>)
    requires InOrder(b.last, ops) && OnlyTries(ops) && b.rate > 0.0 && Full(b)
    ensures var d := Run(b, ops);
            && Granted(b, ops) as real <= b.tokens + Yield(b.rate, b.last, d.last) && d.cap >= b.cap
            && d.last == if ops == [] then b.last else ops[|ops| - 1].now
  {
    TokensConserved(b, ops);
    EarnedAtConstantRate(b, ops);
    StaysFull(b, ops);
  }
}
