/**
 The bandwidth limiter of the fault-injecting proxy: a token bucket whose waiters
 sleep off their deficit. Times are nanoseconds and amounts are reals; a sleep
 is rounded down to whole nanoseconds.
 */
module Throttle {
  const NANOS_PER_SECOND := 1_000_000_000.0

  /** Rate in bytes per nanosecond; the burst is one second's worth. */
  datatype Bucket = Bucket(rate: real, tokens: real, maxBurst: real, lastTime: real)

  function NewBucket(bytesPerSec: nat, now: real): Bucket
  {
    Bucket(bytesPerSec as real / NANOS_PER_SECOND, bytesPerSec as real, bytesPerSec as real, now)
  }

  function RMin(a: real, b: real): real { if a <= b then a else b }

  /** Tokens on hand at time `now`, after `n` bytes are charged; negative means a deficit. */
  function Charged(b: Bucket, n: nat, now: real): real {
    RMin(b.tokens + (now - b.lastTime) * b.rate, b.maxBurst) - n as real
  }

  /** One wait: `wake` is the clock after the sleep, if there is one. */
  function After(b: Bucket, n: nat, now: real, wake: real): Bucket {
    var left := Charged(b, n, now);
    if left < 0.0 then b.(tokens := 0.0, lastTime := wake) else b.(tokens := left, lastTime := now)
  }

  /** The clock does not run backwards and a sleep lasts at least its whole nanoseconds. */
  predicate Elapses(b: Bucket, n: nat, now: real, wake: real)
    requires b.rate > 0.0
  {
    && now >= b.lastTime
    && (Charged(b, n, now) < 0.0 ==> wake >= now + (-Charged(b, n, now) / b.rate).Floor as real)
  }

  class Limiter {
    const rate: real
    const maxBurst: real
    var tokens: real
    var lastTime: real

    function View(): Bucket reads this { Bucket(rate, tokens, maxBurst, lastTime) }

    constructor (bytesPerSec: nat, now: real)
      ensures View() == NewBucket(bytesPerSec, now)
    {
      var burst := bytesPerSec as real;
      rate, maxBurst, tokens, lastTime := bytesPerSec as real / NANOS_PER_SECOND, burst, burst, now;
    }

    /** `slept` is how long the caller was told to sleep; the lock is held meanwhile. */
    method Wait(n: nat, now: real, wake: real) returns (slept: int)
      requires rate > 0.0
      modifies this
      ensures View() == After(old(View()), n, now, wake)
      ensures slept == if old(Charged(View(), n, now)) < 0.0 then (-old(Charged(View(), n, now)) / rate).Floor else 0
    {
      var elapsed := now - lastTime;
      lastTime := now;
      tokens := tokens + elapsed * rate;
      if tokens > maxBurst { tokens := maxBurst; }
      tokens := tokens - n as real;
      slept := 0;
      if tokens < 0.0 {
        var deficit := -tokens;
        slept := (deficit / rate).Floor;
        tokens := 0.0;
        lastTime := wake;
      }
    }
  }

  // ------------------------------------------------------------------
  // The bound over any sequence of calls
  // ------------------------------------------------------------------

  datatype Call = Call(n: nat, now: real, wake: real)

  /** The bucket after each call, starting from a fresh one. */
  ghost predicate Run(bs: seq<Bucket>, calls: seq<Call>, bytesPerSec: nat, start: real) {
    && |bs| == |calls| + 1 && bytesPerSec > 0 && bs[0] == NewBucket(bytesPerSec, start)
    && forall i :: 0 <= i < |calls| ==> CallAt(bs, calls, i)
  }

  ghost predicate CallAt(bs: seq<Bucket>, calls: seq<Call>, i: int)
    requires |bs| == |calls| + 1 && 0 <= i < |calls|
  {
    && bs[i].rate > 0.0
    && Elapses(bs[i], calls[i].n, calls[i].now, calls[i].wake)
    && bs[i + 1] == After(bs[i], calls[i].n, calls[i].now, calls[i].wake)
  }

  /** Bytes let through by the first `k` calls. */
  ghost function Released(calls: seq<Call>, k: nat): nat
    requires k <= |calls|
  {
    if k == 0 then 0 else Released(calls, k - 1) + calls[k - 1].n
  }

  /** How many of the first `k` calls slept. */
  ghost function Sleeps(bs: seq<Bucket>, calls: seq<Call>, k: nat): nat
    requires |bs| == |calls| + 1 && k <= |calls|
  {
    if k == 0 then 0
    else Sleeps(bs, calls, k - 1) + if Charged(bs[k - 1], calls[k - 1].n, calls[k - 1].now) < 0.0 then 1 else 0
  }

  predicate TokensOk(b: Bucket) { b.rate > 0.0 && 0.0 <= b.tokens <= b.maxBurst }

  /** Everything let through and still on hand was in the first burst, accrued, or lost to rounding. */
  predicate Budget(b: Bucket, released: nat, sleeps: nat, start: real) {
    released as real + b.tokens <= b.maxBurst + b.rate * (b.lastTime - start) + b.rate * sleeps as real
  }

  lemma BudgetNoSleep(b: Bucket, n: nat, now: real, released: nat, sleeps: nat, start: real)
    requires TokensOk(b) && now >= b.lastTime && Budget(b, released, sleeps, start)
    requires Charged(b, n, now) >= 0.0
    ensures Budget(b.(tokens := Charged(b, n, now), lastTime := now), released + n, sleeps, start)
  {
    assert b.rate * (now - start) == b.rate * (b.lastTime - start) + (now - b.lastTime) * b.rate;
  }

  lemma BudgetSleep(b: Bucket, n: nat, now: real, wake: real, released: nat, sleeps: nat, start: real)
    requires TokensOk(b) && Elapses(b, n, now, wake) && Budget(b, released, sleeps, start)
    requires Charged(b, n, now) < 0.0
    ensures Budget(b.(tokens := 0.0, lastTime := wake), released + n, sleeps + 1, start)
  {
    var deficit := -Charged(b, n, now);
    SleepCovers(b.rate, deficit, now, wake);
    Spread(b.rate, start, now, wake);
    Spread(b.rate, start, b.lastTime, now);
    assert b.rate * (sleeps + 1) as real == b.rate * sleeps as real + b.rate;
  }

  /** A rounded sleep makes up for all of a deficit but one nanosecond's worth. */
  lemma SleepCovers(rate: real, deficit: real, now: real, wake: real)
    requires rate > 0.0 && wake >= now + (deficit / rate).Floor as real
    ensures deficit <= rate * (wake - now) + rate
  {
    var nanos := deficit / rate;
    assert rate * nanos == deficit;
    RateMonotone(rate, nanos, wake - now + 1.0);
  }

  lemma Spread(rate: real, x: real, y: real, z: real)
    ensures rate * (z - x) == rate * (y - x) + rate * (z - y)
  {
  }

  lemma RateMonotone(rate: real, x: real, y: real)
    requires rate > 0.0 && x <= y
    ensures rate * x <= rate * y
  {
  }

  lemma CallKeepsTokens(b: Bucket, n: nat, now: real, wake: real)
    requires TokensOk(b) && Elapses(b, n, now, wake)
    ensures TokensOk(After(b, n, now, wake))
    ensures After(b, n, now, wake).rate == b.rate && After(b, n, now, wake).maxBurst == b.maxBurst
  {
  }

  lemma CallKeepsBudget(b: Bucket, n: nat, now: real, wake: real, released: nat, sleeps: nat, start: real)
    requires TokensOk(b) && Elapses(b, n, now, wake) && Budget(b, released, sleeps, start)
    ensures Budget(After(b, n, now, wake), released + n, sleeps + (if Charged(b, n, now) < 0.0 then 1 else 0), start)
  {
    if Charged(b, n, now) < 0.0 { BudgetSleep(b, n, now, wake, released, sleeps, start); }
    else { BudgetNoSleep(b, n, now, released, sleeps, start); }
  }

  ghost predicate Fresh(b: Bucket, bytesPerSec: nat) {
    TokensOk(b) && b.rate == bytesPerSec as real / NANOS_PER_SECOND && b.maxBurst == bytesPerSec as real
  }

  lemma {:induction false} RunTokens(bs: seq<Bucket>, calls: seq<Call>, bytesPerSec: nat, start: real, k: nat)
    requires Run(bs, calls, bytesPerSec, start) && k < |bs|
    ensures Fresh(bs[k], bytesPerSec)
  {
    if k > 0 {
      RunTokens(bs, calls, bytesPerSec, start, k - 1);
      assert CallAt(bs, calls, k - 1);
      CallKeepsTokens(bs[k - 1], calls[k - 1].n, calls[k - 1].now, calls[k - 1].wake);
    }
  }

  lemma FirstBudget(bytesPerSec: nat, start: real)
    ensures Budget(NewBucket(bytesPerSec, start), 0, 0, start)
  {
    var rate := NewBucket(bytesPerSec, start).rate;
    assert rate * (start - start) == 0.0 && rate * 0 as real == 0.0;
  }

  lemma {:induction false} RunBudget(bs: seq<Bucket>, calls: seq<Call>, bytesPerSec: nat, start: real, k: nat)
    requires Run(bs, calls, bytesPerSec, start) && k < |bs|
    ensures Budget(bs[k], Released(calls, k), Sleeps(bs, calls, k), start)
  {
    if k == 0 {
      FirstBudget(bytesPerSec, start);
    } else {
      RunBudget(bs, calls, bytesPerSec, start, k - 1);
      RunTokens(bs, calls, bytesPerSec, start, k - 1);
      assert CallAt(bs, calls, k - 1);
      var c := calls[k - 1];
      CallKeepsBudget(bs[k - 1], c.n, c.now, c.wake, Released(calls, k - 1), Sleeps(bs, calls, k - 1), start);
    }
  }

  /**
   Bytes released never exceed the burst plus the rate times the time passed, plus
   one nanosecond's worth for each rounded sleep; the bucket stays between empty and full.
   */
  lemma RateIsBounded(bs: seq<Bucket>, calls: seq<Call>, bytesPerSec: nat, start: real, k: nat)
    requires Run(bs, calls, bytesPerSec, start) && k < |bs|
    ensures bs[k].rate == bytesPerSec as real / NANOS_PER_SECOND && bs[k].maxBurst == bytesPerSec as real
    ensures 0.0 <= bs[k].tokens <= bs[k].maxBurst
    ensures Released(calls, k) as real
         <= bs[k].maxBurst + bs[k].rate * (bs[k].lastTime - start) + bs[k].rate * Sleeps(bs, calls, k) as real
  {
    RunTokens(bs, calls, bytesPerSec, start, k);
    RunBudget(bs, calls, bytesPerSec, start, k);
  }

  // ------------------------------------------------------------------
  // When a caller is not delayed
  // ------------------------------------------------------------------

  /** A call sleeps exactly when it asks for more than the bucket can hold or has by then. */
  lemma SleepsIff(b: Bucket, n: nat, now: real)
    ensures Charged(b, n, now) < 0.0 <==>
              n as real > b.maxBurst || n as real > b.tokens + (now - b.lastTime) * b.rate
  {
  }

  /** Without a sleep the bucket is left with what it had and accrued, capped, less what was asked. */
  lemma ChargesExactly(b: Bucket, n: nat, now: real, wake: real)
    requires n as real <= b.maxBurst && n as real <= b.tokens + (now - b.lastTime) * b.rate
    ensures After(b, n, now, wake).lastTime == now
    ensures After(b, n, now, wake).tokens + n as real ==
              if b.tokens + (now - b.lastTime) * b.rate <= b.maxBurst then b.tokens + (now - b.lastTime) * b.rate else b.maxBurst
  {
  }

  lemma SecondFills(rate: real, elapsed: real)
    requires rate > 0.0 && elapsed >= NANOS_PER_SECOND
    ensures elapsed * rate >= NANOS_PER_SECOND * rate
  {
    RateMonotone(rate, NANOS_PER_SECOND, elapsed);
  }

  /** At any point of any run, after a second of rest a burst of one second's bytes passes at once. */
  lemma RestedBurstPasses(bs: seq<Bucket>, calls: seq<Call>, bytesPerSec: nat, start: real, k: nat, n: nat, now: real)
    requires Run(bs, calls, bytesPerSec, start) && k < |bs|
    requires n <= bytesPerSec && now >= bs[k].lastTime + NANOS_PER_SECOND
    ensures Charged(bs[k], n, now) >= 0.0
  {
    RunTokens(bs, calls, bytesPerSec, start, k);
    var b := bs[k];
    SecondFills(b.rate, now - b.lastTime);
    assert NANOS_PER_SECOND * b.rate == bytesPerSec as real;
    SleepsIff(b, n, now);
  }
}
