/** The token bucket that limits websocket messages per connection
    (apps/realtime/rate_limit.py). Floats are reals; the monotonic clock is a
    parameter of each call. */
module RateLimit {

  /** The fixed parameters of a bucket and the time it was created. */
  datatype Config = Config(capacity: real, refillPerSecond: real, created: real) {
    ghost predicate Valid() {
      capacity >= 0.0 && refillPerSecond >= 0.0 && created > 0.0
    }
  }

  /** One call of `consume`: the clock reading and the requested amount. */
  datatype Call = Call(now: real, amount: real)

  datatype Bucket = Bucket(tokens: real, lastRefill: real)

  function Min(x: real, y: real): real {
    if x < y then x else y
  }

  // A last refill of exactly zero is read as "never", so it counts no time.
  function Elapsed(lastRefill: real, now: real): real {
    if lastRefill == 0.0 then 0.0 else now - lastRefill
  }

  function Refill(cfg: Config, seconds: real): real {
    seconds * cfg.refillPerSecond
  }

  /** Tokens present when a call is decided. */
  function Available(cfg: Config, b: Bucket, now: real): real {
    Min(cfg.capacity, b.tokens + Refill(cfg, Elapsed(b.lastRefill, now)))
  }

  function Next(cfg: Config, b: Bucket, call: Call): Bucket {
    var available := Available(cfg, b, call.now);
    Bucket(if available < call.amount then available else available - call.amount, call.now)
  }

  class TokenBucket {
    const capacity: real
    const refillPerSecond: real
    ghost const created: real
    var tokens: real
    var lastRefill: real

    ghost function Configuration(): Config {
      Config(capacity, refillPerSecond, created)
    }

    ghost function State(): Bucket
      reads this
    {
      Bucket(tokens, lastRefill)
    }

    constructor (capacity: real, refillPerSecond: real, now: real)
      ensures Configuration() == Config(capacity, refillPerSecond, now)
      ensures State() == After(Configuration(), [])
    {
      this.capacity := capacity;
      this.refillPerSecond := refillPerSecond;
      this.created := now;
      tokens := capacity;
      lastRefill := now;
    }

    method Consume(now: real, amount: real) returns (accepted: bool)
      modifies this
      ensures accepted <==> Available(Configuration(), old(State()), now) >= amount
      ensures State() == Next(Configuration(), old(State()), Call(now, amount))
    {
      var elapsed := now - (if lastRefill == 0.0 then now else lastRefill);
      lastRefill := now;
      tokens := Min(capacity, tokens + elapsed * refillPerSecond);
      if tokens < amount {
        return false;
      }
      tokens := tokens - amount;
      return true;
    }
  }

  // ---------- Histories of calls ----------

  ghost function After(cfg: Config, calls: seq<Call>): Bucket {
    if calls == [] then Bucket(cfg.capacity, cfg.created)
    else Next(cfg, After(cfg, calls[..|calls| - 1]), calls[|calls| - 1])
  }

  /** Tokens found by call n of the history. */
  ghost function AvailableAt(cfg: Config, calls: seq<Call>, n: nat): real
    requires n < |calls|
  {
    Available(cfg, After(cfg, calls[..n]), calls[n].now)
  }

  ghost predicate Accepted(cfg: Config, calls: seq<Call>, n: nat)
    requires n < |calls|
  {
    AvailableAt(cfg, calls, n) >= calls[n].amount
  }

  /** Total amount granted to the calls i, ..., j - 1. */
  ghost function Granted(cfg: Config, calls: seq<Call>, i: nat, j: nat): real
    requires i <= j <= |calls|
  {
    if i == j then 0.0
    else Granted(cfg, calls, i, j - 1) + if Accepted(cfg, calls, j - 1) then calls[j - 1].amount else 0.0
  }

  /** The clock is positive and never runs backwards. */
  ghost predicate Monotone(cfg: Config, calls: seq<Call>) {
    && (forall i :: 0 <= i < |calls| ==> cfg.created <= calls[i].now)
    && (forall i, j :: 0 <= i <= j < |calls| ==> calls[i].now <= calls[j].now)
  }

  lemma RefillIsGain(cfg: Config, seconds: real)
    requires cfg.refillPerSecond >= 0.0 && seconds >= 0.0
    ensures Refill(cfg, seconds) >= 0.0
  {
  }

  lemma RefillBetween(cfg: Config, t: real, u: real)
    ensures Refill(cfg, u - t) == Refill(cfg, u) - Refill(cfg, t)
    ensures cfg.refillPerSecond >= 0.0 && t <= u ==> Refill(cfg, t) <= Refill(cfg, u)
  {
    if cfg.refillPerSecond >= 0.0 && t <= u {
      RefillIsGain(cfg, u - t);
    }
  }

  /** The most a window of this length may grant: one full bucket plus the
      refill of its duration. */
  ghost function Allowance(cfg: Config, opens: real, closes: real): (limit: real) {
    cfg.capacity + Refill(cfg, closes - opens)
  }

  lemma AllowanceIsRefill(cfg: Config, opens: real, closes: real)
    ensures Allowance(cfg, opens, closes) == cfg.capacity + Refill(cfg, closes) - Refill(cfg, opens)
  {
    RefillBetween(cfg, opens, closes);
  }

  /** What the window that opens at call i still leaves to call n under the
      limit `capacity + rate * elapsed time`. */
  ghost function WindowSlack(cfg: Config, calls: seq<Call>, i: nat, n: nat): real
    requires i <= n < |calls|
  {
    cfg.capacity + Refill(cfg, calls[n].now) - Refill(cfg, calls[i].now) - Granted(cfg, calls, i, n)
  }

  ghost function GrantedTo(cfg: Config, calls: seq<Call>, n: nat): real
    requires n < |calls|
  {
    if Accepted(cfg, calls, n) then calls[n].amount else 0.0
  }

  lemma NextAvailable(cfg: Config, b: Bucket, call: Call, now: real)
    requires call.now != 0.0
    ensures var available := Available(cfg, b, call.now);
            Available(cfg, Next(cfg, b, call), now)
            == Min(cfg.capacity,
                   available - (if available >= call.amount then call.amount else 0.0)
                   + Refill(cfg, now) - Refill(cfg, call.now))
  {
    hide Refill, Min;
    RefillBetween(cfg, call.now, now);
  }

  // One step of the bucket, seen from the call before.
  lemma AvailableStep(cfg: Config, calls: seq<Call>, n: nat)
    requires cfg.Valid() && Monotone(cfg, calls) && 0 < n < |calls|
    ensures AvailableAt(cfg, calls, n)
         == Min(cfg.capacity,
                AvailableAt(cfg, calls, n - 1) - GrantedTo(cfg, calls, n - 1)
                + Refill(cfg, calls[n].now) - Refill(cfg, calls[n - 1].now))
  {
    hide Available, Next, Refill, Min;
    assert calls[..n][..n - 1] == calls[..n - 1];
    NextAvailable(cfg, After(cfg, calls[..n - 1]), calls[n - 1], calls[n].now);
  }

  /** The tokens found by a call are exactly the tightest of all windows that
      end at it: none leaves less, and one leaves just as much. */
  lemma {:induction false} AvailableIsTightestWindow(cfg: Config, calls: seq<Call>, n: nat)
    requires cfg.Valid() && Monotone(cfg, calls) && n < |calls|
    ensures forall i: nat :: i <= n ==> AvailableAt(cfg, calls, n) <= WindowSlack(cfg, calls, i, n)
    ensures exists i: nat :: i <= n && AvailableAt(cfg, calls, n) == WindowSlack(cfg, calls, i, n)
    ensures AvailableAt(cfg, calls, n) >= 0.0
  {
    hide Refill;
    assert WindowSlack(cfg, calls, n, n) == cfg.capacity;
    if n == 0 {
      assert calls[..0] == [];
      RefillBetween(cfg, cfg.created, calls[0].now);
    } else {
      AvailableIsTightestWindow(cfg, calls, n - 1);
      AvailableStep(cfg, calls, n);
      RefillBetween(cfg, calls[n - 1].now, calls[n].now);
      var k: nat :| k <= n - 1 && AvailableAt(cfg, calls, n - 1) == WindowSlack(cfg, calls, k, n - 1);
      TightestStep(cfg, calls, n, n - 1, k);
    }
  }

  // The inductive step, on the windows alone.
  lemma TightestStep(cfg: Config, calls: seq<Call>, n: nat, p: nat, k: nat)
    requires k <= p == n - 1 && n < |calls|
    requires AvailableAt(cfg, calls, n)
          == Min(cfg.capacity,
                 AvailableAt(cfg, calls, n - 1) - GrantedTo(cfg, calls, n - 1)
                 + Refill(cfg, calls[n].now) - Refill(cfg, calls[n - 1].now))
    requires forall i: nat :: i <= p ==> AvailableAt(cfg, calls, p) <= WindowSlack(cfg, calls, i, p)
    requires AvailableAt(cfg, calls, p) == WindowSlack(cfg, calls, k, p)
    ensures forall i: nat :: i <= n ==> AvailableAt(cfg, calls, n) <= WindowSlack(cfg, calls, i, n)
    ensures exists i: nat :: i <= n && AvailableAt(cfg, calls, n) == WindowSlack(cfg, calls, i, n)
  {
    hide Refill;
    assert WindowSlack(cfg, calls, n, n) == cfg.capacity;
    forall i: nat | i <= n
      ensures AvailableAt(cfg, calls, n) <= WindowSlack(cfg, calls, i, n)
    {
      if i < n {
        assert AvailableAt(cfg, calls, n - 1) <= WindowSlack(cfg, calls, i, n - 1);
        assert Granted(cfg, calls, i, n) == Granted(cfg, calls, i, n - 1) + GrantedTo(cfg, calls, n - 1);
      }
    }
    assert Granted(cfg, calls, k, n) == Granted(cfg, calls, k, n - 1) + GrantedTo(cfg, calls, n - 1);
    if AvailableAt(cfg, calls, n) == cfg.capacity {
      assert AvailableAt(cfg, calls, n) == WindowSlack(cfg, calls, n, n);
    } else {
      assert AvailableAt(cfg, calls, n) == WindowSlack(cfg, calls, k, n);
    }
  }

  lemma GrantedWithin(cfg: Config, calls: seq<Call>, i: nat, j: nat)
    requires cfg.Valid() && Monotone(cfg, calls) && i <= j < |calls|
    ensures Granted(cfg, calls, i, j + 1)
         <= cfg.capacity + Refill(cfg, calls[j].now) - Refill(cfg, calls[i].now)
  {
    AvailableIsTightestWindow(cfg, calls, j);
    assert AvailableAt(cfg, calls, j) <= WindowSlack(cfg, calls, i, j);
    assert Granted(cfg, calls, i, j + 1) == Granted(cfg, calls, i, j) + GrantedTo(cfg, calls, j);
  }

  /** Rate bound: whatever block of consecutive calls one looks at, the amount
      granted in it is at most one full bucket plus the refill of its duration. */
  lemma RateBound(cfg: Config, calls: seq<Call>, i: nat, j: nat)
    requires cfg.Valid() && Monotone(cfg, calls) && i <= j < |calls|
    ensures Granted(cfg, calls, i, j + 1)
         <= Allowance(cfg, calls[i].now, calls[j].now)
  {
    GrantedWithin(cfg, calls, i, j);
    AllowanceIsRefill(cfg, calls[i].now, calls[j].now);
  }

  /** Whether granting call n would keep the window that opens at call i
      within the bound. */
  ghost predicate WindowAllows(cfg: Config, calls: seq<Call>, i: nat, n: nat)
    requires i <= n < |calls|
  {
    Granted(cfg, calls, i, n) + calls[n].amount <= Allowance(cfg, calls[i].now, calls[n].now)
  }

  lemma WindowAllowsBySlack(cfg: Config, calls: seq<Call>, i: nat, n: nat)
    requires i <= n < |calls|
    ensures WindowAllows(cfg, calls, i, n) <==> calls[n].amount <= WindowSlack(cfg, calls, i, n)
  {
    AllowanceIsRefill(cfg, calls[i].now, calls[n].now);
  }

  /** The limiter rejects nothing needlessly: a call is accepted if and only if
      no window that ends with it would then exceed the bound. */
  lemma AcceptedIffEveryWindowAllows(cfg: Config, calls: seq<Call>, n: nat)
    requires cfg.Valid() && Monotone(cfg, calls) && n < |calls|
    ensures Accepted(cfg, calls, n) <==> forall i: nat :: i <= n ==> WindowAllows(cfg, calls, i, n)
  {
    AvailableIsTightestWindow(cfg, calls, n);
    var k: nat :| k <= n && AvailableAt(cfg, calls, n) == WindowSlack(cfg, calls, k, n);
    WindowAllowsBySlack(cfg, calls, k, n);
    forall i: nat | i <= n
      ensures Accepted(cfg, calls, n) ==> WindowAllows(cfg, calls, i, n)
    {
      assert AvailableAt(cfg, calls, n) <= WindowSlack(cfg, calls, i, n);
      WindowAllowsBySlack(cfg, calls, i, n);
    }
  }

  /** The fill level stays within [0, capacity] as long as no call asks for a
      negative amount. */
  lemma LevelInRange(cfg: Config, calls: seq<Call>)
    requires cfg.Valid() && Monotone(cfg, calls)
    requires forall i :: 0 <= i < |calls| ==> calls[i].amount >= 0.0
    ensures 0.0 <= After(cfg, calls).tokens <= cfg.capacity
  {
    if calls != [] {
      AvailableIsTightestWindow(cfg, calls, |calls| - 1);
    }
  }
}
