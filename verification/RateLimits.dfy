/** The per-client token bucket. A refill adds a rate's worth of tokens per whole second
    since the last refill, caps them at one second's worth, and restarts the count; the
    bounds below need no assumption about the clock. */
module RateLimits {
  import opened Clock

  datatype Bucket = Bucket(tokens: int, lastRefill: int)

  function Refilled(b: Bucket, rate: int, now: int): Bucket {
    var elapsed := now - b.lastRefill;
    if elapsed < SECOND then b
    else
      var tokens := b.tokens + (elapsed / SECOND) * rate;
      Bucket(if rate < tokens then rate else tokens, now)
  }

  /** Whether a request at `now` is granted. */
  predicate Grants(b: Bucket, rate: int, now: int) {
    0 < Refilled(b, rate, now).tokens
  }

  function Asked(b: Bucket, rate: int, now: int): Bucket {
    var r := Refilled(b, rate, now);
    if 0 < r.tokens then r.(tokens := r.tokens - 1) else r
  }

  /** One request in full: within a second of the last refill nothing is added; after that
      the bucket is full and the second starts again; a request takes one token if there is
      one and is refused otherwise. */
  lemma RequestMeans(b: Bucket, rate: int, now: int)
    requires InRange(b, rate) && 0 < rate
    ensures var full := 1_000_000_000 <= now - b.lastRefill;
            var tokens, since := if full then rate else b.tokens, if full then now else b.lastRefill;
            && (Grants(b, rate, now) <==> 0 < tokens)
            && Asked(b, rate, now) == Bucket(if 0 < tokens then tokens - 1 else 0, since)
  {
    if SECOND <= now - b.lastRefill { Monotone(rate, 1, (now - b.lastRefill) / SECOND); }
  }

  /** Requests in order, each with the clock's reading. */
  datatype Asks = None | Ask(now: int, rest: Asks)

  function Granted(b: Bucket, rate: int, asks: Asks): nat
    decreases asks
  {
    match asks
    case None => 0
    case Ask(now, rest) => (if Grants(b, rate, now) then 1 else 0) + Granted(Asked(b, rate, now), rate, rest)
  }

  function After(b: Bucket, rate: int, asks: Asks): Bucket
    decreases asks
  {
    match asks
    case None => b
    case Ask(now, rest) => After(Asked(b, rate, now), rate, rest)
  }

  predicate Between(asks: Asks, from: int, to: int) {
    match asks
    case None => true
    case Ask(now, rest) => from <= now <= to && Between(rest, from, to)
  }

  /** The range every bucket of a run keeps. */
  predicate InRange(b: Bucket, rate: int) {
    0 <= b.tokens <= rate
  }

  lemma Distribute(rate: int, a: int, b: int)
    ensures rate * (a + b) == rate * a + rate * b
  {
  }

  lemma Monotone(rate: int, a: int, b: int)
    requires 0 <= rate && a <= b
    ensures rate * a <= rate * b
  {
    assert rate * b == rate * a + rate * (b - a);
  }

  /** One request: the bucket stays in range, and what it grants is paid for by its tokens
      and by the whole seconds its refill time moves. */
  lemma AskPays(b: Bucket, rate: int, now: int)
    requires InRange(b, rate) && 0 < rate
    ensures var b' := Asked(b, rate, now);
            && InRange(b', rate)
            && b.lastRefill <= b'.lastRefill
            && (if Grants(b, rate, now) then 1 else 0) + b'.tokens
               <= b.tokens + rate * ((b'.lastRefill - b.lastRefill) / SECOND)
  {
    var n := (now - b.lastRefill) / SECOND;
    if SECOND <= now - b.lastRefill {
      Monotone(rate, 1, n);
    }
  }

  lemma WholeSecondsAdd(x: int, y: int)
    requires 0 <= x && 0 <= y
    ensures x / SECOND + y / SECOND <= (x + y) / SECOND
  {
  }

  /** Over any run of requests the tokens stay between 0 and the rate, and what is granted
      is paid for. */
  lemma {:induction false} RunPays(b: Bucket, rate: int, asks: Asks)
    requires InRange(b, rate) && 0 < rate
    ensures var b' := After(b, rate, asks);
            && InRange(b', rate)
            && b.lastRefill <= b'.lastRefill
            && Granted(b, rate, asks) + b'.tokens <= b.tokens + rate * ((b'.lastRefill - b.lastRefill) / SECOND)
    decreases asks
  {
    if asks.Ask? {
      var b1 := Asked(b, rate, asks.now);
      AskPays(b, rate, asks.now);
      RunPays(b1, rate, asks.rest);
      var b2 := After(b1, rate, asks.rest);
      var x, y := b1.lastRefill - b.lastRefill, b2.lastRefill - b1.lastRefill;
      WholeSecondsAdd(x, y);
      Distribute(rate, x / SECOND, y / SECOND);
      Monotone(rate, x / SECOND + y / SECOND, (x + y) / SECOND);
    }
  }

  lemma {:induction false} RefillsBy(b: Bucket, rate: int, asks: Asks, from: int, to: int)
    requires Between(asks, from, to) && b.lastRefill <= to
    ensures After(b, rate, asks).lastRefill <= to
    decreases asks
  {
    if asks.Ask? { RefillsBy(Asked(b, rate, asks.now), rate, asks.rest, from, to); }
  }

  /** A client is granted at most rate * (1 + floor(T)) sends in the first T seconds after
      it connects. */
  lemma GrantsSinceCreation(rate: int, born: int, asks: Asks, from: int, to: int)
    requires 0 < rate && born <= to && Between(asks, from, to)
    ensures Granted(Bucket(rate, born), rate, asks) <= rate * (1 + (to - born) / SECOND)
  {
    var b := Bucket(rate, born);
    var last := After(b, rate, asks).lastRefill;
    RunPays(b, rate, asks);
    RefillsBy(b, rate, asks, from, to);
    Monotone(rate, (last - born) / SECOND, (to - born) / SECOND);
    Distribute(rate, 1, (to - born) / SECOND);
  }

  /** Until its first refill a bucket spends what it has; from a refill on it is granted a
      rate's worth, and another for every whole second left. */
  lemma {:induction false} WindowPays(b: Bucket, rate: int, asks: Asks, from: int, to: int)
    requires InRange(b, rate) && 0 < rate && from <= to && Between(asks, from, to)
    ensures b.lastRefill + SECOND <= from ==> Granted(b, rate, asks) <= rate * (1 + (to - from) / SECOND)
    ensures from < b.lastRefill + SECOND ==> Granted(b, rate, asks) <= b.tokens + rate * (1 + (to - from - 1) / SECOND)
    decreases asks
  {
    Monotone(rate, 0, 1 + (to - from - 1) / SECOND);
    Monotone(rate, 0, 1 + (to - from) / SECOND);
    if asks.Ask? {
      if asks.now - b.lastRefill < SECOND {
        WindowPays(Asked(b, rate, asks.now), rate, asks.rest, from, to);
      } else {
        FirstRefillPays(b, rate, asks, from, to);
      }
    }
  }

  lemma FirstRefillPays(b: Bucket, rate: int, asks: Asks, from: int, to: int)
    requires InRange(b, rate) && 0 < rate && from <= to && Between(asks, from, to)
    requires asks.Ask? && b.lastRefill + SECOND <= asks.now
    ensures Granted(b, rate, asks) <= rate * (1 + (to - from) / SECOND)
    ensures from < b.lastRefill + SECOND ==> Granted(b, rate, asks) <= rate * (1 + (to - from - 1) / SECOND)
  {
    var now := asks.now;
    var b1 := Asked(b, rate, now);
    AskPays(b, rate, now);
    Monotone(rate, 1, (now - b.lastRefill) / SECOND);
    assert b1 == Bucket(rate - 1, now);
    RunPays(b1, rate, asks.rest);
    RefillsBy(b1, rate, asks.rest, from, to);
    var last := After(b1, rate, asks.rest).lastRefill;
    Distribute(rate, 1, (last - now) / SECOND);
    Monotone(rate, 1 + (last - now) / SECOND, 1 + (to - from) / SECOND);
    if from < now { Monotone(rate, 1 + (last - now) / SECOND, 1 + (to - from - 1) / SECOND); }
  }

  /** Any interval, wherever it starts, grants at most rate * (1 + T), where T is its length
      in seconds rounded up. */
  lemma GrantsInWindow(b: Bucket, rate: int, asks: Asks, from: int, to: int)
    requires InRange(b, rate) && 0 < rate && from <= to && Between(asks, from, to)
    ensures Granted(b, rate, asks) <= rate * (1 + Ceiling(to - from))
  {
    WindowPays(b, rate, asks, from, to);
    Distribute(rate, 1, Ceiling(to - from));
    Monotone(rate, 1 + (to - from) / SECOND, 1 + Ceiling(to - from));
  }

  /** A length of time in seconds, rounded up. */
  function Ceiling(span: int): int {
    (span - 1) / SECOND + 1
  }

  function Repeat(n: nat, now: int, rest: Asks): Asks {
    if n == 0 then rest else Ask(now, Repeat(n - 1, now, rest))
  }

  lemma {:induction false} Spend(tokens: nat, last: int, rate: int, now: int, rest: Asks)
    requires now - last < SECOND
    ensures Granted(Bucket(tokens, last), rate, Repeat(tokens, now, rest))
         == tokens + Granted(Bucket(0, last), rate, rest)
  {
    if 0 < tokens { Spend(tokens - 1, last, rate, now, rest); }
  }

  lemma FirstAfterRefill(rate: int, last: int, now: int, rest: Asks)
    requires 0 < rate && now == last + SECOND
    ensures Granted(Bucket(0, last), rate, Ask(now, rest)) == 1 + Granted(Bucket(rate - 1, now), rate, rest)
  {
    assert (now - last) / SECOND == 1;
    assert Refilled(Bucket(0, last), rate, now) == Bucket(rate, now);
  }

  /** A rate's worth of requests at each of the next n refills. */
  function Refills(n: nat, last: int, rate: nat): Asks {
    if n == 0 then None else Repeat(rate, last + SECOND, Refills(n - 1, last + SECOND, rate))
  }

  lemma {:induction false} RefillsGrantAll(n: nat, last: int, rate: nat)
    requires 0 < rate
    ensures Granted(Bucket(0, last), rate, Refills(n, last, rate)) == rate * n
  {
    if 0 < n {
      var now := last + SECOND;
      var later := Refills(n - 1, now, rate);
      FirstAfterRefill(rate, last, now, Repeat(rate - 1, now, later));
      Spend(rate - 1, now, rate, now, later);
      RefillsGrantAll(n - 1, now, rate);
      Distribute(rate, 1, n - 1);
    }
  }

  lemma {:induction false} RepeatBetween(n: nat, now: int, rest: Asks, from: int, to: int)
    requires from <= now <= to && Between(rest, from, to)
    ensures Between(Repeat(n, now, rest), from, to)
  {
    if 0 < n { RepeatBetween(n - 1, now, rest, from, to); }
  }

  lemma {:induction false} RefillsBetween(n: nat, last: int, rate: nat, from: int, to: int)
    requires from <= last + SECOND && last + n * SECOND <= to
    ensures Between(Refills(n, last, rate), from, to)
  {
    if 0 < n {
      RefillsBetween(n - 1, last + SECOND, rate, from, to);
      RepeatBetween(rate, last + SECOND, Refills(n - 1, last + SECOND, rate), from, to);
    }
  }

  /** The requests that exhaust an interval: a full bucket just before its first refill, and
      then every refill up to the end. */
  function Burst(rate: nat, from: int, to: int): Asks
    requires from <= to
  {
    Repeat(rate, from, Refills(Ceiling(to - from), from + 1 - SECOND, rate))
  }

  /** The window bound is reached, for every interval: a client whose bucket was filled a
      second less a nanosecond before it starts is granted exactly that much. */
  lemma BurstReachesBound(rate: nat, from: int, to: int)
    requires 0 < rate && from <= to
    ensures Between(Burst(rate, from, to), from, to)
    ensures Granted(Bucket(rate, from + 1 - SECOND), rate, Burst(rate, from, to)) == rate * (1 + Ceiling(to - from))
  {
    var n, last := Ceiling(to - from), from + 1 - SECOND;
    Spend(rate, last, rate, from, Refills(n, last, rate));
    RefillsGrantAll(n, last, rate);
    Distribute(rate, 1, n);
    RefillsBetween(n, last, rate, from, to);
    RepeatBetween(rate, from, Refills(n, last, rate), from, to);
  }

  /** So is the bound since creation. */
  lemma CreationBoundReached(rate: nat, born: int, to: int)
    requires 0 < rate && born <= to
    ensures var asks := Repeat(rate, born, Refills((to - born) / SECOND, born, rate));
            Between(asks, born, to) && Granted(Bucket(rate, born), rate, asks) == rate * (1 + (to - born) / SECOND)
  {
    var n := (to - born) / SECOND;
    Spend(rate, born, rate, born, Refills(n, born, rate));
    RefillsGrantAll(n, born, rate);
    Distribute(rate, 1, n);
    RefillsBetween(n, born, rate, born, to);
    RepeatBetween(rate, born, Refills(n, born, rate), born, to);
  }

  /** A client that stayed silent for a second is never refused. */
  lemma SilenceIsRewarded(b: Bucket, rate: int, now: int)
    requires InRange(b, rate) && 0 < rate && b.lastRefill + SECOND <= now
    ensures Grants(b, rate, now)
  {
    Monotone(rate, 1, (now - b.lastRefill) / SECOND);
  }
}
