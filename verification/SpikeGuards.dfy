/** The two guards around a spike: the signature cache that drops repeated trades, with
    its lazy clean-up, and the per-mint emission throttle. */
module SpikeGuards {
  import opened Clock
  import opened Text

  // ----- the signature cache -----

  const CACHE_LIMIT := 10_000

  type Cache = map<string, int>

  predicate Duplicate(cache: Cache, sig: string, now: int, window: int) {
    sig in cache && now - cache[sig] < window
  }

  /** What the lazy clean-up leaves. */
  function Unexpired(cache: Cache, cutoff: int): Cache {
    map s | s in cache && cutoff <= cache[s] :: cache[s]
  }

  /** The cache after a check. */
  function Marked(cache: Cache, sig: string, now: int, window: int): Cache {
    if Duplicate(cache, sig, now, window) then cache
    else
      var c := cache[sig := now];
      if CACHE_LIMIT < |c| then Unexpired(c, now - window) else c
  }

  /** The checks so far, the latest outermost. */
  datatype Checks = NoChecks | Check(before: Checks, sig: string, now: int)

  function CacheAfter(t: Checks, window: int): Cache {
    match t
    case NoChecks => map[]
    case Check(before, sig, now) => Marked(CacheAfter(before, window), sig, now, window)
  }

  /** Whether the latest check reports its signature as new. */
  predicate Accepted(t: Checks, window: int)
    requires t.Check?
  {
    !Duplicate(CacheAfter(t.before, window), t.sig, t.now, window)
  }

  /** When a signature was reported as new, oldest first. */
  function AcceptedTimes(t: Checks, sig: string, window: int): seq<int> {
    match t
    case NoChecks => []
    case Check(before, s, now) =>
      AcceptedTimes(before, sig, window) + (if s == sig && Accepted(t, window) then [now] else [])
  }

  /** When the latest accepting check of any signature took place; `none` before that. */
  function LastAcceptance(t: Checks, window: int, none: int): int {
    match t
    case NoChecks => none
    case Check(before, _, now) => if Accepted(t, window) then now else LastAcceptance(before, window, none)
  }

  /** The wall clock never steps back, and stands at `now` at most. */
  predicate ClockUpTo(t: Checks, now: int) {
    match t
    case NoChecks => true
    case Check(before, _, at) => at <= now && ClockUpTo(before, at)
  }

  ghost predicate SpacedBy(times: seq<int>, delta: int) {
    forall i :: 0 < i < |times| ==> times[i - 1] + delta <= times[i]
  }

  ghost predicate AllAtMost(times: seq<int>, top: int) {
    forall i :: 0 <= i < |times| ==> times[i] <= top
  }

  /** The cache holds the last acceptance of a signature, or has forgotten it because it
      is older than the window. */
  ghost predicate Knows(cache: Cache, times: seq<int>, sig: string, now: int, window: int) {
    && SpacedBy(times, window)
    && AllAtMost(times, now)
    && (if sig in cache then times != [] && cache[sig] == times[|times| - 1]
        else AllAtMost(times, now - window - 1))
  }

  lemma KnowsAfterAcceptance(cache: Cache, times: seq<int>, sig: string, now: int, window: int)
    requires 0 < window && Knows(cache, times, sig, now, window) && !Duplicate(cache, sig, now, window)
    ensures AllAtMost(times, now - window)
    ensures Knows(cache[sig := now], times + [now], sig, now, window)
  {
    TimesAscend(times, window);
  }

  lemma KnowsAfterCleanup(cache: Cache, times: seq<int>, sig: string, now: int, window: int)
    requires 0 < window && Knows(cache, times, sig, now, window)
    ensures Knows(Unexpired(cache, now - window), times, sig, now, window)
  {
    TimesAscend(times, window);
  }

  lemma KnowsLater(cache: Cache, times: seq<int>, sig: string, now: int, later: int, window: int)
    requires Knows(cache, times, sig, now, window) && now <= later
    ensures Knows(cache, times, sig, later, window)
  {
  }

  lemma {:induction false} CacheKnows(t: Checks, sig: string, now: int, window: int)
    requires ClockUpTo(t, now) && 0 < window
    ensures Knows(CacheAfter(t, window), AcceptedTimes(t, sig, window), sig, now, window)
  {
    if t.Check? {
      CacheKnows(t.before, sig, t.now, window);
      var cache, times := CacheAfter(t.before, window), AcceptedTimes(t.before, sig, window);
      if Accepted(t, window) {
        if t.sig == sig { KnowsAfterAcceptance(cache, times, sig, t.now, window); }
        KnowsAfterCleanup(cache[t.sig := t.now], AcceptedTimes(t, sig, window), sig, t.now, window);
      }
      KnowsLater(CacheAfter(t, window), AcceptedTimes(t, sig, window), sig, t.now, now, window);
    }
  }

  lemma {:induction false} TimesAscend(times: seq<int>, window: int)
    requires 0 < window && SpacedBy(times, window)
    ensures times != [] ==> AllAtMost(times, times[|times| - 1])
  {
    if 1 < |times| {
      var rest := times[..|times| - 1];
      TimesAscend(rest, window);
      assert forall i :: 0 <= i < |rest| ==> rest[i] == times[i];
    }
  }

  /** The dedupe theorem. While the wall clock does not step back, a check reports its
      signature as new exactly when every earlier report of it, however long ago and
      whatever was cleaned up since, is at least the window old: the bounded cache
      answers as unbounded memory would. */
  lemma DedupeIsExact(t: Checks, window: int)
    requires t.Check? && ClockUpTo(t, t.now) && 0 < window
    ensures var earlier := AcceptedTimes(t.before, t.sig, window);
            Accepted(t, window) <==> forall i :: 0 <= i < |earlier| ==> window <= t.now - earlier[i]
  {
    var cache, earlier := CacheAfter(t.before, window), AcceptedTimes(t.before, t.sig, window);
    CacheKnows(t.before, t.sig, t.now, window);
    if Accepted(t, window) {
      KnowsAfterAcceptance(cache, earlier, t.sig, t.now, window);
    } else {
      assert t.now - earlier[|earlier| - 1] < window;
    }
  }

  /** Two reports of one signature as new are at least the window apart. */
  lemma AcceptancesSpaced(t: Checks, sig: string, now: int, window: int)
    requires ClockUpTo(t, now) && 0 < window
    ensures SpacedBy(AcceptedTimes(t, sig, window), window)
  {
    CacheKnows(t, sig, now, window);
  }

  /** The cache stays within its limit, or holds nothing that was older than the window at
      the latest acceptance. */
  lemma {:induction false} CacheStaysSmall(t: Checks, window: int, none: int)
    requires 0 < window
    ensures var c := CacheAfter(t, window);
            |c| <= CACHE_LIMIT || forall s :: s in c ==> LastAcceptance(t, window, none) - window <= c[s]
  {
    if t.Check? { CacheStaysSmall(t.before, window, none); }
  }

  lemma SizeOfOneMore(c: Cache, sig: string, now: int)
    ensures |c[sig := now]| <= |c| + 1
  {
    var d := c[sig := now];
    assert d.Keys == c.Keys + {sig};
    assert |d.Keys| == |d| && |c.Keys| == |c|;
  }

  /** Below 10000 signatures nothing is forgotten: an accepted signature is added, and a
      refused one changes nothing. */
  lemma NothingForgottenBelowLimit(t: Checks, window: int)
    requires t.Check? && |CacheAfter(t.before, window)| < 10_000
    ensures CacheAfter(t, window)
         == if Accepted(t, window) then CacheAfter(t.before, window)[t.sig := t.now] else CacheAfter(t.before, window)
  {
    SizeOfOneMore(CacheAfter(t.before, window), t.sig, t.now);
    assert CacheAfter(t, window) == Marked(CacheAfter(t.before, window), t.sig, t.now, window);
  }

  // ----- the emission throttle -----

  type LastSpikes = map<string, int>

  predicate MayEmit(last: LastSpikes, mint: string, at: int, delta: int) {
    mint in last ==> delta <= at - last[mint]
  }

  function AfterOffer(last: LastSpikes, mint: string, at: int, delta: int): LastSpikes {
    if MayEmit(last, mint, at, delta) then last[mint := at] else last
  }

  /** The spikes offered for emission so far, the latest outermost. */
  datatype Offers = NoOffers | Offer(before: Offers, mint: string, at: int)

  function LastAfter(t: Offers, delta: int): LastSpikes {
    match t
    case NoOffers => map[]
    case Offer(before, mint, at) => AfterOffer(LastAfter(before, delta), mint, at, delta)
  }

  /** The event times at which a mint's spikes were let through, in order of emission. */
  function EmittedTimes(t: Offers, mint: string, delta: int): seq<int> {
    match t
    case NoOffers => []
    case Offer(before, m, at) =>
      EmittedTimes(before, mint, delta)
      + (if m == mint && MayEmit(LastAfter(before, delta), m, at, delta) then [at] else [])
  }

  /** Event times in any order: what is let through for a mint strictly increases, in
      steps of at least delta, and the throttle remembers the last of them. */
  lemma {:induction false} EmissionsSpaced(t: Offers, mint: string, delta: int)
    requires 0 < delta
    ensures SpacedBy(EmittedTimes(t, mint, delta), delta)
    ensures var times := EmittedTimes(t, mint, delta); var last := LastAfter(t, delta);
            if times == [] then mint !in last else mint in last && last[mint] == times[|times| - 1]
  {
    if t.Offer? { EmissionsSpaced(t.before, mint, delta); }
  }

  lemma BelowAll(times: seq<int>, delta: int, at: int)
    requires 0 < delta && SpacedBy(times, delta) && times != []
    ensures times[|times| - 1] + delta <= at <==> forall i :: 0 <= i < |times| ==> times[i] + delta <= at
  {
    TimesAscend(times, delta);
  }

  /** The throttle theorem: a spike is let through exactly when every earlier emission of its
      mint is at least delta before it; what it was refused for leaves no trace, and other
      mints do not matter. */
  lemma ThrottleIsExact(t: Offers, mint: string, at: int, delta: int)
    requires 0 < delta
    ensures var times := EmittedTimes(t, mint, delta);
            var passes := forall i :: 0 <= i < |times| ==> times[i] + delta <= at;
            && (MayEmit(LastAfter(t, delta), mint, at, delta) <==> passes)
            && EmittedTimes(Offer(t, mint, at), mint, delta) == (if passes then times + [at] else times)
            && forall m :: m != mint ==> EmittedTimes(Offer(t, mint, at), m, delta) == EmittedTimes(t, m, delta)
  {
    EmissionsSpaced(t, mint, delta);
    var times := EmittedTimes(t, mint, delta);
    if times != [] { BelowAll(times, delta, at); }
    assert times + [] == times;
  }

  function CountIn(times: seq<int>, from: int, to: int): nat {
    if times == [] then 0
    else CountIn(times[..|times| - 1], from, to) + (if from <= times[|times| - 1] <= to then 1 else 0)
  }

  lemma {:induction false} CountBelow(times: seq<int>, from: int, top: int, to: int)
    requires AllAtMost(times, top)
    ensures CountIn(times, from, to) <= CountIn(times, from, top)
    ensures top < from ==> CountIn(times, from, to) == 0
  {
    if times != [] {
      var rest := times[..|times| - 1];
      assert forall i :: 0 <= i < |rest| ==> rest[i] == times[i];
      CountBelow(rest, from, top, to);
    }
  }

  /** If n of the times fall in an interval of length L, then (n - 1) * delta <= L. */
  lemma {:induction false} EmissionRate(times: seq<int>, delta: int, from: int, to: int)
    requires 0 < delta && SpacedBy(times, delta) && from <= to
    ensures (CountIn(times, from, to) - 1) * delta <= to - from
  {
    if times != [] {
      var n := |times| - 1;
      var rest, last := times[..n], times[n];
      assert SpacedBy(rest, delta);
      if from <= last <= to {
        BelowLast(times, delta);
        CountBelow(rest, from, last - delta, to);
        if from <= last - delta {
          EmissionRate(rest, delta, from, last - delta);
          OneMore(CountIn(rest, from, to), CountIn(rest, from, last - delta), delta, last - from);
        }
      } else {
        EmissionRate(rest, delta, from, to);
      }
    }
  }

  lemma BelowLast(times: seq<int>, delta: int)
    requires 0 < delta && SpacedBy(times, delta) && times != []
    ensures AllAtMost(times[..|times| - 1], times[|times| - 1] - delta)
  {
    var rest := times[..|times| - 1];
    assert SpacedBy(rest, delta);
    TimesAscend(rest, delta);
  }

  lemma OneMore(n: nat, m: nat, delta: int, span: int)
    requires 0 < delta && n <= m && (m - 1) * delta <= span - delta
    ensures n * delta <= span
  {
    assert m * delta == (m - 1) * delta + delta;
    assert (m - n) * delta >= 0;
  }

  lemma FloorBound(n: int, delta: int, span: int)
    requires 0 < delta && 0 <= span && n * delta <= span
    ensures n <= span / delta
  {
    var q := span / delta;
    assert span == q * delta + span % delta;
    assert (n - q - 1) * delta == n * delta - q * delta - delta;
    NegativeFactor(n - q - 1, delta);
  }

  lemma NegativeFactor(x: int, d: int)
    requires 0 < d && x * d < 0
    ensures x < 0
  {
  }

  /** At most floor(L / delta) + 1 emissions of a mint fall in any interval of length L,
      whatever the order in which its spikes were offered. */
  lemma EmissionsPerInterval(t: Offers, mint: string, delta: int, from: int, to: int)
    requires 0 < delta && from <= to
    ensures CountIn(EmittedTimes(t, mint, delta), from, to) <= (to - from) / delta + 1
  {
    EmissionsSpaced(t, mint, delta);
    EmissionRate(EmittedTimes(t, mint, delta), delta, from, to);
    FloorBound(CountIn(EmittedTimes(t, mint, delta), from, to) - 1, delta, to - from);
  }

  // ----- spike identifiers -----

  /** 1970-01-01 in nanoseconds since year 1. */
  const EPOCH := 62_135_596_800 * SECOND

  function BuildSpikeID(mint: string, at: int): string {
    Tagged(mint, at - EPOCH)
  }

  /** The form of a spike id: the mint, a hyphen, and the nanoseconds since 1970. */
  lemma SpikeIDForm(mint: string, nanos: nat)
    ensures BuildSpikeID(mint, EPOCH + nanos) == mint + "-" + Digits(nanos)
    ensures EPOCH == 719_162 * 86_400 * 1_000_000_000
  {
  }

  /** Spike ids of times not before 1970 name the mint and the time, hyphens or not. */
  lemma SpikeIDsDistinct(m: string, s: int, n: string, t: int)
    requires EPOCH <= s && EPOCH <= t
    ensures BuildSpikeID(m, s) == BuildSpikeID(n, t) <==> m == n && s == t
  {
    TaggedCollision(m, s - EPOCH, n, t - EPOCH);
  }
}
