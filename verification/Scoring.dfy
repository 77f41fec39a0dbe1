/** The spike verdict: floor confidence, entry score and grade of one mint, from the
    aggregates of its log and the samples of its market-cap buffer. Exact reals. */
module Scoring {
  import opened Clock
  import opened TradeLog
  import opened OrderStatistics

  const RING := 32
  const BUCKETS := 11.0
  const EMPTY_BASELINE := 0.0000001

  datatype Config = Config(spikeRatioMin: real, walletMin: int)

  datatype Grade = Reject | C | B | A

  datatype SpikeResult = SpikeResult(
    mint: string, name: string, symbol: string,
    windowVolumeSOL: real, baselinePer5mSOL: real, marketCapSOL: real, ratio: real,
    uniqueWallets: nat, organicSignalStrong: bool,
    tokenCreatedAt: int, tokenAgeSeconds: int, detectedAt: int,
    floorConfidence: real, entryScore: real, entryGrade: Grade)

  /** What a verdict is computed from. */
  datatype Inputs = Inputs(
    mint: string, name: string, symbol: string, cap: real, createdAt: int, now: int,
    samples: seq<real>, events: Log, window: real, baseline: real, wallets: nat)

  function Rounded(v: real): real {
    RoundHalfAway(v * 1_000_000.0) as real / 1_000_000.0
  }

  // ----- floor confidence -----

  function SupportScore(samples: seq<real>, cap: real): real {
    var support := Quantile(samples, 0.20);
    if support == 0.0 || cap == 0.0 then 0.5 else DistanceAbove(support, cap)
  }

  /** The share of the cap above a support level, kept within [0, 1]. */
  function DistanceAbove(support: real, cap: real): real
    requires cap != 0.0
  {
    var distance := (cap - support) / cap;
    if distance < 0.0 then 0.0 else if 1.0 < distance then 1.0 else distance
  }

  function FlowScore(samples: seq<real>): real {
    var support := Quantile(samples, 0.20);
    if support == 0.0 then 0.3 else BandCount(samples, support) as real / RING as real
  }

  function DepthOf(buyers: nat): real {
    if buyers < 5 then 0.3
    else if 1.0 < buyers as real / 20.0 then 1.0
    else buyers as real / 20.0
  }

  function DepthScore(events: Log): real {
    DepthOf(|NamedBuyers(events)|)
  }

  /** One named wallet holds more than 40% of the named buy volume. */
  predicate Dominated(events: Log) {
    exists w :: w in NamedBuyers(events) && 0.4 * VolumeOf(events, NamedBuyers(events)) < VolumeOf(events, {w})
  }

  function ConcentrationScore(events: Log): real {
    if |NamedBuyers(events)| < 3 || VolumeOf(events, NamedBuyers(events)) <= 0.0 || Dominated(events) then 0.2
    else 0.8
  }

  function FloorConfidence(samples: seq<real>, cap: real, events: Log, window: real): real {
    if window <= 0.0 then 0.0
    else
      var floor := 0.35 * SupportScore(samples, cap) + 0.30 * FlowScore(samples)
                   + 0.20 * DepthScore(events) + 0.15 * ConcentrationScore(events);
      if 1.0 < floor then 1.0 else floor
  }

  // ----- entry score -----

  function RatioImpulse(cfg: Config, ratio: real): real {
    if ratio < cfg.spikeRatioMin then 0.0
    else
      var span := 30.0 - cfg.spikeRatioMin;
      if span <= 0.0 then 1.0
      else
        var norm := (ratio - cfg.spikeRatioMin) / span;
        if norm < 0.0 then 0.0 else if 1.0 < norm then 1.0 else norm
  }

  function UniqueGrowth(wallets: int): real {
    if wallets < 5 then 0.0
    else
      var norm := (wallets - 5) as real / 45.0;
      if 1.0 < norm then 1.0 else norm
  }

  function Persistence(window: real, per5m: real): real {
    if window < per5m * 1.5 then 0.3 else 0.8
  }

  /** The largest positive market cap in the log; 0 when there is none. */
  function MaxCap(events: Log): real {
    if events == [] then 0.0
    else
      var m := MaxCap(Init(events));
      if m < Last(events).marketCapSOL then Last(events).marketCapSOL else m
  }

  function StructureScore(events: Log, cap: real): real {
    if |events| < 10 then 0.5
    else
      var top := MaxCap(events);
      if top == 0.0 || cap == 0.0 then 0.5
      else if 0.8 < cap / top then 0.9
      else if 0.6 < cap / top then 0.6
      else 0.3
  }

  function GradeOf(entry: real, floor: real): Grade {
    if 80.0 <= entry && 0.70 <= floor then A
    else if 70.0 <= entry && 0.65 <= floor then B
    else if 60.0 <= entry then C
    else Reject
  }

  /** The weighted sum before its clamp at 100. */
  function RawEntry(cfg: Config, events: Log, cap: real, ratio: real, wallets: int, window: real,
                    per5m: real, floor: real): real {
    30.0 * RatioImpulse(cfg, ratio) + 20.0 * UniqueGrowth(wallets) + 15.0 * Persistence(window, per5m)
    + 15.0 * floor + 10.0 * DepthScore(events) + 10.0 * StructureScore(events, cap)
  }

  function EntryScore(cfg: Config, events: Log, cap: real, ratio: real, wallets: int, window: real,
                      per5m: real, floor: real, organic: bool): (real, Grade) {
    if !organic then (0.0, Reject)
    else
      var raw := RawEntry(cfg, events, cap, ratio, wallets, window, per5m, floor);
      var entry := if 100.0 < raw then 100.0 else raw;
      (entry, GradeOf(entry, floor))
  }

  // ----- the verdict -----

  function Per5m(baseline: real): real {
    if baseline / BUCKETS <= 0.0 then EMPTY_BASELINE else baseline / BUCKETS
  }

  function Ratio(x: Inputs): real {
    x.window / Per5m(x.baseline)
  }

  predicate Organic(cfg: Config, x: Inputs) {
    cfg.walletMin <= x.wallets
  }

  predicate Detected(cfg: Config, x: Inputs) {
    cfg.spikeRatioMin < Ratio(x) && Organic(cfg, x)
  }

  function Floor(x: Inputs): real {
    FloorConfidence(x.samples, x.cap, x.events, x.window)
  }

  function Entry(cfg: Config, x: Inputs): (real, Grade) {
    EntryScore(cfg, x.events, x.cap, Ratio(x), x.wallets, x.window, Per5m(x.baseline), Floor(x), Organic(cfg, x))
  }

  function Age(createdAt: int, now: int): int {
    if createdAt != 0 && createdAt < now then (now - createdAt) / SECOND else 0
  }

  /** The reported record: numbers rounded to millionths. */
  function Report(x: Inputs, per5m: real, ratio: real, organic: bool, floor: real, entry: real, grade: Grade): SpikeResult {
    SpikeResult(x.mint, x.name, x.symbol, Rounded(x.window), Rounded(per5m), Rounded(x.cap), Rounded(ratio),
                x.wallets, organic, x.createdAt, Age(x.createdAt, x.now), x.now,
                Rounded(floor), Rounded(entry), grade)
  }

  function Verdict(cfg: Config, x: Inputs): (SpikeResult, bool) {
    (Report(x, Per5m(x.baseline), Ratio(x), Organic(cfg, x), Floor(x), Entry(cfg, x).0, Entry(cfg, x).1),
     Detected(cfg, x))
  }

  // ----- bounds over every sub-score -----

  /** What every reachable mint state guarantees about the inputs of a verdict: the
      current cap is one of the samples, and buy flow comes with a wallet. */
  ghost predicate Plausible(x: Inputs) {
    && |x.samples| <= RING
    && (forall s :: s in x.samples ==> 0.0 <= s)
    && 0.0 <= x.cap
    && (if x.cap == 0.0 then forall s :: s in x.samples ==> s <= 0.0 else x.cap in x.samples)
    && 0.0 <= x.baseline
    && 0.0 <= x.window
    && (0 < x.wallets ==> 0.0 < x.window)
  }

  /** There is a support level exactly when there is a current cap. */
  lemma SupportNeedsCap(x: Inputs)
    requires Plausible(x)
    ensures Quantile(x.samples, 0.20) == 0.0 <==> x.cap == 0.0
    ensures 0.0 <= Quantile(x.samples, 0.20)
  {
    QuantileIsOrderStatistic(x.samples, 0.20);
  }

  /** A full band and a far support level exclude each other, because the current cap is
      itself one of the samples in the band. */
  lemma SupportFlowTradeOff(x: Inputs)
    requires Plausible(x) && x.cap != 0.0
    ensures 0.0 <= SupportScore(x.samples, x.cap) < 1.0
    ensures 1.0 / 32.0 <= FlowScore(x.samples) <= 1.0
    ensures FlowScore(x.samples) <= 31.0 / 32.0 || SupportScore(x.samples, x.cap) <= 0.03
  {
    var support := Quantile(x.samples, 0.20);
    SupportNeedsCap(x);
    SupportInBand(x.samples, 0.20);
    var n := BandCount(x.samples, support);
    assert FlowScore(x.samples) == n as real / 32.0;
    DistanceBounds(x.cap, support);
    if n == 32 {
      KeepBounds(x.samples, s => InBand(s, support));
      assert InBand(x.cap, support);
    }
  }

  lemma FactorSign(x: real, d: real)
    requires 0.0 < d
    ensures 0.0 < x * d <==> 0.0 < x
    ensures 0.0 <= x * d <==> 0.0 <= x
  {
    if 0.0 < x { assert 0.0 < x * d; }
    if x < 0.0 { assert x * d < 0.0; }
  }

  lemma DistanceBounds(cap: real, support: real)
    requires 0.0 < cap && 0.0 < support
    ensures (cap - support) / cap < 1.0
    ensures cap <= support + support * 0.03 ==> (cap - support) / cap <= 0.03
  {
    var d := (cap - support) / cap;
    assert d * cap == cap - support;
    assert (1.0 - d) * cap == support;
    FactorSign(1.0 - d, cap);
    assert (0.03 - d) * cap == support - 0.97 * cap;
    FactorSign(0.03 - d, cap);
  }

  lemma DepthRange(buyers: nat)
    ensures 0.25 <= DepthOf(buyers) <= 1.0
  {
    if 5 <= buyers { assert 5.0 <= buyers as real; }
  }

  /** Floor confidence is 0 without buy flow and otherwise lies in
      [0.089375, 0.960625): its clamp at 1 cannot be reached. */
  lemma FloorBounds(x: Inputs)
    requires Plausible(x)
    ensures x.window == 0.0 ==> Floor(x) == 0.0
    ensures 0.0 < x.window ==> 0.089375 <= Floor(x) < 0.960625
  {
    SupportNeedsCap(x);
    DepthRange(|NamedBuyers(x.events)|);
    if x.cap != 0.0 {
      SupportFlowTradeOff(x);
    }
  }

  /** A non-organic mint scores 0; an organic one scores in [11.340625, 95.409375), and
      no lower than 18.840625 when it is detected against a threshold of at least 1.5.
      The clamp at 100 cannot be reached. */
  lemma EntryBounds(cfg: Config, x: Inputs)
    requires Plausible(x) && 0 < cfg.walletMin
    ensures !Organic(cfg, x) ==> Entry(cfg, x) == (0.0, Reject)
    ensures Organic(cfg, x) ==> 11.340625 <= Entry(cfg, x).0 < 95.409375
    ensures Detected(cfg, x) && 1.5 <= cfg.spikeRatioMin ==>
              Persistence(x.window, Per5m(x.baseline)) == 0.8 && 18.840625 <= Entry(cfg, x).0
  {
    if Organic(cfg, x) {
      FloorBounds(x);
      DepthRange(|NamedBuyers(x.events)|);
      if Detected(cfg, x) && 1.5 <= cfg.spikeRatioMin {
        DetectedPersists(x.window, Per5m(x.baseline));
      }
      var l, s := DepthScore(x.events), StructureScore(x.events, x.cap);
      var r, u := RatioImpulse(cfg, Ratio(x)), UniqueGrowth(x.wallets);
      assert 0.0 <= r <= 1.0 && 0.0 <= u <= 1.0 && 0.25 <= l <= 1.0 && 0.3 <= s <= 0.9;
    }
  }

  lemma DetectedPersists(window: real, per5m: real)
    requires 0.0 < per5m && 1.5 < window / per5m
    ensures per5m * 1.5 <= window
  {
    assert window == (window / per5m) * per5m;
    assert 1.5 * per5m < (window / per5m) * per5m;
  }

  // ----- monotonicity -----

  lemma RatioImpulseMonotone(cfg: Config, a: real, b: real)
    requires a <= b
    ensures RatioImpulse(cfg, a) <= RatioImpulse(cfg, b)
  {
    var span := 30.0 - cfg.spikeRatioMin;
    if cfg.spikeRatioMin <= a && 0.0 < span {
      QuotientMonotone(a - cfg.spikeRatioMin, b - cfg.spikeRatioMin, span);
    }
  }

  lemma QuotientMonotone(a: real, b: real, d: real)
    requires a <= b && 0.0 < d
    ensures a / d <= b / d
  {
    var p, q := a / d, b / d;
    assert p * d == a && q * d == b;
    assert (q - p) * d == b - a;
    FactorSign(q - p, d);
  }

  /** With the mint's log and cap fixed, the entry score never falls when the ratio, the
      wallet count, the window volume or the floor rises or the baseline falls. */
  lemma EntryMonotone(cfg: Config, events: Log, cap: real,
                      ratio: real, wallets: nat, window: real, per5m: real, floor: real,
                      ratio': real, wallets': nat, window': real, per5m': real, floor': real)
    requires ratio <= ratio' && wallets <= wallets' && window <= window' && per5m' <= per5m
    requires 0.0 <= floor <= floor'
    ensures var low := EntryScore(cfg, events, cap, ratio, wallets, window, per5m, floor, cfg.walletMin <= wallets);
            var high := EntryScore(cfg, events, cap, ratio', wallets', window', per5m', floor', cfg.walletMin <= wallets');
            low.0 <= high.0 && GradeRank(low.1) <= GradeRank(high.1)
  {
    RatioImpulseMonotone(cfg, ratio, ratio');
    if 5 <= wallets {
      QuotientMonotone((wallets - 5) as real, (wallets' - 5) as real, 45.0);
    }
    DepthRange(|NamedBuyers(events)|);
    assert UniqueGrowth(wallets) <= UniqueGrowth(wallets');
    assert Persistence(window, per5m) <= Persistence(window', per5m');
    var low := EntryScore(cfg, events, cap, ratio, wallets, window, per5m, floor, cfg.walletMin <= wallets);
    var high := EntryScore(cfg, events, cap, ratio', wallets', window', per5m', floor', cfg.walletMin <= wallets');
    assert low.0 <= high.0;
    GradeMonotone(low.0, floor, high.0, floor');
  }

  function GradeRank(g: Grade): nat {
    match g
    case Reject => 0
    case C => 1
    case B => 2
    case A => 3
  }

  lemma GradeMonotone(entry: real, floor: real, entry': real, floor': real)
    requires entry <= entry' && floor <= floor'
    ensures GradeRank(GradeOf(entry, floor)) <= GradeRank(GradeOf(entry', floor'))
  {
  }

  /** What a grade asks of the score and the floor. */
  predicate Meets(g: Grade, entry: real, floor: real) {
    match g
    case A => 80.0 <= entry && 0.70 <= floor
    case B => 70.0 <= entry && 0.65 <= floor
    case C => 60.0 <= entry
    case Reject => true
  }

  /** The grade is the best one whose demands are met. */
  lemma GradeIsBest(entry: real, floor: real)
    ensures Meets(GradeOf(entry, floor), entry, floor)
    ensures forall g :: Meets(g, entry, floor) ==> GradeRank(g) <= GradeRank(GradeOf(entry, floor))
  {
  }

  lemma QuotientLandmarks(x: real, d: real)
    requires 0.0 < d
    ensures (x / d) * d == x
    ensures 0.0 < x / d <==> 0.0 < x
    ensures x / d < 1.0 <==> x < d
    ensures x / d == 1.0 <==> x == d
  {
    var q := x / d;
    assert q * d == x;
    var gap := 1.0 - q;
    assert gap * d == d - x;
    FactorSign(q, d);
    FactorSign(gap, d);
    FactorSign(-gap, d);
  }

  /** Below a threshold of 30 the ratio impulse is 0 exactly up to the threshold, 1 exactly
      from a ratio of 30 on, and linear in between; from 30 on it is a step at the threshold. */
  lemma RatioImpulseLandmarks(cfg: Config, ratio: real)
    ensures cfg.spikeRatioMin < 30.0 ==>
              && (RatioImpulse(cfg, ratio) == 0.0 <==> ratio <= cfg.spikeRatioMin)
              && (RatioImpulse(cfg, ratio) == 1.0 <==> 30.0 <= ratio)
              && (cfg.spikeRatioMin <= ratio <= 30.0 ==>
                    RatioImpulse(cfg, ratio) * (30.0 - cfg.spikeRatioMin) == ratio - cfg.spikeRatioMin)
    ensures 30.0 <= cfg.spikeRatioMin ==>
              RatioImpulse(cfg, ratio) == if ratio < cfg.spikeRatioMin then 0.0 else 1.0
  {
    var span, rise := 30.0 - cfg.spikeRatioMin, ratio - cfg.spikeRatioMin;
    if 0.0 < span { QuotientLandmarks(rise, span); }
  }

  /** Unique growth is 0 exactly up to five wallets, 1 exactly from fifty on, and linear in
      between. */
  lemma UniqueGrowthLandmarks(wallets: nat)
    ensures UniqueGrowth(wallets) == 0.0 <==> wallets <= 5
    ensures UniqueGrowth(wallets) == 1.0 <==> 50 <= wallets
    ensures 5 <= wallets <= 50 ==> UniqueGrowth(wallets) * 45.0 == (wallets - 5) as real
  {
  }

  /** Depth is not monotone: exactly the step onto five buyers loses score. */
  lemma DepthMonotoneIff(a: nat, b: nat)
    requires a <= b
    ensures DepthOf(a) <= DepthOf(b) <==> !(a < 5 && b == 5)
  {
    if 5 <= a {
      QuotientMonotone(a as real, b as real, 20.0);
    } else if 6 <= b {
      assert 6.0 <= b as real;
      QuotientMonotone(6.0, b as real, 20.0);
    }
  }

  // ----- what each sub-score means -----

  /** Support is the share of the cap above the q20 level, and neutral without a cap. */
  lemma SupportExactly(x: Inputs)
    requires Plausible(x)
    ensures var level := Quantile(x.samples, 0.20);
            if x.cap == 0.0 then SupportScore(x.samples, x.cap) == 0.5
            else 0.0 < level && SupportScore(x.samples, x.cap) == DistanceAbove(level, x.cap)
  {
    SupportNeedsCap(x);
  }

  /** That share times the cap is what the cap exceeds the level by, if it does. */
  lemma DistanceExactly(cap: real, level: real)
    requires 0.0 < cap && 0.0 < level
    ensures DistanceAbove(level, cap) * cap == if cap < level then 0.0 else cap - level
  {
    var d := (cap - level) / cap;
    assert d * cap == cap - level;
    assert (1.0 - d) * cap == level;
    FactorSign(d, cap);
    FactorSign(-d, cap);
    FactorSign(1.0 - d, cap);
  }

  /** Flow is the share of the 32 slots from the q20 level up to 3% above it, 0.3 without a cap. */
  lemma FlowExactly(x: Inputs)
    requires Plausible(x)
    ensures var level := Quantile(x.samples, 0.20);
            if x.cap == 0.0 then FlowScore(x.samples) == 0.3
            else 32.0 * FlowScore(x.samples)
                 == |set i | 0 <= i < |x.samples| && level <= x.samples[i] <= 1.03 * level| as real
  {
    SupportNeedsCap(x);
    if x.cap != 0.0 { BandCountIsCardinality(x.samples, Quantile(x.samples, 0.20)); }
  }

  /** Depth is 0.3 below five buyers, then a twentieth for each buyer, and 1 from twenty on. */
  lemma DepthLandmarks(buyers: nat)
    ensures buyers < 5 ==> DepthOf(buyers) == 0.3
    ensures 5 <= buyers <= 20 ==> 20.0 * DepthOf(buyers) == buyers as real
    ensures 20 <= buyers ==> DepthOf(buyers) == 1.0
  {
    if 20 < buyers { QuotientMonotone(21.0, buyers as real, 20.0); }
  }

  /** Concentration is 0.8 exactly when there are three named buyers and none of them holds
      more than 40% of what they bought together, and 0.2 otherwise. */
  lemma ConcentrationIff(events: Log)
    ensures ConcentrationScore(events) == 0.8 <==>
              && 3 <= |NamedBuyers(events)|
              && forall w :: w in NamedBuyers(events) ==>
                   VolumeOf(events, {w}) <= 0.4 * VolumeOf(events, NamedBuyers(events))
    ensures ConcentrationScore(events) == 0.8 || ConcentrationScore(events) == 0.2
  {
    if 3 <= |NamedBuyers(events)| {
      var w :| w in NamedBuyers(events);
      assert w in NamedBuyers(events) * NamedBuyers(events);
      VolumeOfPositive(events, NamedBuyers(events));
    }
  }

  /** Persistence is 0.8 exactly when the window holds at least one and a half buckets of the
      baseline, and 0.3 otherwise. */
  lemma PersistenceIff(window: real, per5m: real)
    ensures Persistence(window, per5m) == if 1.5 * per5m <= window then 0.8 else 0.3
  {
  }

  /** Structure compares the cap with the largest in the log: above 80% of it, above 60%,
      or below; it is neutral for fewer than ten events or without caps. */
  lemma StructureExactly(events: Log, cap: real)
    requires 0.0 <= cap
    ensures |events| < 10 || cap == 0.0 || MaxCap(events) == 0.0 ==> StructureScore(events, cap) == 0.5
    ensures 10 <= |events| && 0.0 < cap && 0.0 < MaxCap(events) ==>
              StructureScore(events, cap) == if 0.8 * MaxCap(events) < cap then 0.9
                                             else if 0.6 * MaxCap(events) < cap then 0.6 else 0.3
  {
    if 0.0 < MaxCap(events) {
      ShareAbove(cap, MaxCap(events), 0.8);
      ShareAbove(cap, MaxCap(events), 0.6);
    }
  }

  lemma ShareAbove(part: real, whole: real, share: real)
    requires 0.0 < whole
    ensures share < part / whole <==> share * whole < part
  {
    var q := part / whole;
    assert q * whole == part;
    var gap := q - share;
    assert gap * whole == part - share * whole;
    FactorSign(gap, whole);
  }

  /** The documented weights, with nothing clamped: floor confidence and entry score are
      exactly these sums. */
  lemma WeightsExactly(cfg: Config, x: Inputs)
    requires Plausible(x) && 0 < cfg.walletMin
    ensures 0.0 < x.window ==>
              Floor(x) == 0.35 * SupportScore(x.samples, x.cap) + 0.30 * FlowScore(x.samples)
                          + 0.20 * DepthOf(|NamedBuyers(x.events)|) + 0.15 * ConcentrationScore(x.events)
    ensures cfg.walletMin <= x.wallets ==>
              Entry(cfg, x).0 == 30.0 * RatioImpulse(cfg, Ratio(x)) + 20.0 * UniqueGrowth(x.wallets)
                                 + 15.0 * Persistence(x.window, Per5m(x.baseline)) + 15.0 * Floor(x)
                                 + 10.0 * DepthOf(|NamedBuyers(x.events)|) + 10.0 * StructureScore(x.events, x.cap)
  {
    FloorBounds(x);
    EntryBounds(cfg, x);
  }

  // ----- rounding -----

  lemma RoundHalfAwayBounds(x: real, n: int)
    ensures -0.5 <= RoundHalfAway(x) as real - x <= 0.5
    ensures n as real <= x ==> n <= RoundHalfAway(x)
  {
    var k := RoundHalfAway(x);
    if 0.0 <= x {
      assert k as real <= x + 0.5 < k as real + 1.0;
    } else {
      assert (-k) as real <= -x + 0.5 < (-k) as real + 1.0;
    }
  }

  lemma Scaling(k: int, x: real)
    ensures k as real - x == 1_000_000.0 * (k as real / 1_000_000.0 - x / 1_000_000.0)
  {
  }

  /** Rounding moves a value by at most half a millionth and never below a threshold that
      is itself a whole number of millionths. */
  lemma RoundedKeepsThreshold(v: real, n: int)
    ensures -0.0000005 <= Rounded(v) - v <= 0.0000005
    ensures n as real / 1_000_000.0 <= v ==> n as real / 1_000_000.0 <= Rounded(v)
  {
    var x := v * 1_000_000.0;
    var k := RoundHalfAway(x);
    RoundHalfAwayBounds(x, n);
    Scaling(k, x);
    Scaling(n, x);
    Scaling(k, n as real);
  }

  /** A reported grade never contradicts the rounded score and floor reported with it. */
  lemma GradeIsHonest(cfg: Config, x: Inputs)
    ensures var r := Verdict(cfg, x).0;
            && (r.entryGrade == A ==> 80.0 <= r.entryScore && 0.70 <= r.floorConfidence)
            && (r.entryGrade == B ==> 70.0 <= r.entryScore && 0.65 <= r.floorConfidence)
            && (r.entryGrade == C ==> 60.0 <= r.entryScore)
  {
    var entry, floor := Entry(cfg, x).0, Floor(x);
    RoundedKeepsThreshold(entry, 80_000_000);
    RoundedKeepsThreshold(entry, 70_000_000);
    RoundedKeepsThreshold(entry, 60_000_000);
    RoundedKeepsThreshold(floor, 700_000);
    RoundedKeepsThreshold(floor, 650_000);
  }

  const HALF_MILLIONTH := 0.0000005

  /** A rounded value meets a positive threshold of whole millionths exactly when the value
      itself is at most half a millionth short of it. */
  lemma RoundedMeetsIff(v: real, n: nat)
    requires 0 < n
    ensures n as real / 1_000_000.0 <= Rounded(v) <==> n as real / 1_000_000.0 <= v + HALF_MILLIONTH
  {
    var x := v * 1_000_000.0;
    var k := RoundHalfAway(x);
    if 0.0 <= x {
      assert k as real <= x + 0.5 < k as real + 1.0;
    } else {
      assert (-k) as real <= -x + 0.5 < (-k) as real + 1.0;
    }
    assert n <= k <==> n as real <= x + 0.5;
    Scaling(n, x);
    Scaling(n, k as real);
  }

  lemma RoundedGrade(entry: real, floor: real)
    ensures GradeOf(Rounded(entry), Rounded(floor)) == GradeOf(entry + HALF_MILLIONTH, floor + HALF_MILLIONTH)
  {
    RoundedMeetsIff(entry, 80_000_000);
    RoundedMeetsIff(entry, 70_000_000);
    RoundedMeetsIff(entry, 60_000_000);
    RoundedMeetsIff(floor, 700_000);
    RoundedMeetsIff(floor, 650_000);
  }

  /** When the reported grade is the grade of the reported numbers: exactly when lifting the
      score and the floor by half a millionth, which is what rounding may do at most, does
      not lift the grade. A mint that is not organic has score 0 and always agrees. */
  lemma ReportedGradeAgreesIff(cfg: Config, x: Inputs)
    ensures var r := Verdict(cfg, x).0;
            r.entryGrade == GradeOf(r.entryScore, r.floorConfidence) <==>
            GradeOf(Entry(cfg, x).0, Floor(x)) == GradeOf(Entry(cfg, x).0 + HALF_MILLIONTH, Floor(x) + HALF_MILLIONTH)
    ensures !Organic(cfg, x) ==>
              var r := Verdict(cfg, x).0; r.entryGrade == GradeOf(r.entryScore, r.floorConfidence)
  {
    RoundedGrade(Entry(cfg, x).0, Floor(x));
    assert Entry(cfg, x).1 == GradeOf(Entry(cfg, x).0, Floor(x));
  }

  // ----- what a verdict reports -----

  /** Two numbers that differ by rounding to millionths at most. */
  predicate Near(a: real, b: real) {
    -HALF_MILLIONTH <= a - b <= HALF_MILLIONTH
  }

  lemma RoundedIsNear(v: real)
    ensures Near(Rounded(v), v)
  {
    RoundedKeepsThreshold(v, 0);
  }

  lemma ReportIsNear(x: Inputs, per5m: real, ratio: real, organic: bool, floor: real, entry: real, grade: Grade)
    ensures var r := Report(x, per5m, ratio, organic, floor, entry, grade);
            && r.mint == x.mint && r.name == x.name && r.symbol == x.symbol
            && Near(r.windowVolumeSOL, x.window) && Near(r.baselinePer5mSOL, per5m)
            && Near(r.marketCapSOL, x.cap) && Near(r.ratio, ratio)
            && r.uniqueWallets == x.wallets && r.organicSignalStrong == organic
            && r.tokenCreatedAt == x.createdAt && r.detectedAt == x.now
            && Near(r.floorConfidence, floor) && Near(r.entryScore, entry) && r.entryGrade == grade
  {
    RoundedIsNear(x.window);
    RoundedIsNear(x.cap);
    RoundedIsNear(per5m);
    RoundedIsNear(ratio);
    RoundedIsNear(floor);
    RoundedIsNear(entry);
  }

  /** The average of the eleven baseline buckets; without a baseline a ten-millionth stands in. */
  lemma AverageBucket(x: Inputs)
    ensures 0.0 < x.baseline ==> 11.0 * Per5m(x.baseline) == x.baseline
    ensures x.baseline <= 0.0 ==> Per5m(x.baseline) == 0.0000001
    ensures 0.0 < Per5m(x.baseline) && Ratio(x) * Per5m(x.baseline) == x.window
  {
  }

  /** Each field of a verdict, from the inputs alone. */
  lemma VerdictReports(cfg: Config, x: Inputs)
    ensures var r := Verdict(cfg, x).0;
            && r.mint == x.mint && r.name == x.name && r.symbol == x.symbol
            && Near(r.windowVolumeSOL, x.window) && Near(r.baselinePer5mSOL, Per5m(x.baseline))
            && Near(r.marketCapSOL, x.cap) && Near(r.ratio, Ratio(x))
            && r.uniqueWallets == x.wallets && (r.organicSignalStrong <==> cfg.walletMin <= x.wallets)
            && r.tokenCreatedAt == x.createdAt && r.detectedAt == x.now
            && Near(r.floorConfidence, Floor(x)) && Near(r.entryScore, Entry(cfg, x).0)
            && r.entryGrade == Entry(cfg, x).1
  {
    ReportIsNear(x, Per5m(x.baseline), Ratio(x), Organic(cfg, x), Floor(x), Entry(cfg, x).0, Entry(cfg, x).1);
  }

  /** The window beats the threshold times the average of the eleven baseline buckets, or
      times a ten-millionth without a baseline. */
  predicate Beats(threshold: real, window: real, baseline: real) {
    if 0.0 < baseline then threshold * baseline < 11.0 * window else threshold < 10_000_000.0 * window
  }

  lemma RatioBeats(threshold: real, window: real, baseline: real)
    ensures threshold < window / Per5m(baseline) <==> Beats(threshold, window, baseline)
  {
    if 0.0 < baseline {
      BeatsAverage(threshold, window, baseline);
      assert Per5m(baseline) == baseline / 11.0;
    } else {
      assert Per5m(baseline) == 0.0000001;
    }
  }

  /** A spike is detected exactly when the window beats the baseline and there are enough
      wallets. */
  lemma DetectedIff(cfg: Config, x: Inputs)
    ensures Verdict(cfg, x).1 <==> Beats(cfg.spikeRatioMin, x.window, x.baseline) && cfg.walletMin <= x.wallets
  {
    RatioBeats(cfg.spikeRatioMin, x.window, x.baseline);
    assert Verdict(cfg, x).1 == Detected(cfg, x);
  }

  lemma BeatsAverage(min: real, window: real, baseline: real)
    requires 0.0 < baseline
    ensures min < window / (baseline / 11.0) <==> min * baseline < 11.0 * window
  {
    var p := baseline / 11.0;
    ShareAbove(window, p, min);
    assert min * baseline == 11.0 * (min * p);
  }

  /** The reported age is the whole seconds since the creation, 0 when that is unknown or
      not past. */
  lemma AgeInSeconds(cfg: Config, x: Inputs)
    ensures var age := Verdict(cfg, x).0.tokenAgeSeconds;
            if x.createdAt == 0 || x.now <= x.createdAt then age == 0
            else age * 1_000_000_000 <= x.now - x.createdAt < (age + 1) * 1_000_000_000
  {
  }
}
