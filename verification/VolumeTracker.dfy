/** The tracker of rolling volumes: per-mint state updated in place, and the loops that
    turn it into a verdict. Each call is one atomic step, as its mutex makes it. */
module VolumeTracker {
  import opened Clock
  import opened TradeLog
  import opened OrderStatistics
  import opened Scoring
  import opened RollingHistory

  // ----- loops that only read -----

  /** sort.Search for the first event not older than the cutoff. */
  method FirstFresh(log: Log, cutoff: int) returns (i: nat)
    ensures i == SearchFresh(log, cutoff, 0, |log|)
  {
    i := 0;
    var j: nat := |log|;
    while i < j
      invariant i <= j <= |log|
      invariant SearchFresh(log, cutoff, i, j) == SearchFresh(log, cutoff, 0, |log|)
    {
      var h := (i + j) / 2;
      if cutoff <= log[h].at {
        j := h;
      } else {
        i := h + 1;
      }
    }
  }

  method PositivesOf(values: seq<real>) returns (filtered: seq<real>)
    ensures filtered == Keep(values, Positive)
  {
    filtered := [];
    for i := 0 to |values|
      invariant filtered == Keep(values[..i], Positive)
    {
      assert values[..i + 1][..i] == values[..i];
      if 0.0 < values[i] { filtered := filtered + [values[i]]; }
    }
    assert values[..|values|] == values;
  }

  /** The index computation with its two clamps, neither of which ever applies. */
  method ClampedIndex(q: real, n: nat) returns (idx: nat)
    requires 0.0 <= q <= 1.0 && 0 < n
    ensures idx < n && idx == QuantileIndex(q, n)
  {
    QuantileIndexInRange(q, n);
    var i := RoundHalfAway(q * (n - 1) as real);
    if i < 0 { i := 0; }
    if n <= i { i := n - 1; }
    idx := i;
  }

  method QuantileNonZero(values: seq<real>, q: real) returns (r: real)
    ensures r == Quantile(values, q)
    ensures 0.0 <= q <= 1.0 ==>
              var kept := Keep(values, Positive);
              if kept == [] then r == 0.0 else r in kept && Ranked(q, |kept|, NotAbove(kept, r), NotBelow(kept, r))
  {
    if 0.0 <= q <= 1.0 { QuantileRank(values, q); }
    var clamped := q;
    if clamped < 0.0 { clamped := 0.0; }
    if 1.0 < clamped { clamped := 1.0; }
    var filtered := PositivesOf(values);
    if |filtered| == 0 { return 0.0; }
    var sorted := Sorted(filtered);
    var idx := ClampedIndex(clamped, |sorted|);
    r := sorted[idx];
  }

  method ScoreSupport(samples: seq<real>, cap: real) returns (r: real)
    ensures r == SupportScore(samples, cap)
  {
    var support := QuantileNonZero(samples, 0.20);
    r := AboveSupport(support, cap);
  }

  method AboveSupport(support: real, cap: real) returns (r: real)
    ensures r == if support == 0.0 || cap == 0.0 then 0.5 else DistanceAbove(support, cap)
  {
    if support == 0.0 || cap == 0.0 { return 0.5; }
    var distance := (cap - support) / cap;
    if distance < 0.0 { return 0.0; }
    if 1.0 < distance { return 1.0; }
    return distance;
  }

  method ScoreFlow(samples: seq<real>) returns (r: real)
    requires |samples| == RING
    ensures r == FlowScore(samples)
  {
    var support := QuantileNonZero(samples, 0.20);
    if support == 0.0 { return 0.3; }
    var count := CountInBand(samples, support);
    return count as real / |samples| as real;
  }

  method CountInBand(samples: seq<real>, support: real) returns (count: nat)
    ensures count == BandCount(samples, support)
  {
    count := 0;
    var tolerance := support * 0.03;
    ghost var near := x => InBand(x, support);
    for i := 0 to |samples|
      invariant count == |Keep(samples[..i], near)|
    {
      assert samples[..i + 1][..i] == samples[..i];
      if 0.0 < samples[i] && support <= samples[i] && samples[i] <= support + tolerance { count := count + 1; }
    }
    assert samples[..|samples|] == samples;
    forall x ensures near(x) == InBand(x, support) {}
    SameKeep(samples, near, support);
  }

  lemma {:induction false} SameKeep(values: seq<real>, p: real -> bool, support: real)
    requires forall x :: p(x) == InBand(x, support)
    ensures |Keep(values, p)| == BandCount(values, support)
  {
    if values != [] {
      SameKeep(values[..|values| - 1], p, support);
    }
  }

  method UniqueBuyers(events: Log) returns (n: nat)
    ensures n == |NamedBuyers(events)|
  {
    var wallets: set<string> := {};
    for i := 0 to |events|
      invariant wallets == NamedBuyers(events[..i])
    {
      var ev := events[i];
      assert events[..i + 1] == events[..i] + [ev];
      if ev.volumeSOL <= 0.0 || ev.wallet == "" { continue; }
      wallets := wallets + {ev.wallet};
    }
    assert events[..|events|] == events;
    n := |wallets|;
  }

  method ScoreDepth(events: Log) returns (r: real)
    ensures r == DepthScore(events)
  {
    var buyers := UniqueBuyers(events);
    if buyers < 5 { return 0.3; }
    var depth := buyers as real / 20.0;
    if 1.0 < depth { return 1.0; }
    return depth;
  }

  /** The per-wallet sums of the concentration score. */
  ghost predicate SumsPerWallet(sums: map<string, real>, log: Log) {
    sums.Keys == NamedBuyers(log) && forall w :: w in sums ==> sums[w] == VolumeOf(log, {w})
  }

  lemma VolumeOfStep(log: Log, e: TradeEvent, who: set<string>)
    ensures VolumeOf(log + [e], who)
         == VolumeOf(log, who) + if 0.0 < e.volumeSOL && e.wallet != "" && e.wallet in who then e.volumeSOL else 0.0
  {
    assert Init(log + [e]) == log;
  }

  lemma {:induction false} StrangersSumToZero(log: Log, w: string)
    requires w !in NamedBuyers(log)
    ensures VolumeOf(log, {w}) == 0.0
  {
    if log != [] {
      assert log == Init(log) + [Last(log)];
      StrangersSumToZero(Init(log), w);
    }
  }

  method SumPerWallet(events: Log) returns (sums: map<string, real>)
    ensures SumsPerWallet(sums, events)
  {
    sums := map[];
    for i := 0 to |events|
      invariant SumsPerWallet(sums, events[..i])
    {
      var ev := events[i];
      var seen := events[..i];
      assert events[..i + 1] == seen + [ev];
      forall w { VolumeOfStep(seen, ev, {w}); }
      if 0.0 < ev.volumeSOL && ev.wallet != "" {
        if ev.wallet !in sums { StrangersSumToZero(seen, ev.wallet); }
        sums := sums[ev.wallet := (if ev.wallet in sums then sums[ev.wallet] else 0.0) + ev.volumeSOL];
      }
    }
    assert events[..|events|] == events;
  }

  /** Adds the sums up in whatever order the map yields them. */
  method TotalOf(sums: map<string, real>, ghost events: Log) returns (total: real)
    requires SumsPerWallet(sums, events)
    ensures total == VolumeOf(events, NamedBuyers(events))
  {
    total := 0.0;
    var rest := sums.Keys;
    NobodySumsToZero(events);
    assert sums.Keys - rest == {};
    while rest != {}
      invariant rest <= sums.Keys
      invariant total == VolumeOf(events, sums.Keys - rest)
      decreases rest
    {
      var w :| w in rest;
      VolumeOfSplits(events, sums.Keys - rest, {w});
      assert sums.Keys - (rest - {w}) == (sums.Keys - rest) + {w};
      total := total + sums[w];
      rest := rest - {w};
    }
    assert sums.Keys - rest == sums.Keys;
  }

  lemma {:induction false} NobodySumsToZero(log: Log)
    ensures VolumeOf(log, {}) == 0.0
  {
    if log != [] { NobodySumsToZero(Init(log)); }
  }

  method LargestOf(sums: map<string, real>) returns (top: real)
    requires forall w :: w in sums ==> 0.0 <= sums[w]
    ensures forall w :: w in sums ==> sums[w] <= top
    ensures if sums == map[] then top == 0.0 else top in sums.Values
  {
    top := 0.0;
    var rest := sums.Keys;
    while rest != {}
      invariant rest <= sums.Keys
      invariant 0.0 <= top
      invariant forall w :: w in sums.Keys - rest ==> sums[w] <= top
      invariant top == 0.0 || exists w :: w in sums && sums[w] == top
      decreases rest
    {
      var w :| w in rest;
      if top < sums[w] { top := sums[w]; }
      rest := rest - {w};
    }
    if sums != map[] && top == 0.0 {
      var w :| w in sums.Keys;
      assert sums[w] == top;
    }
  }

  lemma FractionAbove(top: real, total: real)
    requires 0.0 < total
    ensures 0.4 < top / total <==> 0.4 * total < top
  {
    var fraction := top / total;
    assert (fraction - 0.4) * total == top - 0.4 * total;
    FactorSign(fraction - 0.4, total);
  }

  lemma TopDominates(sums: map<string, real>, events: Log, top: real)
    requires SumsPerWallet(sums, events)
    requires top in sums.Values && forall w :: w in sums ==> sums[w] <= top
    ensures 0.4 * VolumeOf(events, NamedBuyers(events)) < top <==> Dominated(events)
  {
    var w :| w in sums && sums[w] == top;
    assert w in NamedBuyers(events) && VolumeOf(events, {w}) == top;
    forall v | v in NamedBuyers(events) ensures VolumeOf(events, {v}) <= top {
      assert sums[v] <= top;
    }
  }

  method ScoreConcentration(events: Log) returns (r: real)
    ensures r == ConcentrationScore(events)
  {
    var sums := SumPerWallet(events);
    if |sums| < 3 { return 0.2; }
    var total := TotalOf(sums, events);
    if total <= 0.0 { return 0.2; }
    forall w | w in sums ensures 0.0 <= sums[w] { VolumeOfPositive(events, {w}); }
    var top := LargestOf(sums);
    var fraction := top / total;
    FractionAbove(top, total);
    TopDominates(sums, events, top);
    if 0.4 < fraction { return 0.2; }
    return 0.8;
  }

  method ScoreStructure(events: Log, cap: real) returns (r: real)
    ensures r == StructureScore(events, cap)
  {
    if |events| < 10 { return 0.5; }
    var top := 0.0;
    for i := 0 to |events|
      invariant top == MaxCap(events[..i])
    {
      assert Init(events[..i + 1]) == events[..i];
      if top < events[i].marketCapSOL { top := events[i].marketCapSOL; }
    }
    assert events[..|events|] == events;
    if top == 0.0 || cap == 0.0 { return 0.5; }
    var ratio := cap / top;
    if 0.8 < ratio { return 0.9; }
    if 0.6 < ratio { return 0.6; }
    return 0.3;
  }

  // ----- the state of one mint -----

  class MintState {
    var events: Log
    var name: string
    var symbol: string
    var marketCapSOL: real
    var tokenCreatedAt: int
    const mcapSamples: array<real>
    var mcapIdx: nat
    var lastTouchAt: int
    /** The state as a value, and the calls that led to it. */
    ghost var view: MintView
    ghost var run: Run

    ghost predicate Shaped()
      reads this, mcapSamples
    {
      && mcapSamples.Length == RING
      && view == MintRecord(events, name, symbol, marketCapSOL, tokenCreatedAt, view.ring, mcapIdx, lastTouchAt)
      && forall i :: 0 <= i < RING ==> mcapSamples[i] == view.ring[i]
    }

    ghost predicate Valid()
      reads this, mcapSamples
    {
      Shaped() && view == StateAfter(run)
    }

    constructor ()
      ensures Valid() && fresh(mcapSamples)
      ensures run == Start
    {
      events, name, symbol, marketCapSOL, tokenCreatedAt, mcapIdx, lastTouchAt := [], "", "", 0.0, 0, 0, 0;
      mcapSamples := new real[RING](_ => 0.0);
      view, run := EMPTY_MINT, Start;
    }

    method PruneEvents(now: int)
      requires Shaped()
      modifies this`events, this`view
      ensures Shaped() && view == PrunedView(old(view), now)
    {
      var idx := FirstFresh(events, now - HORIZON);
      if 0 < idx && idx < |events| {
        events := events[idx..];
      } else if |events| <= idx {
        events := [];
      }
      view := PrunedView(view, now);
    }

    /** The state change of Evaluate. */
    method Prune(now: int)
      requires Valid()
      modifies this`events, this`view, this`run
      ensures Valid() && run == Then(old(run), Evaluate(now))
    {
      PruneEvents(now);
      run := Then(run, Evaluate(now));
    }

    method Describe(e: TradeEvent)
      requires Shaped()
      modifies this`name, this`symbol, this`marketCapSOL, this`tokenCreatedAt, this`view
      ensures Shaped() && view == Described(old(view), e)
    {
      if e.name != "" { name := e.name; }
      if e.symbol != "" { symbol := e.symbol; }
      if 0.0 < e.marketCapSOL { marketCapSOL := e.marketCapSOL; }
      if tokenCreatedAt == 0 || e.txType == "create" { tokenCreatedAt := e.at; }
      view := Described(view, e);
    }

    method Sample(e: TradeEvent)
      requires Shaped()
      modifies this`mcapIdx, this`lastTouchAt, this`view, mcapSamples
      ensures Shaped() && view == Sampled(old(view), e)
    {
      if 0.0 < e.marketCapSOL {
        mcapSamples[mcapIdx] := e.marketCapSOL;
        mcapIdx := (mcapIdx + 1) % mcapSamples.Length;
        lastTouchAt := e.at;
      }
      view := Sampled(view, e);
    }

    /** The state change of AddEvent. */
    method Absorb(e: TradeEvent)
      requires Valid()
      modifies this, mcapSamples
      ensures Valid() && run == Then(old(run), Add(e))
    {
      Describe(e);
      events := events + [e];
      view := view.(events := events);
      PruneEvents(e.at);
      Sample(e);
      run := Then(run, Add(e));
    }
  }

  // ----- the tracker -----

  const NO_RESULT := SpikeResult("", "", "", 0.0, 0.0, 0.0, 0.0, 0, false, 0, 0, 0, 0.0, 0.0, Reject)

  /** Whether the kept log of a mint at `now` is the last hour of its whole history. */
  ghost predicate KeepsLastHour(run: Run, now: int) {
    NoneLater(run, now) && Partitioned(LogOf(run), now - HORIZON)
  }

  lemma KeptVerdict(cfg: Config, run: Run, mint: string, now: int)
    ensures KeepsLastHour(run, now) ==>
              Verdict(cfg, StateInputs(StateAfter(Then(run, Call.Evaluate(now))), mint, now))
              == Verdict(cfg, HistoryInputs(LogOf(run), mint, now))
  {
    if KeepsLastHour(run, now) { RollingStateAgreesWithHistory(cfg, run, mint, now); }
  }

  class Tracker {
    var states: map<string, MintState>
    const spikeRatioMin: real
    const walletMin: int
    /** The objects the tracker owns: a state and a ring for every mint. */
    ghost var Repr: set<object>

    /** Every mint has its own state object and its own ring. */
    ghost predicate OwnedApart()
      reads this, Repr
    {
      && (forall m :: m in states ==> states[m] in Repr && states[m].mcapSamples in Repr && states[m].Valid())
      && (forall m, n :: m in states && n in states && m != n ==>
            states[m] != states[n] && states[m].mcapSamples != states[n].mcapSamples)
    }

    ghost predicate Valid()
      reads this, Repr
    {
      && OwnedApart()
      && (forall m :: m in states ==> RunOf(m) != Start)
      && 0.0 < spikeRatioMin && 0 < walletMin
    }

    /** The calls that led to a mint's state; none when it has no state. */
    ghost function RunOf(mint: string): Run
      reads this, states.Values
    {
      if mint in states then states[mint].run else Start
    }

    ghost function Settings(): Config {
      Config(spikeRatioMin, walletMin)
    }

    constructor (ratioMin: real, minWallets: int)
      ensures Valid() && states == map[] && Repr == {}
      ensures spikeRatioMin == if ratioMin <= 0.0 then 2.0 else ratioMin
      ensures walletMin == if minWallets <= 0 then 5 else minWallets
    {
      states := map[];
      spikeRatioMin := if ratioMin <= 0.0 then 2.0 else ratioMin;
      walletMin := if minWallets <= 0 then 5 else minWallets;
      Repr := {};
    }

    /** A new state, with an empty run, for a mint that has none. */
    method AddState(mint: string) returns (state: MintState)
      requires OwnedApart() && mint !in states
      modifies this
      ensures OwnedApart() && old(Repr) <= Repr && fresh(Repr - old(Repr))
      ensures states == old(states)[mint := state] && state.run == Start
    {
      state := new MintState();
      states := states[mint := state];
      Repr := Repr + {state, state.mcapSamples};
      forall m | m in states && m != mint
        ensures states[m].Valid() && states[m] != state && states[m].mcapSamples != state.mcapSamples
      {
        assert old(states[m].Valid()) && states[m] in old(Repr) && states[m].mcapSamples in old(Repr);
      }
    }

    method EnsureMint(mint: string) returns (state: MintState)
      requires OwnedApart()
      modifies this
      ensures OwnedApart() && old(Repr) <= Repr && fresh(Repr - old(Repr))
      ensures mint in states && states[mint] == state
      ensures forall m :: m in states <==> m == mint || m in old(states)
      ensures forall m :: RunOf(m) == old(RunOf(m))
    {
      if mint in states {
        state := states[mint];
      } else {
        state := AddState(mint);
      }
    }

    method AbsorbAt(mint: string, e: TradeEvent)
      requires OwnedApart() && mint in states
      modifies states[mint], states[mint].mcapSamples
      ensures OwnedApart()
      ensures forall m :: RunOf(m) == if m == mint then Then(old(RunOf(m)), Add(e)) else old(RunOf(m))
    {
      var state := states[mint];
      state.Absorb(e);
      forall m | m in states && m != mint ensures states[m].Valid() && states[m].run == old(states[m].run) {
        assert states[m] != state && states[m].mcapSamples != state.mcapSamples;
        assert old(states[m].Valid());
      }
    }

    method PruneAt(mint: string, now: int)
      requires OwnedApart() && mint in states
      modifies states[mint]
      ensures OwnedApart()
      ensures forall m :: RunOf(m) == if m == mint then Then(old(RunOf(m)), Call.Evaluate(now)) else old(RunOf(m))
    {
      var state := states[mint];
      state.Prune(now);
      forall m | m in states && m != mint ensures states[m].Valid() && states[m].run == old(states[m].run) {
        assert states[m] != state && old(states[m].Valid());
      }
    }

    /** Extends the run of the event's mint and leaves every other mint alone. */
    method AddEvent(e: TradeEvent)
      requires Valid()
      modifies this, Repr
      ensures Valid() && old(Repr) <= Repr && fresh(Repr - old(Repr))
      ensures forall m :: RunOf(m) == if m == e.mint then Then(old(RunOf(m)), Add(e)) else old(RunOf(m))
    {
      var _ := EnsureMint(e.mint);
      AbsorbAt(e.mint, e);
    }

    /** The verdict on a mint. Without state there is none; with state it is that of the
        pruned, ring-buffered state, and whenever no call about the mint was later and no
        trade older than the hour arrived after one within it, it is the verdict over the
        mint's whole history. */
    method Evaluate(mint: string, now: int) returns (result: SpikeResult, detected: bool)
      requires Valid()
      modifies Repr
      ensures Valid()
      ensures forall m :: RunOf(m) ==
                if m == mint && m in states then Then(old(RunOf(m)), Call.Evaluate(now)) else old(RunOf(m))
      ensures mint !in states ==> result == NO_RESULT && !detected
      ensures mint in states ==> (result, detected) == Verdict(Settings(), StateInputs(StateAfter(RunOf(mint)), mint, now))
      ensures mint in states && KeepsLastHour(old(RunOf(mint)), now) ==>
                (result, detected) == Verdict(Settings(), HistoryInputs(LogOf(old(RunOf(mint))), mint, now))
    {
      if mint !in states {
        return NO_RESULT, false;
      }
      KeptVerdict(Settings(), states[mint].run, mint, now);
      PruneAt(mint, now);
      result, detected := Judge(states[mint], mint, now);
    }

    /** The part of Evaluate that only reads the pruned state. */
    method Judge(state: MintState, mint: string, now: int) returns (result: SpikeResult, detected: bool)
      requires state.Valid() && 0 < walletMin
      ensures (result, detected) == Verdict(Settings(), StateInputs(state.view, mint, now))
    {
      ghost var x := StateInputs(state.view, mint, now);
      var window, baseline, unique := Accumulate(state.events, now);
      var per5m := baseline / 11.0;
      if per5m <= 0.0 { per5m := 0.0000001; }
      assert per5m == Per5m(x.baseline);
      var ratio := window / per5m;
      var organic := walletMin <= unique;
      detected := spikeRatioMin < ratio && organic;
      assert ratio == Ratio(x) && detected == Detected(Settings(), x);
      var floor := ComputeFloorConfidence(state, window);
      assert floor == Floor(x);
      var entry, grade := ComputeEntryScore(state, ratio, unique, window, per5m, floor, organic);
      assert (entry, grade) == Entry(Settings(), x);
      var age := 0;
      if state.tokenCreatedAt != 0 && state.tokenCreatedAt < now {
        age := (now - state.tokenCreatedAt) / SECOND;
      }
      result := SpikeResult(mint, state.name, state.symbol, Rounded(window), Rounded(per5m),
                            Rounded(state.marketCapSOL), Rounded(ratio), unique, organic,
                            state.tokenCreatedAt, age, now, Rounded(floor), Rounded(entry), grade);
      assert state.view.cap == state.marketCapSOL && age == Age(x.createdAt, now);
      assert result == Report(x, per5m, ratio, organic, floor, entry, grade);
    }

    /** One pass over the log for the three aggregates. */
    static method Accumulate(events: Log, now: int) returns (window: real, baseline: real, unique: nat)
      ensures window == VolumeSince(events, now - WINDOW)
      ensures baseline == VolumeBetween(events, now - HORIZON, now - WINDOW)
      ensures unique == |WalletsSince(events, now - WINDOW)|
    {
      window, baseline := 0.0, 0.0;
      var wallets: set<string> := {};
      for i := 0 to |events|
        invariant window == VolumeSince(events[..i], now - WINDOW)
        invariant baseline == VolumeBetween(events[..i], now - HORIZON, now - WINDOW)
        invariant wallets == WalletsSince(events[..i], now - WINDOW)
      {
        var ev := events[i];
        assert events[..i + 1] == events[..i] + [ev];
        AggregatesOfOneMore(events[..i], ev, now - WINDOW, now);
        AggregatesOfOneMore(events[..i], ev, now - HORIZON, now - WINDOW);
        if ev.volumeSOL <= 0.0 { continue; }
        if now - WINDOW <= ev.at {
          window := window + ev.volumeSOL;
          wallets := wallets + {ev.wallet};
        }
        if now - HORIZON <= ev.at && ev.at < now - WINDOW {
          baseline := baseline + ev.volumeSOL;
        }
      }
      assert events[..|events|] == events;
      unique := |wallets|;
    }

    method ComputeFloorConfidence(state: MintState, window: real) returns (floor: real)
      requires state.Valid()
      ensures floor == FloorConfidence(state.view.ring, state.marketCapSOL, state.events, window)
    {
      assert state.mcapSamples[..] == state.view.ring;
      if window <= 0.0 { return 0.0; }
      var support := ScoreSupport(state.mcapSamples[..], state.marketCapSOL);
      var flow := ScoreFlow(state.mcapSamples[..]);
      var depth := ScoreDepth(state.events);
      var spread := ScoreConcentration(state.events);
      floor := 0.35 * support + 0.30 * flow + 0.20 * depth + 0.15 * spread;
      if 1.0 < floor { floor := 1.0; }
    }

    method ComputeEntryScore(state: MintState, ratio: real, unique: nat, window: real, per5m: real,
                             floor: real, organic: bool)
      returns (entry: real, grade: Grade)
      ensures (entry, grade) == EntryScore(Settings(), state.events, state.marketCapSOL, ratio, unique,
                                           window, per5m, floor, organic)
    {
      if !organic { return 0.0, Reject; }
      var r := RatioImpulse(Config(spikeRatioMin, walletMin), ratio);
      var u := UniqueGrowth(unique);
      var p := Persistence(window, per5m);
      var l := ScoreDepth(state.events);
      var s := ScoreStructure(state.events, state.marketCapSOL);
      entry := 30.0 * r + 20.0 * u + 15.0 * p + 15.0 * floor + 10.0 * l + 10.0 * s;
      if 100.0 < entry { entry := 100.0; }
      grade := GradeOf(entry, floor);
    }
  }
}
