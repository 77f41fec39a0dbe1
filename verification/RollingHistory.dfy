/** The state of one mint as a value, what each tracker call does to it, and the main
    theorem of the volume engine: the pruned log and the 32-slot ring give the verdict
    that the never-pruned history gives. */
module RollingHistory {
  import opened TradeLog
  import opened OrderStatistics
  import opened Scoring

  datatype MintRecord = MintRecord(
    events: Log, name: string, symbol: string, cap: real, createdAt: int,
    ring: seq<real>, idx: nat, touchedAt: int)

  function Zeros(n: nat): (z: seq<real>)
    ensures |z| == n && forall i :: 0 <= i < n ==> z[i] == 0.0
  {
    seq(n, _ => 0.0)
  }

  const EMPTY_MINT := MintRecord([], "", "", 0.0, 0, Zeros(RING), 0, 0)

  /** A record whose ring has its 32 slots and a write position among them. */
  type MintView = v: MintRecord | |v.ring| == RING && v.idx < RING
    witness EMPTY_MINT

  /** The labels, the current cap and the creation time after an event. */
  function Described(v: MintView, e: TradeEvent): MintView {
    v.(name := if e.name != "" then e.name else v.name,
       symbol := if e.symbol != "" then e.symbol else v.symbol,
       cap := if 0.0 < e.marketCapSOL then e.marketCapSOL else v.cap,
       createdAt := if v.createdAt == 0 || e.txType == "create" then e.at else v.createdAt)
  }

  /** The ring after an event. */
  function Sampled(v: MintView, e: TradeEvent): MintView
  {
    if 0.0 < e.marketCapSOL then
      v.(ring := v.ring[v.idx := e.marketCapSOL], idx := (v.idx + 1) % RING, touchedAt := e.at)
    else v
  }

  /** What AddEvent does to the state of the event's mint. */
  function Added(v: MintView, e: TradeEvent): MintView {
    var w := Described(v, e);
    Sampled(w.(events := Pruned(w.events + [e], e.at)), e)
  }

  /** What Evaluate does to the state of its mint. */
  function PrunedView(v: MintView, now: int): MintView {
    v.(events := Pruned(v.events, now))
  }

  /** The verdict computed on a mint's state, after its pruning. */
  function StateInputs(v: MintView, mint: string, now: int): Inputs {
    Inputs(mint, v.name, v.symbol, v.cap, v.createdAt, now, v.ring, v.events,
           VolumeSince(v.events, now - WINDOW),
           VolumeBetween(v.events, now - HORIZON, now - WINDOW),
           |WalletsSince(v.events, now - WINDOW)|)
  }

  // ----- the calls about one mint -----

  datatype Call = Add(event: TradeEvent) | Evaluate(now: int)

  /** The calls about a mint since its state was made, the latest outermost. */
  datatype Run = Start | Then(before: Run, call: Call)

  function TimeOf(c: Call): int {
    match c
    case Add(e) => e.at
    case Evaluate(now) => now
  }

  function Apply(v: MintView, c: Call): MintView {
    match c
    case Add(e) => Added(v, e)
    case Evaluate(now) => PrunedView(v, now)
  }

  /** The mint's state after a run. */
  function StateAfter(run: Run): MintView {
    match run
    case Start => EMPTY_MINT
    case Then(before, c) => Apply(StateAfter(before), c)
  }

  /** Every event of a run in arrival order, never pruned. */
  function LogOf(run: Run): Log {
    match run
    case Start => []
    case Then(before, Add(e)) => LogOf(before) + [e]
    case Then(before, Evaluate(_)) => LogOf(before)
  }

  /** The calls carry non-decreasing times, none later than `now`. */
  predicate OrderedUpTo(run: Run, now: int) {
    match run
    case Start => true
    case Then(before, c) => TimeOf(c) <= now && OrderedUpTo(before, TimeOf(c))
  }

  // ----- the reference: a verdict over the whole history -----

  /** The positive market caps of a log, oldest first. */
  function Caps(log: Log): seq<real> {
    if log == [] then []
    else Caps(Init(log)) + (if 0.0 < Last(log).marketCapSOL then [Last(log).marketCapSOL] else [])
  }

  /** The last 32 of them. */
  function Recent(caps: seq<real>): seq<real> {
    if |caps| <= RING then caps else caps[|caps| - RING..]
  }

  function LastCap(log: Log): real {
    if Caps(log) == [] then 0.0 else Caps(log)[|Caps(log)| - 1]
  }

  function LastName(log: Log): string {
    if log == [] then "" else if Last(log).name != "" then Last(log).name else LastName(Init(log))
  }

  function LastSymbol(log: Log): string {
    if log == [] then "" else if Last(log).symbol != "" then Last(log).symbol else LastSymbol(Init(log))
  }

  /** The time of the last creation event, else of the first event with a time. */
  function CreatedAt(log: Log): int {
    if log == [] then 0
    else if Last(log).txType == "create" || CreatedAt(Init(log)) == 0 then Last(log).at
    else CreatedAt(Init(log))
  }

  function HistoryInputs(log: Log, mint: string, now: int): Inputs {
    Inputs(mint, LastName(log), LastSymbol(log), LastCap(log), CreatedAt(log), now,
           Recent(Caps(log)), Fresh(log, now - HORIZON),
           VolumeSince(log, now - WINDOW),
           VolumeBetween(log, now - HORIZON, now - WINDOW),
           |WalletsSince(log, now - WINDOW)|)
  }

  // ----- what the reference means -----

  /** Position k holds the last of the events that have a property. */
  ghost predicate LastWith(log: Log, k: nat, p: TradeEvent -> bool) {
    k < |log| && p(log[k]) && forall j :: k < j < |log| ==> !p(log[j])
  }

  predicate HasName(e: TradeEvent) { e.name != "" }
  predicate HasSymbol(e: TradeEvent) { e.symbol != "" }
  predicate HasCap(e: TradeEvent) { 0.0 < e.marketCapSOL }
  predicate IsCreation(e: TradeEvent) { e.txType == "create" }

  lemma LastWithInit(log: Log, k: nat, p: TradeEvent -> bool)
    requires LastWith(log, k, p) && k < |log| - 1
    ensures LastWith(Init(log), k, p) && !p(Last(log))
  {
  }

  /** The name is that of the last event that carries one, and empty before the first. */
  lemma {:induction false} NameIsLast(log: Log, k: nat)
    ensures LastWith(log, k, HasName) ==> LastName(log) == log[k].name
    ensures (forall e :: e in log ==> e.name == "") ==> LastName(log) == ""
  {
    if log != [] {
      if LastWith(log, k, HasName) && k < |log| - 1 { LastWithInit(log, k, HasName); }
      NameIsLast(Init(log), k);
      assert Last(log) in log;
    }
  }

  /** So is the symbol. */
  lemma {:induction false} SymbolIsLast(log: Log, k: nat)
    ensures LastWith(log, k, HasSymbol) ==> LastSymbol(log) == log[k].symbol
    ensures (forall e :: e in log ==> e.symbol == "") ==> LastSymbol(log) == ""
  {
    if log != [] {
      if LastWith(log, k, HasSymbol) && k < |log| - 1 { LastWithInit(log, k, HasSymbol); }
      SymbolIsLast(Init(log), k);
      assert Last(log) in log;
    }
  }

  /** And the cap, which is 0 before the first positive one. */
  lemma {:induction false} CapIsLast(log: Log, k: nat)
    requires LastWith(log, k, HasCap)
    ensures LastCap(log) == log[k].marketCapSOL
  {
    if k < |log| - 1 {
      LastWithInit(log, k, HasCap);
      CapIsLast(Init(log), k);
    }
  }

  lemma {:induction false} NoCapYet(log: Log)
    requires forall i :: 0 <= i < |log| ==> log[i].marketCapSOL <= 0.0
    ensures Caps(log) == [] && LastCap(log) == 0.0
  {
    if log != [] { NoCapYet(Init(log)); }
  }

  /** The creation time is that of the last creation with a time, whatever follows it that
      is no creation, and without any creation the first time seen. */
  lemma {:induction false} CreatedAtIs(log: Log, k: nat)
    requires k < |log| && log[k].at != 0
    ensures LastWith(log, k, IsCreation) ==> CreatedAt(log) == log[k].at
    ensures (forall e :: e in log ==> e.txType != "create") && (forall j :: 0 <= j < k ==> log[j].at == 0)
            ==> CreatedAt(log) == log[k].at
  {
    assert log == Init(log) + [Last(log)];
    if k < |log| - 1 {
      CreatedAtIs(Init(log), k);
    } else {
      NoTimeYet(Init(log));
    }
  }

  lemma {:induction false} NoTimeYet(log: Log)
    ensures (forall j :: 0 <= j < |log| ==> log[j].at == 0) ==> CreatedAt(log) == 0
  {
    if log != [] { NoTimeYet(Init(log)); }
  }

  /** The caps are the positive ones in order of arrival. */
  lemma CapsOfOneMore(log: Log, e: TradeEvent)
    ensures Caps([]) == [] && Caps(log + [e]) == Caps(log) + if 0.0 < e.marketCapSOL then [e.marketCapSOL] else []
  {
    assert Init(log + [e]) == log && Last(log + [e]) == e;
  }

  /** The reference looks at the last five minutes, the fifty-five before them, the events
      of the last hour, and the last 32 caps. */
  lemma HistoryInputsAre(log: Log, mint: string, now: int)
    ensures var x := HistoryInputs(log, mint, now);
            && x.mint == mint && x.now == now
            && x.window == VolumeSince(log, now - 300_000_000_000)
            && x.baseline == VolumeBetween(log, now - 3_600_000_000_000, now - 300_000_000_000)
            && x.wallets == |WalletsSince(log, now - 300_000_000_000)|
            && (forall e :: e in x.events <==> e in log && now - 3_600_000_000_000 <= e.at)
            && |x.samples| == (if |Caps(log)| < 32 then |Caps(log)| else 32)
            && x.samples == Caps(log)[|Caps(log)| - |x.samples|..]
  {
    FreshShrinks(log, now - HORIZON);
  }

  // ----- the ring -----

  /** The ring holds exactly the last min(k, 32) of the k caps seen; the other slots are
      zero and the next write goes to slot k mod 32. */
  ghost predicate RingHolds(ring: seq<real>, idx: nat, caps: seq<real>) {
    && |ring| == RING
    && idx == |caps| % RING
    && if |caps| < RING then ring == caps + Zeros(RING - |caps|)
       else Turned(ring, idx) == Recent(caps)
  }

  function Turned(ring: seq<real>, idx: nat): seq<real>
    requires idx <= |ring|
  {
    ring[idx..] + ring[..idx]
  }

  lemma FillStep(caps: seq<real>, c: real)
    requires |caps| < RING
    ensures (caps + Zeros(RING - |caps|))[|caps| := c] == caps + [c] + Zeros(RING - |caps| - 1)
  {
  }

  lemma TurnWithin(ring: seq<real>, idx: nat, c: real)
    requires idx + 1 < |ring|
    ensures Turned(ring[idx := c], idx + 1) == Turned(ring, idx)[1..] + [c]
  {
  }

  lemma TurnOver(ring: seq<real>, idx: nat, c: real)
    requires idx + 1 == |ring|
    ensures Turned(ring[idx := c], 0) == Turned(ring, idx)[1..] + [c]
  {
  }

  lemma RingFills(caps: seq<real>, c: real)
    requires |caps| < RING
    ensures RingHolds((caps + Zeros(RING - |caps|))[|caps| := c], (|caps| + 1) % RING, caps + [c])
  {
    FillStep(caps, c);
    if |caps| == RING - 1 {
      var full := caps + [c];
      assert full + Zeros(0) == full && Turned(full, 0) == full;
    }
  }

  lemma NextSlot(count: nat)
    ensures (count + 1) % RING == (if count % RING + 1 < RING then count % RING + 1 else 0)
  {
  }

  lemma RecentStep(caps: seq<real>, c: real)
    requires RING <= |caps|
    ensures Recent(caps + [c]) == Recent(caps)[1..] + [c]
  {
    assert (caps + [c])[|caps| + 1 - RING..] == caps[|caps| + 1 - RING..] + [c];
  }

  lemma TurnStep(ring: seq<real>, idx: nat, c: real)
    requires idx < |ring|
    ensures Turned(ring[idx := c], if idx + 1 < |ring| then idx + 1 else 0) == Turned(ring, idx)[1..] + [c]
  {
    if idx + 1 < |ring| { TurnWithin(ring, idx, c); } else { TurnOver(ring, idx, c); }
  }

  lemma RingTurns(ring: seq<real>, idx: nat, caps: seq<real>, c: real)
    requires RingHolds(ring, idx, caps) && RING <= |caps|
    ensures idx < RING && RingHolds(ring[idx := c], (idx + 1) % RING, caps + [c])
  {
    NextSlot(|caps|);
    NextSlot(idx);
    TurnStep(ring, idx, c);
    RecentStep(caps, c);
  }

  lemma RingStep(ring: seq<real>, idx: nat, caps: seq<real>, c: real)
    requires RingHolds(ring, idx, caps)
    ensures idx < RING && RingHolds(ring[idx := c], (idx + 1) % RING, caps + [c])
  {
    if |caps| < RING {
      RingFills(caps, c);
    } else {
      RingTurns(ring, idx, caps, c);
    }
  }

  lemma FullRingMembers(ring: seq<real>, idx: nat)
    requires idx <= |ring|
    ensures multiset(Turned(ring, idx)) == multiset(ring)
    ensures forall s :: s in ring <==> s in Turned(ring, idx)
  {
    assert ring == ring[..idx] + ring[idx..];
    assert multiset(Turned(ring, idx)) == multiset(ring);
    forall s ensures s in ring <==> s in Turned(ring, idx) {
      assert s in ring <==> s in multiset(ring);
    }
  }

  lemma KeepOfEqualMultisets(a: seq<real>, b: seq<real>)
    requires multiset(a) == multiset(b)
    ensures multiset(Keep(a, Positive)) == multiset(Keep(b, Positive))
  {
    forall x ensures multiset(Keep(a, Positive))[x] == multiset(Keep(b, Positive))[x] {
      KeepCounts(a, Positive, x);
      KeepCounts(b, Positive, x);
    }
  }

  /** Rotation and empty slots do not matter to order statistics of the ring. */
  lemma RingMembers(ring: seq<real>, idx: nat, caps: seq<real>)
    requires RingHolds(ring, idx, caps)
    ensures multiset(Keep(ring, Positive)) == multiset(Keep(Recent(caps), Positive))
    ensures forall s :: s in ring <==> s in Recent(caps) || (s == 0.0 && |caps| < RING)
  {
    if |caps| < RING {
      var zeros := Zeros(RING - |caps|);
      assert zeros[0] == 0.0;
      KeepOfConcat(caps, zeros, Positive);
      KeepNone(zeros);
    } else {
      FullRingMembers(ring, idx);
      KeepOfEqualMultisets(ring, Recent(caps));
    }
  }

  lemma {:induction false} KeepNone(values: seq<real>)
    requires forall i :: 0 <= i < |values| ==> values[i] == 0.0
    ensures Keep(values, Positive) == []
  {
    if values != [] {
      var rest := values[..|values| - 1];
      assert forall i :: 0 <= i < |rest| ==> rest[i] == values[i];
      KeepNone(rest);
    }
  }

  lemma {:induction false} CapsPositive(log: Log)
    ensures forall i :: 0 <= i < |Caps(log)| ==> 0.0 < Caps(log)[i]
  {
    if log != [] { CapsPositive(Init(log)); }
  }

  // ----- what holds in every run, in any order of times -----

  /** The parts of a mint's state that ordering does not affect. */
  ghost predicate Tracks(v: MintView, log: Log) {
    && IsSuffix(v.events, log)
    && v.name == LastName(log)
    && v.symbol == LastSymbol(log)
    && v.cap == LastCap(log)
    && v.createdAt == CreatedAt(log)
    && RingHolds(v.ring, v.idx, Caps(log))
  }

  lemma AddedRing(v: MintView, log: Log, e: TradeEvent)
    requires RingHolds(v.ring, v.idx, Caps(log)) && v.cap == LastCap(log)
    ensures var w := Added(v, e);
            RingHolds(w.ring, w.idx, Caps(log + [e])) && w.cap == LastCap(log + [e])
  {
    assert Init(log + [e]) == log;
    if 0.0 < e.marketCapSOL {
      RingStep(v.ring, v.idx, Caps(log), e.marketCapSOL);
    } else {
      assert Caps(log) + [] == Caps(log);
    }
  }

  lemma AddedLabels(v: MintView, log: Log, e: TradeEvent)
    requires v.name == LastName(log) && v.symbol == LastSymbol(log) && v.createdAt == CreatedAt(log)
    ensures var w := Described(v, e);
            w.name == LastName(log + [e]) && w.symbol == LastSymbol(log + [e]) && w.createdAt == CreatedAt(log + [e])
  {
    assert Init(log + [e]) == log && Last(log + [e]) == e;
  }

  lemma AddedSuffix(v: MintView, log: Log, e: TradeEvent)
    requires IsSuffix(v.events, log)
    ensures IsSuffix(Added(v, e).events, log + [e])
  {
    SuffixGrows(v.events, log, e);
    PruneKeepsSuffix(v.events + [e], log + [e], e.at);
  }

  lemma AddedTracks(v: MintView, log: Log, e: TradeEvent)
    requires Tracks(v, log)
    ensures Tracks(Added(v, e), log + [e])
  {
    AddedSuffix(v, log, e);
    AddedLabels(v, log, e);
    AddedRing(v, log, e);
    assert Added(v, e).name == Described(v, e).name;
  }

  /** After any run, whatever the order of its times, name, symbol, cap, creation time
      and ring are those of the whole history, and the events are a suffix of it. */
  lemma {:induction false} StateTracks(run: Run)
    ensures Tracks(StateAfter(run), LogOf(run))
  {
    match run
    case Start =>
      assert Zeros(RING) == [] + Zeros(RING);
    case Then(before, Add(e)) =>
      StateTracks(before);
      AddedTracks(StateAfter(before), LogOf(before), e);
    case Then(before, Evaluate(now)) =>
      StateTracks(before);
      PruneKeepsSuffix(StateAfter(before).events, LogOf(before), now);
  }

  lemma {:induction false} CapsOfConcat(a: Log, b: Log)
    ensures Caps(a + b) == Caps(a) + Caps(b)
  {
    if b == [] {
      assert a + b == a;
    } else {
      var c := a + b;
      CapsOfConcat(a, Init(b));
      assert Init(c) == a + Init(b) && Last(c) == Last(b);
    }
  }

  lemma {:induction false} MaxCapIsLargest(log: Log)
    ensures 0.0 <= MaxCap(log)
    ensures forall i :: 0 <= i < |Caps(log)| ==> Caps(log)[i] <= MaxCap(log)
    ensures Caps(log) == [] <==> MaxCap(log) == 0.0
  {
    if log != [] { MaxCapIsLargest(Init(log)); }
  }

  /** The cap ratio of the structure score, whenever it is computed, lies in (0, 1]: if
      the kept suffix still has a positive cap, the current cap is the last of them. */
  lemma StructureRatioInRange(v: MintView, log: Log)
    requires Tracks(v, log) && MaxCap(v.events) != 0.0 && v.cap != 0.0
    ensures 0.0 < v.cap / MaxCap(v.events) <= 1.0
  {
    var k := |log| - |v.events|;
    assert log == log[..k] + v.events;
    CapsOfConcat(log[..k], v.events);
    MaxCapIsLargest(v.events);
    CapsPositive(log);
    var top := MaxCap(v.events);
    var kept := Caps(v.events);
    assert v.cap == kept[|kept| - 1] <= top;
    QuotientLandmarks(v.cap, top);
  }

  /** Every reachable state gives plausible inputs, in any order of times. */
  lemma StatePlausible(v: MintView, log: Log, mint: string, now: int)
    requires Tracks(v, log)
    ensures Plausible(StateInputs(v, mint, now))
  {
    CapsPositive(log);
    RingMembers(v.ring, v.idx, Caps(log));
    HourSplits(v.events, now - HORIZON, now - WINDOW);
    FlowHasWallets(v.events, now - WINDOW);
    RecentMembers(Caps(log));
  }

  lemma RecentMembers(caps: seq<real>)
    ensures forall s :: s in Recent(caps) ==> s in caps
    ensures caps != [] ==> Recent(caps) != [] && Recent(caps)[|Recent(caps)| - 1] == caps[|caps| - 1]
  {
  }

  /** The score bounds hold of every verdict after every run, in any order of times. */
  lemma VerdictBoundsInEveryRun(cfg: Config, run: Run, mint: string, now: int)
    requires 0 < cfg.walletMin
    ensures var x := StateInputs(StateAfter(Then(run, Evaluate(now))), mint, now);
            && (if x.window <= 0.0 then Floor(x) == 0.0 else 0.089375 <= Floor(x) < 0.960625)
            && (Detected(cfg, x) && 1.5 <= cfg.spikeRatioMin ==>
                  Persistence(x.window, Per5m(x.baseline)) == 0.8 && 18.840625 <= Entry(cfg, x).0)
            && (if Organic(cfg, x) then 11.340625 <= Entry(cfg, x).0 < 95.409375 else Entry(cfg, x) == (0.0, Reject))
            && (Quantile(x.samples, 0.20) == 0.0 <==> x.cap == 0.0)
            && (x.cap != 0.0 ==> 1.0 / 32.0 <= FlowScore(x.samples))
            && (MaxCap(x.events) != 0.0 && x.cap != 0.0 ==> 0.0 < x.cap / MaxCap(x.events) <= 1.0)
  {
    var v, log := StateAfter(Then(run, Evaluate(now))), LogOf(run);
    StateTracks(Then(run, Evaluate(now)));
    StatePlausible(v, log, mint, now);
    var x := StateInputs(v, mint, now);
    FloorBounds(x);
    EntryBounds(cfg, x);
    SupportNeedsCap(x);
    if x.cap != 0.0 {
      SupportFlowTradeOff(x);
      if MaxCap(x.events) != 0.0 { StructureRatioInRange(v, log); }
    }
  }

  // ----- when pruning loses nothing -----

  /** No call of the run is later than `now`. */
  predicate NoneLater(run: Run, now: int) {
    run.Then? ==> TimeOf(run.call) <= now && NoneLater(run.before, now)
  }

  lemma PartitionedPrefix(log: Log, e: TradeEvent, cutoff: int)
    requires Partitioned(log + [e], cutoff)
    ensures Partitioned(log, cutoff)
  {
    var all := log + [e];
    forall i, j | 0 <= i < j < |log| && cutoff <= log[i].at ensures cutoff <= log[j].at {
      assert all[i] == log[i] && all[j] == log[j];
    }
  }

  lemma PartitionedSuffix(s: Log, log: Log, cutoff: int)
    requires IsSuffix(s, log) && Partitioned(log, cutoff)
    ensures Partitioned(s, cutoff)
  {
    var k := |log| - |s|;
    forall i, j | 0 <= i < j < |s| && cutoff <= s[i].at ensures cutoff <= s[j].at {
      assert s[i] == log[k + i] && s[j] == log[k + j];
    }
  }

  /** What an earlier pruning drops is stale later. */
  lemma CutIsStale(log: Log, t: int, now: int, i: nat)
    requires t <= now && Partitioned(log, now - HORIZON) && i < SearchFresh(log, t - HORIZON, 0, |log|)
    ensures log[i].at < now - HORIZON
  {
    var r := SearchFresh(log, t - HORIZON, 0, |log|);
    assert log[r - 1].at < t - HORIZON;
  }

  /** On a log without a stale event after a fresh one, an earlier pruning drops nothing
      that is still fresh later. */
  lemma EarlierPruneInvisible(log: Log, t: int, now: int)
    requires t <= now && Partitioned(log, now - HORIZON)
    ensures Fresh(Pruned(log, t), now - HORIZON) == Fresh(log, now - HORIZON)
  {
    var r := SearchFresh(log, t - HORIZON, 0, |log|);
    var stale, kept := log[..r], log[r..];
    forall i | 0 <= i < |stale| ensures stale[i].at < now - HORIZON { CutIsStale(log, t, now, i); }
    StaleHeadInvisible(stale, kept, now - HORIZON);
    Rejoined(log, r);
  }

  lemma Rejoined(log: Log, k: nat)
    requires k <= |log|
    ensures log[..k] + log[k..] == log
  {
  }

  lemma StaleHeadInvisible(stale: Log, kept: Log, cutoff: int)
    requires forall i :: 0 <= i < |stale| ==> stale[i].at < cutoff
    ensures Fresh(stale + kept, cutoff) == Fresh(kept, cutoff)
  {
    FreshOfConcat(stale, kept, cutoff);
    FreshDropsAll(stale, cutoff);
  }

  lemma AddKeepsLastHour(kept: Log, log: Log, e: TradeEvent, now: int)
    requires e.at <= now && Partitioned(kept + [e], now - HORIZON)
    requires Fresh(kept, now - HORIZON) == Fresh(log, now - HORIZON)
    ensures Fresh(Pruned(kept + [e], e.at), now - HORIZON) == Fresh(log + [e], now - HORIZON)
  {
    EarlierPruneInvisible(kept + [e], e.at, now);
    FreshOfConcat(kept, [e], now - HORIZON);
    FreshOfConcat(log, [e], now - HORIZON);
  }

  lemma StateLogPartitioned(run: Run, cutoff: int)
    requires Partitioned(LogOf(run), cutoff)
    ensures Partitioned(StateAfter(run).events, cutoff)
  {
    StateTracks(run);
    PartitionedSuffix(StateAfter(run).events, LogOf(run), cutoff);
  }

  lemma AddedLogPartitioned(run: Run, e: TradeEvent, cutoff: int)
    requires Partitioned(LogOf(run) + [e], cutoff)
    ensures Partitioned(StateAfter(run).events + [e], cutoff) && Partitioned(LogOf(run), cutoff)
  {
    StateTracks(run);
    SuffixGrows(StateAfter(run).events, LogOf(run), e);
    PartitionedSuffix(StateAfter(run).events + [e], LogOf(run) + [e], cutoff);
    PartitionedPrefix(LogOf(run), e, cutoff);
  }

  lemma {:induction false} RunKeepsLastHour(run: Run, now: int)
    requires NoneLater(run, now) && Partitioned(LogOf(run), now - HORIZON)
    ensures Fresh(StateAfter(run).events, now - HORIZON) == Fresh(LogOf(run), now - HORIZON)
  {
    match run
    case Start =>
    case Then(before, Add(e)) =>
      AddedLogPartitioned(before, e, now - HORIZON);
      RunKeepsLastHour(before, now);
      AddKeepsLastHour(StateAfter(before).events, LogOf(before), e, now);
    case Then(before, Evaluate(t)) =>
      RunKeepsLastHour(before, now);
      StateLogPartitioned(before, now - HORIZON);
      EarlierPruneInvisible(StateAfter(before).events, t, now);
  }

  /** For runs in any order of times, none of them later than `now`: however many prunings
      came before, pruning once more at `now` leaves exactly the events of the last hour of
      the whole history if and only if no event older than the hour arrived after one
      within it. */
  lemma PrunedRunIsFreshIff(run: Run, now: int)
    requires NoneLater(run, now)
    ensures StateAfter(Then(run, Evaluate(now))).events == Fresh(LogOf(run), now - HORIZON)
       <==> Partitioned(LogOf(run), now - HORIZON)
  {
    var log, kept := LogOf(run), StateAfter(Then(run, Evaluate(now))).events;
    if Partitioned(log, now - HORIZON) {
      StateLogPartitioned(run, now - HORIZON);
      PrunePartitioned(StateAfter(run).events, now);
      RunKeepsLastHour(run, now);
    } else if kept == Fresh(log, now - HORIZON) {
      StateTracks(Then(run, Evaluate(now)));
      assert log == log[..|log| - |kept|] + kept;
      FilterIsTail(log[..|log| - |kept|], kept, now - HORIZON);
    }
  }

  // ----- runs in order of time -----

  ghost predicate SortedUpTo(log: Log, now: int) {
    && (forall i, j :: 0 <= i < j < |log| ==> log[i].at <= log[j].at)
    && (forall i :: 0 <= i < |log| ==> log[i].at <= now)
  }

  lemma SortedSnoc(log: Log, e: TradeEvent)
    requires SortedUpTo(log, e.at)
    ensures SortedUpTo(log + [e], e.at)
  {
  }

  lemma {:induction false} OrderedRunsSortLogs(run: Run, now: int)
    requires OrderedUpTo(run, now)
    ensures SortedUpTo(LogOf(run), now)
  {
    if run.Then? {
      OrderedRunsSortLogs(run.before, TimeOf(run.call));
    }
  }

  lemma {:induction false} OrderedRunsEndBy(run: Run, now: int, later: int)
    requires OrderedUpTo(run, now) && now <= later
    ensures NoneLater(run, later)
  {
    if run.Then? { OrderedRunsEndBy(run.before, TimeOf(run.call), later); }
  }

  /** Runs whose calls carry non-decreasing times meet the condition for every cutoff. */
  lemma OrderedRunsLoseNothing(run: Run, now: int)
    requires OrderedUpTo(run, now)
    ensures NoneLater(run, now) && forall cutoff :: Partitioned(LogOf(run), cutoff)
  {
    OrderedRunsEndBy(run, now, now);
    OrderedRunsSortLogs(run, now);
  }

  lemma SupportByQuantile(a: seq<real>, b: seq<real>, cap: real)
    requires Quantile(a, 0.20) == Quantile(b, 0.20)
    ensures SupportScore(a, cap) == SupportScore(b, cap)
  {
  }

  lemma FlowByCount(a: seq<real>, b: seq<real>)
    requires Quantile(a, 0.20) == Quantile(b, 0.20)
    requires BandCount(a, Quantile(a, 0.20)) == BandCount(b, Quantile(a, 0.20))
    ensures FlowScore(a) == FlowScore(b)
  {
  }

  lemma VerdictByFloor(cfg: Config, x: Inputs, y: Inputs)
    requires y == x.(samples := y.samples)
    requires SupportScore(x.samples, x.cap) == SupportScore(y.samples, y.cap)
    requires FlowScore(x.samples) == FlowScore(y.samples)
    ensures Verdict(cfg, x) == Verdict(cfg, y)
  {
    assert Floor(x) == Floor(y);
    assert Entry(cfg, x) == Entry(cfg, y);
  }

  /** Verdicts depend on the samples only through their order statistics. */
  lemma VerdictBySamples(cfg: Config, x: Inputs, y: Inputs)
    requires multiset(Keep(x.samples, Positive)) == multiset(Keep(y.samples, Positive))
    requires y == x.(samples := y.samples)
    ensures Verdict(cfg, x) == Verdict(cfg, y)
  {
    StatisticsByMultiset(x.samples, y.samples, 0.20, Quantile(x.samples, 0.20));
    SupportByQuantile(x.samples, y.samples, x.cap);
    FlowByCount(x.samples, y.samples);
    VerdictByFloor(cfg, x, y);
  }

  /** The aggregates of what is kept are those of the history; only the samples come from
      elsewhere. */
  lemma KeptInputs(run: Run, mint: string, now: int)
    requires NoneLater(run, now) && Partitioned(LogOf(run), now - HORIZON)
    ensures HistoryInputs(LogOf(run), mint, now)
         == StateInputs(StateAfter(Then(run, Evaluate(now))), mint, now).(samples := Recent(Caps(LogOf(run))))
  {
    var log := LogOf(run);
    StateTracks(run);
    PrunedRunIsFreshIff(run, now);
    AggregatesIgnoreStale(log, now - HORIZON, now - HORIZON, now - WINDOW);
    AggregatesIgnoreStale(log, now - HORIZON, now - WINDOW, now - WINDOW);
  }

  /** The main theorem. After every run, in any order of times, in which no call was later
      than `now` and no event older than the hour arrived after one within it, evaluating
      the pruned log and the ring gives, field by field, the verdict computed over the
      never-pruned history: windows, baseline, wallets, last name, symbol, cap, creation
      time, the last 32 caps, the scores and the detection. */
  lemma RollingStateAgreesWithHistory(cfg: Config, run: Run, mint: string, now: int)
    requires NoneLater(run, now) && Partitioned(LogOf(run), now - HORIZON)
    ensures Verdict(cfg, StateInputs(StateAfter(Then(run, Evaluate(now))), mint, now))
         == Verdict(cfg, HistoryInputs(LogOf(run), mint, now))
  {
    var v, log := StateAfter(Then(run, Evaluate(now))), LogOf(run);
    KeptInputs(run, mint, now);
    StateTracks(run);
    CapsPositive(log);
    RingMembers(v.ring, v.idx, Caps(log));
    VerdictBySamples(cfg, StateInputs(v, mint, now), HistoryInputs(log, mint, now));
  }

  /** In particular after every run in order of time. */
  lemma OrderedStateAgreesWithHistory(cfg: Config, run: Run, mint: string, now: int)
    requires OrderedUpTo(run, now)
    ensures Verdict(cfg, StateInputs(StateAfter(Then(run, Evaluate(now))), mint, now))
         == Verdict(cfg, HistoryInputs(LogOf(run), mint, now))
  {
    OrderedRunsLoseNothing(run, now);
    RollingStateAgreesWithHistory(cfg, run, mint, now);
  }
}
