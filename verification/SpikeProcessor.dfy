/** The processor: one trade in, at most one recorded and announced spike out. Each call
    is one atomic step. Clock readings and the success of store calls are parameters. */
module SpikeProcessor {
  import opened Text
  import opened Clock
  import opened TradeLog
  import opened Scoring
  import opened RollingHistory
  import opened VolumeTracker
  import opened SpikeGuards

  datatype FeedEvent = FeedEvent(
    mint: string, name: string, symbol: string, trader: string, volumeSOL: real, marketCapSOL: real,
    txType: string, signature: string, timestamp: int)

  /** What the surroundings answer during one call: the dedupe clock, the clock that
      stands in for a missing timestamp, and whether the store's writes succeed. */
  datatype Answers = Answers(sigClock: int, wallClock: int, snapshotOk: bool, spikeOk: bool)

  /** How a call ends: the first three and Quiet, Muted and Announced return no error. */
  datatype Fate = Repeated | Ignored | Created | SnapshotFailed | Quiet | Muted | SpikeFailed | Announced

  datatype Snapshot = Snapshot(mint: string, windowStart: int, windowEnd: int, volumeSOL: real, wallets: nat)

  datatype SpikeRecord = SpikeRecord(
    id: string, mint: string, name: string, symbol: string, ratio: real, windowVolume: real, baselinePer5m: real,
    marketCapSOL: real, uniqueWallets: nat, tokenCreatedAt: int, tokenAgeSeconds: int,
    floorConfidence: real, entryScore: real, entryGrade: Grade, createdAt: int)

  function NormalizeTxType(s: string): string {
    ToLower(TrimSpace(s))
  }

  function TimeOfEvent(ev: FeedEvent, wallClock: int): int {
    if ev.timestamp == 0 then wallClock else ev.timestamp
  }

  /** The trade handed to the tracker: a creation carries neither volume nor wallet. */
  function TradeOf(ev: FeedEvent, wallClock: int): TradeEvent {
    var kind := NormalizeTxType(ev.txType);
    TradeEvent(ev.mint, ev.name, ev.symbol,
               if kind == "create" then "" else ev.trader,
               if kind == "create" then 0.0 else ev.volumeSOL,
               ev.marketCapSOL, kind, TimeOfEvent(ev, wallClock))
  }

  function RecordOf(r: SpikeResult, at: int): SpikeRecord {
    SpikeRecord(BuildSpikeID(r.mint, at), r.mint, r.name, r.symbol, r.ratio, r.windowVolumeSOL, r.baselinePer5mSOL,
                r.marketCapSOL, r.uniqueWallets, r.tokenCreatedAt, r.tokenAgeSeconds,
                r.floorConfidence, r.entryScore, r.entryGrade, at)
  }

  function SnapshotOf(trade: TradeEvent, r: SpikeResult): Snapshot {
    Snapshot(trade.mint, trade.at - WINDOW, trade.at, r.windowVolumeSOL, r.uniqueWallets)
  }

  /** The calls about a mint after the tracker saw a buy. */
  function BuyRun(run: Run, trade: TradeEvent): Run {
    Then(Then(run, Add(trade)), Call.Evaluate(trade.at))
  }

  /** The verdict on a mint right after a buy. */
  function BuyVerdict(cfg: Config, run: Run, trade: TradeEvent): (SpikeResult, bool) {
    Verdict(cfg, StateInputs(StateAfter(BuyRun(run, trade)), trade.mint, trade.at))
  }

  /** The calls about the event's mint after the processor call. */
  function RunAfter(fate: Fate, run: Run, trade: TradeEvent): Run {
    match fate
    case Repeated => run
    case Ignored => run
    case Created => Then(run, Add(trade))
    case _ => BuyRun(run, trade)
  }

  /** How the handling of a trade that is no repetition ends, from the state before it. */
  function TradeFate(trade: TradeEvent, a: Answers, detected: bool, last: LastSpikes, delta: int, idTaken: bool): Fate {
    if trade.txType == "create" then Created
    else if trade.txType != "buy" then Ignored
    else if !a.snapshotOk then SnapshotFailed
    else if !detected then Quiet
    else if !MayEmit(last, trade.mint, trade.at, delta) then Muted
    else if !a.spikeOk || idTaken then SpikeFailed
    else Announced
  }

  /** What is announced for a mint, when no call about it was later than the buy and no
      trade older than the hour arrived after one within it, is the verdict on its whole
      history, the buy included. */
  lemma BuyVerdictIsHistorical(cfg: Config, run: Run, trade: TradeEvent)
    requires KeepsLastHour(run, trade.at)
    ensures BuyVerdict(cfg, run, trade) == Verdict(cfg, HistoryInputs(LogOf(run) + [trade], trade.mint, trade.at))
  {
    RollingStateAgreesWithHistory(cfg, Then(run, Add(trade)), trade.mint, trade.at);
  }

  /** The spike table, whose id column is a primary key, and the snapshot table. */
  class SpikeStore {
    var snapshots: seq<Snapshot>
    var spikes: seq<SpikeRecord>

    constructor ()
      ensures snapshots == [] && spikes == []
    {
      snapshots, spikes := [], [];
    }

    method InsertVolumeSnapshot(s: Snapshot, ioOk: bool) returns (ok: bool)
      modifies this`snapshots
      ensures ok == ioOk
      ensures snapshots == if ok then old(snapshots) + [s] else old(snapshots)
    {
      ok := ioOk;
      if ok { snapshots := snapshots + [s]; }
    }

    method InsertSpikeEvent(rec: SpikeRecord, ioOk: bool) returns (ok: bool)
      modifies this`spikes
      ensures ok == (ioOk && !HasID(old(spikes), rec.id))
      ensures spikes == if ok then old(spikes) + [rec] else old(spikes)
    {
      ok := ioOk && !HasID(spikes, rec.id);
      if ok { spikes := spikes + [rec]; }
    }
  }

  /** What the stored spikes, the announcements and the throttle agree on: every
      announcement has its record at the same place, records of one mint are at least
      delta apart, and the throttle is not behind any of them. */
  ghost predicate Ledger(spikes: seq<SpikeRecord>, announced: seq<SpikeResult>, last: LastSpikes, delta: int) {
    && |spikes| == |announced|
    && (forall i :: 0 <= i < |spikes| ==> spikes[i] == RecordOf(announced[i], announced[i].detectedAt))
    && (forall i :: 0 <= i < |spikes| ==> spikes[i].mint in last && spikes[i].createdAt <= last[spikes[i].mint])
    && (forall i, j :: 0 <= i < j < |spikes| && spikes[i].mint == spikes[j].mint ==>
          spikes[i].createdAt + delta <= spikes[j].createdAt)
  }

  lemma LedgerGrows(spikes: seq<SpikeRecord>, announced: seq<SpikeResult>, last: LastSpikes, delta: int, r: SpikeResult)
    requires 0 < delta && Ledger(spikes, announced, last, delta)
    requires MayEmit(last, r.mint, r.detectedAt, delta)
    ensures Ledger(spikes + [RecordOf(r, r.detectedAt)], announced + [r],
                   AfterOffer(last, r.mint, r.detectedAt, delta), delta)
  {
  }

  lemma LedgerAllowsOffer(spikes: seq<SpikeRecord>, announced: seq<SpikeResult>, last: LastSpikes, delta: int,
                          mint: string, at: int)
    requires 0 < delta && Ledger(spikes, announced, last, delta)
    ensures Ledger(spikes, announced, AfterOffer(last, mint, at, delta), delta)
  {
  }

  /** Stored ids are pairwise distinct once no record is dated before 1970. */
  lemma StoredIDsDistinct(spikes: seq<SpikeRecord>, announced: seq<SpikeResult>, last: LastSpikes, delta: int)
    requires 0 < delta && Ledger(spikes, announced, last, delta)
    requires forall i :: 0 <= i < |spikes| ==> EPOCH <= spikes[i].createdAt
    ensures forall i, j :: 0 <= i < j < |spikes| ==> spikes[i].id != spikes[j].id
  {
    forall i, j | 0 <= i < j < |spikes| ensures spikes[i].id != spikes[j].id {
      SpikeIDsDistinct(spikes[i].mint, spikes[i].createdAt, spikes[j].mint, spikes[j].createdAt);
    }
  }

  /** A spike the throttle lets through never collides with a stored id, so the primary
      key rejects nothing. */
  lemma NewIDIsFree(spikes: seq<SpikeRecord>, announced: seq<SpikeResult>, last: LastSpikes, delta: int,
                    mint: string, at: int)
    requires 0 < delta && Ledger(spikes, announced, last, delta) && MayEmit(last, mint, at, delta)
    requires EPOCH <= at && forall i :: 0 <= i < |spikes| ==> EPOCH <= spikes[i].createdAt
    ensures forall i :: 0 <= i < |spikes| ==> spikes[i].id != BuildSpikeID(mint, at)
  {
    forall i | 0 <= i < |spikes| ensures spikes[i].id != BuildSpikeID(mint, at) {
      SpikeIDsDistinct(spikes[i].mint, spikes[i].createdAt, mint, at);
    }
  }

  // ----- the processor's books as a value -----

  /** The snapshots, this process's rows of the spike table, what was announced, and the
      throttle with the spikes offered to it. */
  datatype Desk = Desk(
    snapshots: seq<Snapshot>, rows: seq<SpikeRecord>, announced: seq<SpikeResult>, last: LastSpikes, offers: Offers)

  predicate HasID(spikes: seq<SpikeRecord>, id: string) {
    exists i :: 0 <= i < |spikes| && spikes[i].id == id
  }

  /** How the handling of a trade that is no repetition ends; `earlier` are the rows of
      earlier processes. */
  function Ending(earlier: seq<SpikeRecord>, d: Desk, trade: TradeEvent, a: Answers, detected: bool, delta: int): Fate {
    TradeFate(trade, a, detected, d.last, delta, HasID(earlier + d.rows, BuildSpikeID(trade.mint, trade.at)))
  }

  /** The books after the handling of a trade that ended so. */
  function Booked(d: Desk, fate: Fate, trade: TradeEvent, a: Answers, r: SpikeResult, delta: int): Desk {
    var offered := fate in {Muted, SpikeFailed, Announced};
    Desk(if trade.txType == "buy" && a.snapshotOk then d.snapshots + [SnapshotOf(trade, r)] else d.snapshots,
         if fate == Announced then d.rows + [RecordOf(r, trade.at)] else d.rows,
         if fate == Announced then d.announced + [r] else d.announced,
         if offered then AfterOffer(d.last, trade.mint, trade.at, delta) else d.last,
         if offered then Offer(d.offers, trade.mint, trade.at) else d.offers)
  }

  /** What the books keep. */
  ghost predicate Sane(d: Desk, delta: int) {
    && 0 < delta
    && d.last == LastAfter(d.offers, delta)
    && Ledger(d.rows, d.announced, d.last, delta)
  }

  lemma BookedStaysSane(earlier: seq<SpikeRecord>, d: Desk, trade: TradeEvent, a: Answers, r: SpikeResult, detected: bool, delta: int)
    requires Sane(d, delta) && r.mint == trade.mint && r.detectedAt == trade.at
    ensures Sane(Booked(d, Ending(earlier, d, trade, a, detected, delta), trade, a, r, delta), delta)
  {
    LedgerAllowsOffer(d.rows, d.announced, d.last, delta, trade.mint, trade.at);
    if MayEmit(d.last, trade.mint, trade.at, delta) {
      LedgerGrows(d.rows, d.announced, d.last, delta, r);
    }
  }

  lemma EitherHasID(a: seq<SpikeRecord>, b: seq<SpikeRecord>, id: string)
    ensures HasID(a + b, id) <==> HasID(a, id) || HasID(b, id)
  {
    if i :| 0 <= i < |a| && a[i].id == id { assert (a + b)[i].id == id; }
    if i :| 0 <= i < |b| && b[i].id == id { assert (a + b)[|a| + i].id == id; }
  }

  /** For times not before 1970 only the store's own failure, or a row of an earlier
      process, can lose a record: this process's rows never take the id. */
  lemma OnlyStoreLosesRecords(earlier: seq<SpikeRecord>, d: Desk, trade: TradeEvent, a: Answers, detected: bool, delta: int)
    requires Sane(d, delta)
    requires EPOCH <= trade.at && forall i :: 0 <= i < |d.rows| ==> EPOCH <= d.rows[i].createdAt
    ensures Ending(earlier, d, trade, a, detected, delta) == SpikeFailed ==>
              !a.spikeOk || HasID(earlier, BuildSpikeID(trade.mint, trade.at))
  {
    EitherHasID(earlier, d.rows, BuildSpikeID(trade.mint, trade.at));
    if MayEmit(d.last, trade.mint, trade.at, delta) {
      NewIDIsFree(d.rows, d.announced, d.last, delta, trade.mint, trade.at);
    }
  }

  // ----- what a trade leads to, by its own fields -----

  /** The trade handed to the tracker, field by field; a missing time is replaced by the
      clock's. */
  lemma TradeOfFields(ev: FeedEvent, wallClock: int)
    ensures var trade := TradeOf(ev, wallClock);
            && trade.mint == ev.mint && trade.name == ev.name && trade.symbol == ev.symbol
            && trade.marketCapSOL == ev.marketCapSOL && trade.txType == NormalizeTxType(ev.txType)
            && trade.at == (if ev.timestamp != 0 then ev.timestamp else wallClock)
            && (trade.txType == "create" ==> trade.wallet == "" && trade.volumeSOL == 0.0)
            && (trade.txType != "create" ==> trade.wallet == ev.trader && trade.volumeSOL == ev.volumeSOL)
  {
  }

  /** The kind of a trade does not depend on space around it or on the case of its letters. */
  lemma KindsNormalized(l: string, s: string, r: string)
    requires AllSpace(l) && AllSpace(r) && s != "" && !IsSpace(s[0]) && !IsSpace(s[|s| - 1])
    ensures NormalizeTxType(l + s + r) == ToLower(s) && |ToLower(s)| == |s|
    ensures forall i :: 0 <= i < |s| ==>
              ToLower(s)[i] == if 'A' <= s[i] <= 'Z' then (s[i] as int + 32) as char else s[i]
  {
    TrimSpaceExactly(l, s, r);
  }

  /** A row of the spike table tells the announced verdict, field by field. */
  lemma RowShows(r: SpikeResult, at: int)
    ensures var row := RecordOf(r, at);
            && row.id == BuildSpikeID(r.mint, at) && row.createdAt == at
            && row.mint == r.mint && row.name == r.name && row.symbol == r.symbol
            && row.ratio == r.ratio && row.windowVolume == r.windowVolumeSOL
            && row.baselinePer5m == r.baselinePer5mSOL && row.marketCapSOL == r.marketCapSOL
            && row.uniqueWallets == r.uniqueWallets && row.tokenCreatedAt == r.tokenCreatedAt
            && row.tokenAgeSeconds == r.tokenAgeSeconds && row.floorConfidence == r.floorConfidence
            && row.entryScore == r.entryScore && row.entryGrade == r.entryGrade
  {
  }

  /** The mint's history gains the trade unless it was a repetition or of another kind than
      creations and buys. */
  lemma HistoryGains(fate: Fate, run: Run, trade: TradeEvent)
    ensures LogOf(RunAfter(fate, run, trade)) == if fate in {Repeated, Ignored} then LogOf(run) else LogOf(run) + [trade]
    ensures fate in {Repeated, Ignored} ==> RunAfter(fate, run, trade) == run
  {
  }

  /** The decision table of a trade that is no repetition: its kind, the snapshot, the
      detection, the earlier emissions of its mint, and the store decide. */
  lemma EndingMeans(earlier: seq<SpikeRecord>, d: Desk, trade: TradeEvent, a: Answers, detected: bool, delta: int)
    requires Sane(d, delta)
    ensures var fate := Ending(earlier, d, trade, a, detected, delta);
            var times := EmittedTimes(d.offers, trade.mint, delta);
            var rested := forall i :: 0 <= i < |times| ==> times[i] + delta <= trade.at;
            var taken := HasID(earlier + d.rows, BuildSpikeID(trade.mint, trade.at));
            && (fate == Created <==> trade.txType == "create")
            && (fate == Ignored <==> trade.txType != "create" && trade.txType != "buy")
            && (fate == SnapshotFailed <==> trade.txType == "buy" && !a.snapshotOk)
            && (fate == Quiet <==> trade.txType == "buy" && a.snapshotOk && !detected)
            && (fate == Muted <==> trade.txType == "buy" && a.snapshotOk && detected && !rested)
            && (fate == SpikeFailed <==> trade.txType == "buy" && a.snapshotOk && detected && rested && (!a.spikeOk || taken))
            && (fate == Announced <==> trade.txType == "buy" && a.snapshotOk && detected && rested && a.spikeOk && !taken)
  {
    ThrottleIsExact(d.offers, trade.mint, trade.at, delta);
  }

  /** What each ending does to the books: a buy whose snapshot is stored adds it; only an
      announcement adds a row, and the row tells it; only a detected spike is offered to the
      throttle; every other ending leaves rows, announcements and throttle alone. */
  lemma BookedMeans(d: Desk, fate: Fate, trade: TradeEvent, a: Answers, r: SpikeResult, delta: int)
    ensures var d' := Booked(d, fate, trade, a, r, delta);
            && d'.snapshots == (if trade.txType == "buy" && a.snapshotOk
                                then d.snapshots + [Snapshot(trade.mint, trade.at - 300_000_000_000, trade.at,
                                                             r.windowVolumeSOL, r.uniqueWallets)]
                                else d.snapshots)
            && d'.rows == (if fate == Announced then d.rows + [RecordOf(r, trade.at)] else d.rows)
            && d'.announced == (if fate == Announced then d.announced + [r] else d.announced)
            && (fate in {Muted, SpikeFailed, Announced} ==> d'.offers == Offer(d.offers, trade.mint, trade.at))
            && (fate !in {Muted, SpikeFailed, Announced} ==> d'.offers == d.offers && d'.last == d.last)
  {
  }

  // ----- runs of the processor -----

  /** The settings of a process, and the rows its spike table had before. */
  datatype Setup = Setup(cfg: Config, delta: int, window: int, earlier: seq<SpikeRecord>)

  /** The trades of a process so far, the latest outermost; it starts with the snapshots of
      earlier processes. */
  datatype Trades = Opened(snapshots: seq<Snapshot>) | Fed(before: Trades, ev: FeedEvent, a: Answers)

  function ChecksAfter(t: Trades): Checks {
    match t
    case Opened(_) => NoChecks
    case Fed(before, ev, a) =>
      if ev.signature == "" then ChecksAfter(before) else Check(ChecksAfter(before), ev.signature, a.sigClock)
  }

  function TradeAt(t: Trades): TradeEvent
    requires t.Fed?
  {
    TradeOf(t.ev, t.a.wallClock)
  }

  /** The verdict on the latest trade's mint, as a buy, at that moment. */
  function VerdictAt(t: Trades, s: Setup): (SpikeResult, bool)
    requires t.Fed?
    decreases t, 1
  {
    BuyVerdict(s.cfg, CallsAfter(t.before, s, TradeAt(t).mint), TradeAt(t))
  }

  function FateAt(t: Trades, s: Setup): Fate
    requires t.Fed?
    decreases t, 2
  {
    if t.ev.signature != "" && !Accepted(ChecksAfter(t), s.window) then Repeated
    else Ending(s.earlier, DeskAfter(t.before, s), TradeAt(t), t.a, VerdictAt(t, s).1, s.delta)
  }

  /** The tracker calls about a mint. */
  function CallsAfter(t: Trades, s: Setup, mint: string): Run
    decreases t, 3
  {
    if t.Opened? then Start
    else if mint == TradeAt(t).mint then RunAfter(FateAt(t, s), CallsAfter(t.before, s, mint), TradeAt(t))
    else CallsAfter(t.before, s, mint)
  }

  function DeskAfter(t: Trades, s: Setup): Desk
    decreases t, 3
  {
    match t
    case Opened(snapshots) => Desk(snapshots, [], [], map[], NoOffers)
    case Fed(before, _, _) =>
      if FateAt(t, s) == Repeated then DeskAfter(before, s)
      else Booked(DeskAfter(before, s), FateAt(t, s), TradeAt(t), t.a, VerdictAt(t, s).0, s.delta)
  }

  lemma VerdictNames(t: Trades, s: Setup)
    requires t.Fed?
    ensures VerdictAt(t, s).0.mint == TradeAt(t).mint && VerdictAt(t, s).0.detectedAt == TradeAt(t).at
  {
  }

  lemma {:induction false} AlwaysSane(t: Trades, s: Setup)
    requires 0 < s.delta
    ensures Sane(DeskAfter(t, s), s.delta)
  {
    if t.Fed? {
      AlwaysSane(t.before, s);
      VerdictNames(t, s);
      BookedStaysSane(s.earlier, DeskAfter(t.before, s), TradeAt(t), t.a, VerdictAt(t, s).0, VerdictAt(t, s).1, s.delta);
    }
  }

  /** The moment of a run at which a row was stored. */
  function Origin(t: Trades, s: Setup, i: nat): Trades
    requires i < |DeskAfter(t, s).rows|
    ensures Origin(t, s, i).Fed?
  {
    if |DeskAfter(t.before, s).rows| <= i then t else Origin(t.before, s, i)
  }

  predicate Continues(t: Trades, u: Trades) {
    t == u || (t.Fed? && Continues(t.before, u))
  }

  /** Over every run of trades: each row this process stored, and the announcement with it,
      is the verdict on a buy of the run at its moment, and that verdict was a detection:
      enough wallets, and a window that beats the baseline. */
  lemma {:induction false} EveryRowWasDetected(t: Trades, s: Setup, i: nat)
    requires 0 < s.delta && i < |DeskAfter(t, s).rows|
    ensures var u := Origin(t, s, i);
            && Continues(t, u) && FateAt(u, s) == Announced
            && TradeAt(u).txType == "buy" && VerdictAt(u, s).1
            && i < |DeskAfter(t, s).announced| && DeskAfter(t, s).announced[i] == VerdictAt(u, s).0
            && DeskAfter(t, s).rows[i] == RecordOf(VerdictAt(u, s).0, TradeAt(u).at)
  {
    AlwaysSane(t, s);
    AlwaysSane(t.before, s);
    var d := DeskAfter(t.before, s);
    if FateAt(t, s) != Repeated {
      EndingMeans(s.earlier, d, TradeAt(t), t.a, VerdictAt(t, s).1, s.delta);
      BookedMeans(d, FateAt(t, s), TradeAt(t), t.a, VerdictAt(t, s).0, s.delta);
    }
    if i < |d.rows| { EveryRowWasDetected(t.before, s, i); }
  }

  /** One more trade: only an announcement adds a row and is announced, and both tell the
      verdict on the trade's mint, which was a detection. */
  lemma LatestTrade(t: Trades, s: Setup)
    requires t.Fed? && 0 < s.delta
    ensures var d, d' := DeskAfter(t.before, s), DeskAfter(t, s);
            if FateAt(t, s) == Announced then
              && VerdictAt(t, s).1
              && d'.rows == d.rows + [RecordOf(VerdictAt(t, s).0, TradeAt(t).at)]
              && d'.announced == d.announced + [VerdictAt(t, s).0]
            else d'.rows == d.rows && d'.announced == d.announced
  {
    var d := DeskAfter(t.before, s);
    AlwaysSane(t.before, s);
    EndingMeans(s.earlier, d, TradeAt(t), t.a, VerdictAt(t, s).1, s.delta);
    BookedMeans(d, FateAt(t, s), TradeAt(t), t.a, VerdictAt(t, s).0, s.delta);
  }

  /** What that says of the row itself. */
  lemma RowsBeatTheBaseline(t: Trades, s: Setup, i: nat)
    requires 0 < s.delta && i < |DeskAfter(t, s).rows|
    ensures var u := Origin(t, s, i);
            var x := StateInputs(StateAfter(BuyRun(CallsAfter(u.before, s, TradeAt(u).mint), TradeAt(u))), TradeAt(u).mint, TradeAt(u).at);
            var row := DeskAfter(t, s).rows[i];
            && Beats(s.cfg.spikeRatioMin, x.window, x.baseline)
            && s.cfg.walletMin <= row.uniqueWallets && row.uniqueWallets == x.wallets
            && Near(row.windowVolume, x.window) && Near(row.ratio, Ratio(x))
  {
    EveryRowWasDetected(t, s, i);
    var u := Origin(t, s, i);
    var x := StateInputs(StateAfter(BuyRun(CallsAfter(u.before, s, TradeAt(u).mint), TradeAt(u))), TradeAt(u).mint, TradeAt(u).at);
    DetectedIff(s.cfg, x);
    VerdictReports(s.cfg, x);
  }

  // ----- the processor in place -----

  class Processor {
    const tracker: Tracker
    const store: SpikeStore
    const minEmitDelta: int
    const dedupeWindow: int
    var lastSpikeAt: LastSpikes
    var txSigCache: Cache
    /** The results handed to the spike callback, in order. */
    var announced: seq<SpikeResult>
    /** The rows of the spike table from earlier processes, and the rows added since. */
    ghost const earlier: seq<SpikeRecord>
    ghost var rows: seq<SpikeRecord>
    /** The signature checks and the offered spikes so far. */
    ghost var checks: Checks
    ghost var offers: Offers

    ghost predicate Valid()
      reads this, store, tracker, tracker.Repr
    {
      && tracker.Valid()
      && this !in tracker.Repr && store !in tracker.Repr && tracker !in tracker.Repr
      && Books()
    }

    /** The processor's own records agree with each other. */
    ghost predicate Books()
      reads this, store
    {
      && 0 < dedupeWindow
      && txSigCache == CacheAfter(checks, dedupeWindow)
      && store.spikes == earlier + rows
      && Sane(View(), minEmitDelta)
    }

    ghost function View(): Desk
      reads this, store
    {
      Desk(store.snapshots, rows, announced, lastSpikeAt, offers)
    }

    constructor (tracker: Tracker, store: SpikeStore, minEmit: int, window: int)
      requires tracker.Valid() && store !in tracker.Repr && tracker !in tracker.Repr
      ensures Valid() && earlier == store.spikes && rows == [] && this.tracker == tracker && this.store == store
      ensures minEmitDelta == if minEmit <= 0 then 20 * SECOND else minEmit
      ensures dedupeWindow == if window <= 0 then 5 * MINUTE else window
      ensures checks == NoChecks && offers == NoOffers && announced == []
    {
      this.tracker, this.store, earlier, rows := tracker, store, store.spikes, [];
      minEmitDelta := if minEmit <= 0 then 20 * SECOND else minEmit;
      dedupeWindow := if window <= 0 then 5 * MINUTE else window;
      lastSpikeAt, txSigCache, announced := map[], map[], [];
      checks, offers := NoChecks, NoOffers;
    }

    method CheckAndMarkSigSeen(sig: string, now: int) returns (isNew: bool)
      requires txSigCache == CacheAfter(checks, dedupeWindow)
      modifies this`txSigCache, this`checks
      ensures checks == Check(old(checks), sig, now)
      ensures txSigCache == CacheAfter(checks, dedupeWindow)
      ensures isNew == Accepted(checks, dedupeWindow)
      ensures !isNew ==> txSigCache == old(txSigCache)
    {
      checks := Check(checks, sig, now);
      if sig in txSigCache {
        var lastSeen := txSigCache[sig];
        if now - lastSeen < dedupeWindow { return false; }
      }
      txSigCache := txSigCache[sig := now];
      if CACHE_LIMIT < |txSigCache| {
        txSigCache := Sweep(txSigCache, now - dedupeWindow);
      }
      return true;
    }

    /** Deletes expired entries in whatever order the map yields them. */
    static method Sweep(cache: Cache, cutoff: int) returns (kept: Cache)
      ensures kept == Unexpired(cache, cutoff)
    {
      kept := cache;
      var rest := cache.Keys;
      while rest != {}
        invariant rest <= cache.Keys
        invariant forall s :: s in kept <==> s in cache && (s in rest || cutoff <= cache[s])
        invariant forall s :: s in kept ==> kept[s] == cache[s]
        decreases rest
      {
        var s :| s in rest;
        if cache[s] < cutoff { kept := kept - {s}; }
        rest := rest - {s};
      }
    }

    /** Lets a spike through exactly when every earlier emission of its mint is at least the
        interval before it. */
    method ShouldEmitSpike(mint: string, at: int) returns (emit: bool)
      requires lastSpikeAt == LastAfter(offers, minEmitDelta) && 0 < minEmitDelta
      modifies this`lastSpikeAt, this`offers
      ensures offers == Offer(old(offers), mint, at)
      ensures lastSpikeAt == LastAfter(offers, minEmitDelta)
      ensures lastSpikeAt == AfterOffer(old(lastSpikeAt), mint, at, minEmitDelta)
      ensures emit == MayEmit(old(lastSpikeAt), mint, at, minEmitDelta)
      ensures var times := EmittedTimes(old(offers), mint, minEmitDelta);
              emit <==> forall i :: 0 <= i < |times| ==> times[i] + minEmitDelta <= at
    {
      ThrottleIsExact(offers, mint, at, minEmitDelta);
      offers := Offer(offers, mint, at);
      if mint in lastSpikeAt && at - lastSpikeAt[mint] < minEmitDelta { return false; }
      lastSpikeAt := lastSpikeAt[mint := at];
      return true;
    }

    /** The tail of a buy: throttle, record, announce. */
    method Announce(result: SpikeResult, at: int, spikeOk: bool) returns (fate: Fate)
      requires lastSpikeAt == LastAfter(offers, minEmitDelta) && 0 < minEmitDelta && store.spikes == earlier + rows
      modifies this`lastSpikeAt, this`offers, this`announced, this`rows, store`spikes
      ensures fate == if !MayEmit(old(lastSpikeAt), result.mint, at, minEmitDelta) then Muted
                      else if !spikeOk || HasID(old(store.spikes), BuildSpikeID(result.mint, at)) then SpikeFailed
                      else Announced
      ensures offers == Offer(old(offers), result.mint, at)
      ensures lastSpikeAt == AfterOffer(old(lastSpikeAt), result.mint, at, minEmitDelta)
      ensures announced == if fate == Announced then old(announced) + [result] else old(announced)
      ensures rows == (if fate == Announced then old(rows) + [RecordOf(result, at)] else old(rows))
      ensures store.spikes == earlier + rows
    {
      var emit := ShouldEmitSpike(result.mint, at);
      if !emit { return Muted; }
      var record := SpikeRecord(
        BuildSpikeID(result.mint, at), result.mint, result.name, result.symbol, result.ratio, result.windowVolumeSOL,
        result.baselinePer5mSOL, result.marketCapSOL, result.uniqueWallets, result.tokenCreatedAt, result.tokenAgeSeconds,
        result.floorConfidence, result.entryScore, result.entryGrade, at);
      var stored := store.InsertSpikeEvent(record, spikeOk);
      if !stored { return SpikeFailed; }
      announced, rows := announced + [result], rows + [record];
      return Announced;
    }

    /** Feeds a buy to the tracker and takes the verdict. */
    method Assess(trade: TradeEvent) returns (result: SpikeResult, detected: bool)
      requires tracker.Valid() && tracker !in tracker.Repr && this !in tracker.Repr && store !in tracker.Repr
      modifies tracker, tracker.Repr
      ensures tracker.Valid() && tracker !in tracker.Repr
      ensures View() == old(View())
      ensures old(tracker.Repr) <= tracker.Repr && fresh(tracker.Repr - old(tracker.Repr))
      ensures (result, detected) == BuyVerdict(tracker.Settings(), old(tracker.RunOf(trade.mint)), trade)
      ensures result.mint == trade.mint && result.detectedAt == trade.at
      ensures forall m :: tracker.RunOf(m) ==
                if m == trade.mint then BuyRun(old(tracker.RunOf(m)), trade) else old(tracker.RunOf(m))
    {
      tracker.AddEvent(trade);
      result, detected := tracker.Evaluate(trade.mint, trade.at);
    }

    /** Stores the snapshot of a buy and, when its spike is let through, the record. */
    method Record(trade: TradeEvent, result: SpikeResult, detected: bool, a: Answers) returns (fate: Fate)
      requires Books() && trade.txType == "buy" && result.mint == trade.mint && result.detectedAt == trade.at
      modifies this`lastSpikeAt, this`offers, this`announced, this`rows, store
      ensures Books() && fate !in {Repeated, Ignored, Created}
      ensures fate == Ending(earlier, old(View()), trade, a, detected, minEmitDelta)
      ensures View() == Booked(old(View()), fate, trade, a, result, minEmitDelta)
    {
      BookedStaysSane(earlier, View(), trade, a, result, detected, minEmitDelta);
      var saved := store.InsertVolumeSnapshot(
        Snapshot(trade.mint, trade.at - WINDOW, trade.at, result.windowVolumeSOL, result.uniqueWallets), a.snapshotOk);
      if !saved { return SnapshotFailed; }
      if !detected { return Quiet; }
      fate := Announce(result, trade.at, a.spikeOk);
    }

    /** Recording leaves the tracker alone. */
    method RecordOnly(trade: TradeEvent, result: SpikeResult, detected: bool, a: Answers) returns (fate: Fate)
      requires Valid() && trade.txType == "buy" && result.mint == trade.mint && result.detectedAt == trade.at
      modifies this`lastSpikeAt, this`offers, this`announced, this`rows, store
      ensures Valid() && fate !in {Repeated, Ignored, Created}
      ensures forall m :: tracker.RunOf(m) == old(tracker.RunOf(m))
      ensures fate == Ending(earlier, old(View()), trade, a, detected, minEmitDelta)
      ensures View() == Booked(old(View()), fate, trade, a, result, minEmitDelta)
    {
      fate := Record(trade, result, detected, a);
    }

    /** What the handling of a trade that is no repetition does, given the verdict on its
        mint: how it ends, and the books after it. */
    twostate predicate Handled(fate: Fate, trade: TradeEvent, a: Answers, verdict: (SpikeResult, bool))
      reads this, store
    {
      && fate == Ending(earlier, old(View()), trade, a, verdict.1, minEmitDelta)
      && View() == Booked(old(View()), fate, trade, a, verdict.0, minEmitDelta)
    }

    /** Extends the run of the trade's mint and no other. */
    twostate predicate Extended(fate: Fate, trade: TradeEvent)
      reads tracker, tracker.states.Values
    {
      forall m :: tracker.RunOf(m) ==
        if m == trade.mint then RunAfter(fate, old(tracker.RunOf(m)), trade) else old(tracker.RunOf(m))
    }

    method ProcessBuy(trade: TradeEvent, a: Answers) returns (fate: Fate)
      requires Valid() && trade.txType == "buy"
      modifies this`lastSpikeAt, this`offers, this`announced, this`rows, store, tracker, tracker.Repr
      ensures Valid() && fate !in {Repeated, Ignored, Created}
      ensures fresh(tracker.Repr - old(tracker.Repr))
      ensures forall m :: tracker.RunOf(m) ==
                if m == trade.mint then BuyRun(old(tracker.RunOf(m)), trade) else old(tracker.RunOf(m))
      ensures Handled(fate, trade, a, BuyVerdict(tracker.Settings(), old(tracker.RunOf(trade.mint)), trade))
    {
      var result, detected := Assess(trade);
      fate := RecordOnly(trade, result, detected, a);
    }

    method ProcessCreate(trade: TradeEvent)
      requires Valid()
      modifies tracker, tracker.Repr
      ensures Valid() && View() == old(View())
      ensures fresh(tracker.Repr - old(tracker.Repr))
      ensures forall m :: tracker.RunOf(m) == if m == trade.mint then Then(old(tracker.RunOf(m)), Add(trade)) else old(tracker.RunOf(m))
    {
      tracker.AddEvent(trade);
    }

    /** A trade that is no repetition: creations only feed the tracker, other kinds than
        buys are ignored, and a buy is assessed and recorded. */
    method ProcessTrade(trade: TradeEvent, a: Answers) returns (fate: Fate)
      requires Valid()
      modifies this`lastSpikeAt, this`offers, this`announced, this`rows, store, tracker, tracker.Repr
      ensures Valid() && fate != Repeated && Extended(fate, trade)
      ensures fresh(tracker.Repr - old(tracker.Repr))
      ensures Handled(fate, trade, a, BuyVerdict(tracker.Settings(), old(tracker.RunOf(trade.mint)), trade))
    {
      if trade.txType == "create" {
        ProcessCreate(trade);
        fate := Created;
      } else if trade.txType == "buy" {
        fate := ProcessBuy(trade, a);
      } else {
        fate := Ignored;
      }
    }

    /** Drops a trade whose signature was seen within the window; a trade without a
        signature is never dropped. */
    method PassesDedupe(sig: string, now: int) returns (pass: bool)
      requires Valid()
      modifies this`txSigCache, this`checks
      ensures Valid()
      ensures pass == (sig == "" || !Duplicate(old(txSigCache), sig, now, dedupeWindow))
      ensures checks == if sig == "" then old(checks) else Check(old(checks), sig, now)
      ensures !pass ==> txSigCache == old(txSigCache)
      ensures View() == old(View()) && store.spikes == old(store.spikes)
      ensures forall m :: tracker.RunOf(m) == old(tracker.RunOf(m))
    {
      pass := true;
      if sig != "" {
        pass := CheckAndMarkSigSeen(sig, now);
      }
    }

    static method ToTrade(ev: FeedEvent, wallClock: int) returns (trade: TradeEvent)
      ensures trade == TradeOf(ev, wallClock)
    {
      var at := ev.timestamp;
      if at == 0 { at := wallClock; }
      var kind := NormalizeTxType(ev.txType);
      trade := TradeEvent(ev.mint, ev.name, ev.symbol, ev.trader, ev.volumeSOL, ev.marketCapSOL, kind, at);
      if kind == "create" { trade := trade.(volumeSOL := 0.0, wallet := ""); }
    }

    /** A trade with its signature, up to what its ending means. */
    method HandleEvent(sig: string, trade: TradeEvent, a: Answers) returns (fate: Fate)
      requires Valid()
      modifies this, store, tracker, tracker.Repr
      ensures Valid() && fresh(tracker.Repr - old(tracker.Repr))
      ensures fate == Repeated <==> sig != "" && Duplicate(old(txSigCache), sig, a.sigClock, dedupeWindow)
      ensures checks == if sig == "" then old(checks) else Check(old(checks), sig, a.sigClock)
      ensures Extended(fate, trade)
      ensures fate == Repeated ==> txSigCache == old(txSigCache) && View() == old(View())
      ensures fate != Repeated ==>
                Handled(fate, trade, a, BuyVerdict(tracker.Settings(), old(tracker.RunOf(trade.mint)), trade))
    {
      var pass := PassesDedupe(sig, a.sigClock);
      if !pass { return Repeated; }
      fate := ProcessTrade(trade, a);
    }

    /** What its ending means, in terms of the verdict on the trade's mint. */
    method SettleEvent(sig: string, trade: TradeEvent, a: Answers) returns (fate: Fate)
      requires Valid()
      modifies this, store, tracker, tracker.Repr
      ensures Valid() && fresh(tracker.Repr - old(tracker.Repr))
      ensures fate == Repeated <==> sig != "" && Duplicate(old(txSigCache), sig, a.sigClock, dedupeWindow)
      ensures checks == if sig == "" then old(checks) else Check(old(checks), sig, a.sigClock)
      ensures Extended(fate, trade)
      ensures fate == Repeated ==> txSigCache == old(txSigCache) && View() == old(View())
      ensures fate != Repeated ==> Handled(fate, trade, a, OldVerdict(trade))
      ensures Settled(fate, trade, a)
    {
      ghost var book := View();
      ghost var verdict := BuyVerdict(tracker.Settings(), tracker.RunOf(trade.mint), trade);
      EndingMeans(earlier, book, trade, a, verdict.1, minEmitDelta);
      fate := HandleEvent(sig, trade, a);
      BookedMeans(book, fate, trade, a, verdict.0, minEmitDelta);
    }

    /** The verdict on the trade's mint, as a buy, given the calls about it before. */
    twostate function OldVerdict(trade: TradeEvent): (SpikeResult, bool)
      reads tracker, tracker.states.Values
    {
      BuyVerdict(tracker.Settings(), old(tracker.RunOf(trade.mint)), trade)
    }

    /** Only a detection is announced; a buy whose snapshot is stored ends quietly exactly
        when it is none; and without a detection rows, announcements and throttle stay. */
    twostate predicate Settled(fate: Fate, trade: TradeEvent, a: Answers)
      reads this, tracker, tracker.states.Values
    {
      && (fate == Announced ==> OldVerdict(trade).1)
      && (fate != Repeated && trade.txType == "buy" && a.snapshotOk ==> (fate == Quiet <==> !OldVerdict(trade).1))
      && (fate !in {Muted, SpikeFailed, Announced} ==>
            rows == old(rows) && announced == old(announced) && lastSpikeAt == old(lastSpikeAt) && offers == old(offers))
    }

    /** One trade from any feed. A repeated signature changes nothing but the ghost record
        of the check; every other trade goes through ProcessTrade. */
    method ProcessEvent(ev: FeedEvent, a: Answers) returns (fate: Fate)
      requires Valid()
      modifies this, store, tracker, tracker.Repr
      ensures Valid() && fresh(tracker.Repr - old(tracker.Repr))
      ensures fate == Repeated <==> ev.signature != "" && Duplicate(old(txSigCache), ev.signature, a.sigClock, dedupeWindow)
      ensures checks == if ev.signature == "" then old(checks) else Check(old(checks), ev.signature, a.sigClock)
      ensures Extended(fate, TradeOf(ev, a.wallClock))
      ensures fate == Repeated ==> txSigCache == old(txSigCache) && View() == old(View())
      ensures fate != Repeated ==> Handled(fate, TradeOf(ev, a.wallClock), a, OldVerdict(TradeOf(ev, a.wallClock)))
      ensures Settled(fate, TradeOf(ev, a.wallClock), a)
    {
      var trade := ToTrade(ev, a.wallClock);
      fate := SettleEvent(ev.signature, trade, a);
    }
  }
}
