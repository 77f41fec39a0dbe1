/** The trade tracker: reference counts of watched mints, a bounded queue of subscription
    changes, and a connection whose writer first sends a snapshot of the tracked mints and
    then drains the queue. A count change with its enqueueing is one atomic step. */
module Subscriptions {
  import opened Text

  type Mint = string

  const QUEUE_CAPACITY := 128

  datatype Change = Subscribe(mint: Mint) | Unsubscribe(mint: Mint)

  /** The link to the feed: what the feed is subscribed to, and which mints of the
      connection's snapshot are not written yet. */
  datatype Link = Down | Up(upstream: set<Mint>, pending: set<Mint>)

  /** A mint is tracked with at least one watcher. */
  type Count = n: nat | 0 < n witness 1

  datatype State = State(counts: map<Mint, Count>, queue: seq<Change>, link: Link)

  const INITIAL := State(map[], [], Down)

  // ----- the steps -----

  function Pushed(queue: seq<Change>, c: Change): seq<Change> {
    if |queue| < QUEUE_CAPACITY then queue + [c] else queue
  }

  function CountOf(counts: map<Mint, Count>, m: Mint): nat {
    if m in counts then counts[m] else 0
  }

  function Added(s: State, raw: string): State {
    var m := TrimSpace(raw);
    if m == "" then s
    else
      var n := CountOf(s.counts, m) + 1;
      s.(counts := s.counts[m := n], queue := if n == 1 then Pushed(s.queue, Subscribe(m)) else s.queue)
  }

  function Removed(s: State, raw: string): State {
    var m := TrimSpace(raw);
    if m == "" || m !in s.counts then s
    else if s.counts[m] <= 1 then s.(counts := s.counts - {m}, queue := Pushed(s.queue, Unsubscribe(m)))
    else s.(counts := s.counts[m := s.counts[m] - 1])
  }

  /** A watch counts one more watcher of its mint and an unwatch one less, down to none; no
      other mint is touched, and only a first or last watcher is put in the queue. */
  lemma CountsMove(s: State, raw: string)
    ensures var m, t, u := TrimSpace(raw), Added(s, raw), Removed(s, raw);
            var n := CountOf(s.counts, m);
            && (m == "" ==> t == s && u == s)
            && (m != "" ==> CountOf(t.counts, m) == n + 1)
            && (m != "" ==> CountOf(u.counts, m) == if 0 < n then n - 1 else 0)
            && (forall x :: x != m ==> CountOf(t.counts, x) == CountOf(s.counts, x) == CountOf(u.counts, x))
            && t.queue == (if m != "" && n == 0 && |s.queue| < 128 then s.queue + [Subscribe(m)] else s.queue)
            && u.queue == (if m != "" && n == 1 && |s.queue| < 128 then s.queue + [Unsubscribe(m)] else s.queue)
  {
  }

  function Effect(upstream: set<Mint>, c: Change): set<Mint> {
    match c
    case Subscribe(m) => upstream + {m}
    case Unsubscribe(m) => upstream - {m}
  }

  /** The steps. A write that fails breaks the connection, and the change it carried is
      gone. While the connection is down a writer that has not stopped yet may still take
      a change and lose it. */
  datatype Step =
    | Watch(raw: string)
    | Unwatch(raw: string)
    | Connect
    | WriteSnapshot(mint: Mint)
    | Drain
    | FailedDrain
    | Disconnect
    | LateTake

  predicate Enabled(s: State, step: Step) {
    match step
    case Watch(_) => true
    case Unwatch(_) => true
    case Connect => s.link.Down?
    case WriteSnapshot(m) => s.link.Up? && m in s.link.pending
    case Drain => s.link.Up? && s.link.pending == {} && s.queue != []
    case FailedDrain => s.link.Up? && s.link.pending == {} && s.queue != []
    case Disconnect => s.link.Up?
    case LateTake => s.link.Down? && s.queue != []
  }

  function Perform(s: State, step: Step): State
    requires Enabled(s, step)
  {
    match step
    case Watch(raw) => Added(s, raw)
    case Unwatch(raw) => Removed(s, raw)
    case Connect => s.(link := Up({}, s.counts.Keys))
    case WriteSnapshot(m) => s.(link := Up(s.link.upstream + {m}, s.link.pending - {m}))
    case Drain => s.(queue := s.queue[1..], link := s.link.(upstream := Effect(s.link.upstream, s.queue[0])))
    case FailedDrain => s.(queue := s.queue[1..], link := Down)
    case Disconnect => s.(link := Down)
    case LateTake => s.(queue := s.queue[1..])
  }

  // ----- the invariant -----

  /** The subscriptions after replaying a queue of changes, oldest first. */
  function Replayed(upstream: set<Mint>, queue: seq<Change>): set<Mint> {
    if queue == [] then upstream
    else Effect(Replayed(upstream, queue[..|queue| - 1]), queue[|queue| - 1])
  }

  /** Replaying the queue onto what the feed has, or will have after the snapshot, gives
      exactly the tracked mints; with the connection down, onto the snapshot it would
      start from. */
  ghost predicate Converging(s: State) {
    Replayed(if s.link.Up? then s.link.upstream + s.link.pending else s.counts.Keys, s.queue) == s.counts.Keys
  }

  /** The queue can take a change about a mint: it has room, or, with the connection down,
      it holds no older change about the mint that a missing one would leave standing. */
  predicate Recordable(s: State, m: Mint) {
    |s.queue| < QUEUE_CAPACITY || (s.link.Down? && !Mentions(s.queue, m))
  }

  predicate Mentions(queue: seq<Change>, m: Mint) {
    exists i :: 0 <= i < |queue| && queue[i].mint == m
  }

  /** Whether a step changes which mints are tracked, and then which mint. */
  predicate Flips(s: State, step: Step, m: Mint) {
    match step
    case Watch(raw) => m == TrimSpace(raw) && m != "" && m !in s.counts
    case Unwatch(raw) => m == TrimSpace(raw) && m != "" && m in s.counts && s.counts[m] <= 1
    case _ => false
  }

  lemma {:induction false} ReplayedAt(u: set<Mint>, v: set<Mint>, queue: seq<Change>, m: Mint)
    ensures Mentions(queue, m) ==> (m in Replayed(u, queue) <==> m in Replayed(v, queue))
    ensures !Mentions(queue, m) ==> (m in Replayed(u, queue) <==> m in u) && (m in Replayed(v, queue) <==> m in v)
  {
    if queue != [] {
      var n := |queue| - 1;
      ReplayedAt(u, v, queue[..n], m);
      assert Mentions(queue, m) <==> Mentions(queue[..n], m) || queue[n].mint == m by {
        if Mentions(queue[..n], m) {
          var i :| 0 <= i < n && queue[..n][i].mint == m;
          assert queue[i].mint == m;
        }
        if Mentions(queue, m) && queue[n].mint != m {
          var i :| 0 <= i < |queue| && queue[i].mint == m;
          assert queue[..n][i].mint == m;
        }
      }
    }
  }

  lemma {:induction false} ReplayedFromHead(u: set<Mint>, queue: seq<Change>)
    requires queue != []
    ensures Replayed(u, queue) == Replayed(Effect(u, queue[0]), queue[1..])
  {
    var n := |queue| - 1;
    if n == 0 {
      assert queue[..0] == [] && queue[1..] == [];
    } else {
      ReplayedFromHead(u, queue[..n]);
      assert queue[..n][1..] == queue[1..][..n - 1];
    }
  }

  lemma ReplayedSnoc(u: set<Mint>, queue: seq<Change>, c: Change)
    ensures Replayed(u, queue + [c]) == Effect(Replayed(u, queue), c)
  {
    assert (queue + [c])[..|queue|] == queue;
  }

  /** Dropping the oldest change of a queue that converges on a set still converges on it
      from that set: what the queue says last about a mint is what counts. */
  lemma StaleHeadHarmless(u: set<Mint>, queue: seq<Change>, target: set<Mint>)
    requires queue != [] && Replayed(u, queue) == target
    ensures Replayed(target, queue[1..]) == target
  {
    ReplayedFromHead(u, queue);
    forall m ensures m in Replayed(target, queue[1..]) <==> m in target {
      ReplayedAt(Effect(u, queue[0]), target, queue[1..], m);
    }
  }

  lemma SnapshotAbsorbs(u: set<Mint>, queue: seq<Change>, target: set<Mint>)
    requires Replayed(u, queue) == target
    ensures Replayed(target, queue) == target
  {
    forall m ensures m in Replayed(target, queue) <==> m in target {
      ReplayedAt(u, target, queue, m);
    }
  }

  /** A membership change keeps the tracker converging exactly when it can be recorded. */
  lemma FlipConvergesIff(s: State, step: Step, m: Mint)
    requires Converging(s) && Flips(s, step, m)
    ensures Converging(Perform(s, step)) <==> Recordable(s, m)
  {
    var t := Perform(s, step);
    var base := if s.link.Up? then s.link.upstream + s.link.pending else s.counts.Keys;
    var base' := if t.link.Up? then t.link.upstream + t.link.pending else t.counts.Keys;
    var c := if step.Watch? then Subscribe(m) else Unsubscribe(m);
    if step.Watch? {
      assert t.counts.Keys == s.counts.Keys + {m};
    } else {
      assert t.counts.Keys == s.counts.Keys - {m};
    }
    if |s.queue| < QUEUE_CAPACITY {
      assert t.queue == s.queue + [c];
      ReplayedSnoc(base, s.queue, c);
      if s.link.Down? {
        SnapshotAbsorbs(base, t.queue, t.counts.Keys);
      }
    } else {
      assert t.queue == s.queue;
      ReplayedAt(base, base', s.queue, m);
      if s.link.Down? && !Mentions(s.queue, m) {
        forall x ensures x in Replayed(base', s.queue) <==> x in t.counts.Keys {
          ReplayedAt(base, base', s.queue, x);
        }
      }
      assert m in s.counts.Keys <==> m !in t.counts.Keys;
    }
  }

  /** Every other step keeps the tracker converging, whatever it loses. */
  lemma OtherStepsConverge(s: State, step: Step)
    requires Enabled(s, step) && Converging(s) && forall m :: !Flips(s, step, m)
    ensures Converging(Perform(s, step))
  {
    var t := Perform(s, step);
    match step
    case Watch(raw) =>
      assert !Flips(s, step, TrimSpace(raw));
      assert t.counts.Keys == s.counts.Keys && t.queue == s.queue;
    case Unwatch(raw) =>
      assert !Flips(s, step, TrimSpace(raw));
      assert t.counts.Keys == s.counts.Keys && t.queue == s.queue;
    case Connect =>
      assert {} + s.counts.Keys == s.counts.Keys;
    case WriteSnapshot(m) =>
      assert t.link.upstream + t.link.pending == s.link.upstream + s.link.pending;
    case Drain =>
      assert s.link.upstream + s.link.pending == s.link.upstream;
      assert t.link.upstream + t.link.pending == t.link.upstream;
      ReplayedFromHead(s.link.upstream, s.queue);
    case FailedDrain =>
      StaleHeadHarmless(s.link.upstream + s.link.pending, s.queue, s.counts.Keys);
    case Disconnect =>
      SnapshotAbsorbs(s.link.upstream + s.link.pending, s.queue, s.counts.Keys);
    case LateTake =>
      StaleHeadHarmless(s.counts.Keys, s.queue, s.counts.Keys);
  }

  // ----- runs -----

  datatype Run = Start | Then(before: Run, step: Step)

  predicate Legal(run: Run)
    decreases run, 0
  {
    run.Then? ==> Legal(run.before) && Enabled(After(run.before), run.step)
  }

  function After(run: Run): State
    requires Legal(run)
    decreases run, 1
  {
    if run.Start? then INITIAL else Perform(After(run.before), run.step)
  }

  /** No change was dropped by a full queue in a way that matters. */
  ghost predicate AllRecordable(run: Run)
    requires Legal(run)
  {
    run.Then? ==>
      && AllRecordable(run.before)
      && forall m :: Flips(After(run.before), run.step, m) ==> Recordable(After(run.before), m)
  }

  /** Every change since an earlier point of the run could be recorded. */
  ghost predicate RecordableSince(run: Run, from: Run)
    requires Legal(run)
  {
    run == from ||
    (run.Then?
     && RecordableSince(run.before, from)
     && forall m :: Flips(After(run.before), run.step, m) ==> Recordable(After(run.before), m))
  }

  lemma {:induction false} AllRecordableIsSinceStart(run: Run)
    requires Legal(run) && AllRecordable(run)
    ensures RecordableSince(run, Start)
  {
    if run.Then? { AllRecordableIsSinceStart(run.before); }
  }

  lemma StartConverges()
    ensures Legal(Start) && Converging(After(Start))
  {
  }

  lemma {:induction false} ConvergesSince(run: Run, from: Run)
    requires Legal(run) && Legal(from) && RecordableSince(run, from) && Converging(After(from))
    ensures Converging(After(run))
  {
    if run != from {
      ConvergesSince(run.before, from);
      var s := After(run.before);
      if m :| Flips(s, run.step, m) {
        FlipConvergesIff(s, run.step, m);
      } else {
        OtherStepsConverge(s, run.step);
      }
    }
  }

  /** The invariant holds in every run of watches, writes, failures, disconnects and
      reconnects in which the queue could take every change. */
  lemma AlwaysConverging(run: Run)
    requires Legal(run) && AllRecordable(run)
    ensures Converging(After(run))
  {
    AllRecordableIsSinceStart(run);
    StartConverges();
    ConvergesSince(run, Start);
  }

  /** The convergence theorem: once the snapshot is written and the queue drained, the feed
      is subscribed to exactly the tracked mints, even when changes older than the
      snapshot were replayed after it. It is enough that every change could be recorded
      since a point of the run at which the tracker converged. */
  lemma DrainedMeansExactSince(run: Run, from: Run)
    requires Legal(run) && Legal(from) && RecordableSince(run, from) && Converging(After(from))
    requires After(run).link.Up? && After(run).link.pending == {} && After(run).queue == []
    ensures After(run).link.upstream == After(run).counts.Keys
  {
    ConvergesSince(run, from);
    assert After(run).link.upstream + {} == After(run).link.upstream;
  }

  lemma DrainedMeansExact(run: Run)
    requires Legal(run) && AllRecordable(run)
    requires After(run).link.Up? && After(run).link.pending == {} && After(run).queue == []
    ensures After(run).link.upstream == After(run).counts.Keys
  {
    AllRecordableIsSinceStart(run);
    StartConverges();
    DrainedMeansExactSince(run, Start);
  }

  /** Whatever was lost before, a new connection's snapshot heals the tracker exactly when
      the queue, replayed on nothing, gives for every mint it mentions what is tracked: in
      particular always when the queue is empty. */
  lemma ConnectHealsIff(s: State)
    requires s.link.Down?
    ensures Converging(Perform(s, Connect)) <==>
              forall m :: Mentions(s.queue, m) ==> (m in Replayed({}, s.queue) <==> m in s.counts)
    ensures s.queue == [] ==> Converging(Perform(s, Connect))
  {
    var keys := s.counts.Keys;
    assert {} + keys == keys;
    forall m
      ensures (m in Replayed(keys, s.queue) <==> m in keys) <==>
                (Mentions(s.queue, m) ==> (m in Replayed({}, s.queue) <==> m in keys))
    {
      ReplayedAt(keys, {}, s.queue, m);
    }
    if forall m :: Mentions(s.queue, m) ==> (m in Replayed({}, s.queue) <==> m in keys) {
      assert Replayed(keys, s.queue) == keys;
    }
  }

  /** So a subscription lost to a full queue comes back with a new connection. */
  lemma ExactAfterHealing(run: Run, before: Run)
    requires Legal(run) && Legal(before) && After(before).link.Down?
    requires forall m :: Mentions(After(before).queue, m) ==>
               (m in Replayed({}, After(before).queue) <==> m in After(before).counts)
    requires RecordableSince(run, Then(before, Connect))
    requires After(run).link.Up? && After(run).link.pending == {} && After(run).queue == []
    ensures After(run).link.upstream == After(run).counts.Keys
  {
    ConnectHealsIff(After(before));
    DrainedMeansExactSince(run, Then(before, Connect));
  }

  function Drains(s: State, n: nat): (t: State)
    requires s.link.Up? && s.link.pending == {} && n <= |s.queue|
    ensures t.link.Up?
    decreases n
  {
    if n == 0 then s else Drains(Perform(s, Drain), n - 1)
  }

  lemma {:induction false} DrainsReplay(s: State)
    requires s.link.Up? && s.link.pending == {}
    ensures var t := Drains(s, |s.queue|);
            t.link == Up(Replayed(s.link.upstream, s.queue), {}) && t.queue == [] && t.counts == s.counts
    decreases |s.queue|
  {
    if s.queue != [] {
      ReplayedFromHead(s.link.upstream, s.queue);
      DrainsReplay(Perform(s, Drain));
    }
  }

  /** A full queue really loses: watching a new mint while connected and then draining
      everything leaves it tracked but never subscribed. */
  lemma OverflowLoses(s: State, raw: string)
    requires s.link.Up? && s.link.pending == {} && Converging(s) && |s.queue| == QUEUE_CAPACITY
    requires Flips(s, Watch(raw), TrimSpace(raw))
    ensures var t := Added(s, raw);
            && t.link == s.link && t.queue == s.queue
            && TrimSpace(raw) in t.counts
            && TrimSpace(raw) !in Drains(t, |t.queue|).link.upstream
  {
    var t := Added(s, raw);
    DrainsReplay(t);
    assert s.link.upstream + s.link.pending == s.link.upstream;
  }

  /** A run that connects and then watches n different mints while the writer stands still. */
  function Burst(n: nat): Run {
    if n == 0 then Then(Start, Connect) else Then(Burst(n - 1), Watch(Digits(n)))
  }

  /** The state after a burst that the queue could take in full. */
  ghost predicate Queued(s: State, n: nat) {
    && s.link == Up({}, {})
    && |s.queue| == n
    && forall m :: m in s.counts ==> OneOfFirst(m, n)
  }

  ghost predicate OneOfFirst(m: Mint, n: nat) {
    exists k: nat :: k <= n && m == Digits(k)
  }

  lemma NextMintIsNew(s: State, n: nat)
    requires Queued(s, n)
    ensures Digits(n + 1) !in s.counts
    ensures TrimSpace(Digits(n + 1)) == Digits(n + 1) && Digits(n + 1) != ""
  {
    DigitsAreTrimmed(n + 1);
    if Digits(n + 1) in s.counts {
      assert OneOfFirst(Digits(n + 1), n);
      var k: nat :| k <= n && Digits(n + 1) == Digits(k);
      DigitsInjective(n + 1, k);
    }
  }

  lemma WatchNextMint(s: State, n: nat)
    requires Queued(s, n) && n < QUEUE_CAPACITY
    ensures Queued(Added(s, Digits(n + 1)), n + 1)
  {
    NextMintIsNew(s, n);
    assert OneOfFirst(Digits(n + 1), n + 1);
    forall m | m in s.counts ensures OneOfFirst(m, n + 1) {
      assert OneOfFirst(m, n);
    }
  }

  /** Up to the queue's capacity a burst is queued in full. */
  lemma {:induction false} BurstFillsQueue(n: nat)
    requires n <= QUEUE_CAPACITY
    ensures Legal(Burst(n)) && AllRecordable(Burst(n)) && Queued(After(Burst(n)), n)
  {
    if n == 0 {
      assert Legal(Start) && After(Start) == INITIAL;
    } else {
      BurstFillsQueue(n - 1);
      WatchNextMint(After(Burst(n - 1)), n - 1);
    }
  }

  /** The run continued by n changes that the writer takes. */
  function Drained(run: Run, n: nat): Run {
    if n == 0 then run else Then(Drained(run, n - 1), Drain)
  }

  lemma {:induction false} DrainedRun(run: Run, n: nat)
    requires Legal(run) && After(run).link.Up? && After(run).link.pending == {} && n <= |After(run).queue|
    ensures Legal(Drained(run, n))
    ensures var s, t := After(run), After(Drained(run, n));
            t.link.Up? && t.link.pending == {} && t.queue == s.queue[n..] && t.counts == s.counts
            && Drains(t, |s.queue| - n) == Drains(s, |s.queue|)
  {
    if 0 < n { DrainedRun(run, n - 1); }
  }

  /** A run that loses a subscription: 129 mints are watched before the writer takes the
      first change, and when it has taken them all the last mint is tracked and not
      subscribed. */
  lemma OverflowLosesSubscription()
    ensures QUEUE_CAPACITY == 128
    ensures var run := Drained(Burst(QUEUE_CAPACITY + 1), QUEUE_CAPACITY);
            var mint := Digits(QUEUE_CAPACITY + 1);
            && Legal(run)
            && After(run).link.Up? && After(run).link.pending == {} && After(run).queue == []
            && mint in After(run).counts && mint !in After(run).link.upstream
  {
    BurstFillsQueue(QUEUE_CAPACITY);
    BurstOverflows(QUEUE_CAPACITY);
  }

  lemma BurstOverflows(n: nat)
    requires Legal(Burst(n)) && AllRecordable(Burst(n)) && Queued(After(Burst(n)), n)
    requires QUEUE_CAPACITY <= n && |After(Burst(n)).queue| <= QUEUE_CAPACITY
    ensures var run := Drained(Burst(n + 1), n);
            && Legal(run)
            && After(run).link.Up? && After(run).link.pending == {} && After(run).queue == []
            && Digits(n + 1) in After(run).counts && Digits(n + 1) !in After(run).link.upstream
  {
    AlwaysConverging(Burst(n));
    NextMintIsNew(After(Burst(n)), n);
    OverflowLoses(After(Burst(n)), Digits(n + 1));
    DrainedRun(Burst(n + 1), n);
  }

  /** Why a writer must be gone before the next connection's snapshot is taken: a change it
      took and lost after that keeps the tracker converging only if a younger change about
      the same mint is queued, or the feed has, or will have after the snapshot, what the
      change asked for. */
  lemma LateTakeWhileUpConvergesIff(s: State)
    requires s.link.Up? && s.queue != [] && Converging(s)
    ensures var base := s.link.upstream + s.link.pending;
            Converging(s.(queue := s.queue[1..])) <==>
            Mentions(s.queue[1..], s.queue[0].mint) || Effect(base, s.queue[0]) == base
  {
    var base := s.link.upstream + s.link.pending;
    var c, rest := s.queue[0], s.queue[1..];
    ReplayedFromHead(base, s.queue);
    ReplayedAt(base, Effect(base, c), rest, c.mint);
    if Mentions(rest, c.mint) {
      forall x ensures x in Replayed(base, rest) <==> x in s.counts.Keys {
        ReplayedAt(base, Effect(base, c), rest, x);
      }
    }
  }

  // ----- the tracker in place -----

  datatype TradeMetric = TradeMetric(mint: Mint, buyVolumeSOL: real, buyCount: nat, lastTradeAt: int, updatedAt: int)

  function NoTrades(mint: Mint): TradeMetric {
    TradeMetric(mint, 0.0, 0, 0, 0)
  }

  class TradeTracker {
    var watcherCounts: map<Mint, Count>
    var metrics: map<Mint, TradeMetric>
    var changeReq: seq<Change>
    var link: Link
    const enabled: bool

    ghost function View(): State
      reads this
    {
      State(watcherCounts, changeReq, link)
    }

    constructor (enabled: bool)
      ensures View() == INITIAL && metrics == map[] && this.enabled == enabled
    {
      watcherCounts, metrics, changeReq, link := map[], map[], [], Down;
      this.enabled := enabled;
    }

    /** The non-blocking send on the change channel. */
    method Send(c: Change)
      modifies this`changeReq
      ensures changeReq == Pushed(old(changeReq), c)
    {
      if |changeReq| < QUEUE_CAPACITY { changeReq := changeReq + [c]; }
    }

    method AddWatch(raw: string)
      modifies this`watcherCounts, this`changeReq
      ensures View() == if enabled then Added(old(View()), raw) else old(View())
      ensures enabled && TrimSpace(raw) != "" ==>
                CountOf(watcherCounts, TrimSpace(raw)) == CountOf(old(watcherCounts), TrimSpace(raw)) + 1
    {
      var mint := TrimSpace(raw);
      if mint == "" || !enabled { return; }
      watcherCounts := watcherCounts[mint := (if mint in watcherCounts then watcherCounts[mint] else 0) + 1];
      var count := watcherCounts[mint];
      if 1 < count { return; }
      Send(Subscribe(mint));
    }

    /** Forgets a mint's trade figures with its last watcher. */
    method RemoveWatch(raw: string)
      modifies this`watcherCounts, this`changeReq, this`metrics
      ensures View() == if enabled then Removed(old(View()), raw) else old(View())
      ensures enabled && TrimSpace(raw) in old(watcherCounts) && TrimSpace(raw) != "" ==>
                CountOf(watcherCounts, TrimSpace(raw)) + 1 == CountOf(old(watcherCounts), TrimSpace(raw))
      ensures metrics == if enabled && Flips(old(View()), Unwatch(raw), TrimSpace(raw))
                         then old(metrics) - {TrimSpace(raw)} else old(metrics)
    {
      var mint := TrimSpace(raw);
      if mint == "" || !enabled { return; }
      if mint !in watcherCounts { return; }
      var count: int := watcherCounts[mint] as int - 1;
      if count <= 0 {
        watcherCounts := watcherCounts - {mint};
        metrics := metrics - {mint};
      } else {
        watcherCounts := watcherCounts[mint := count];
      }
      if 0 < count { return; }
      Send(Unsubscribe(mint));
    }

    method ListTrackedMints() returns (out: seq<Mint>)
      ensures forall m :: m in out <==> m in watcherCounts
      ensures |out| == |watcherCounts|
    {
      out := [];
      var rest := watcherCounts.Keys;
      while rest != {}
        invariant rest <= watcherCounts.Keys
        invariant forall m :: m in out <==> m in watcherCounts.Keys - rest
        invariant |out| + |rest| == |watcherCounts.Keys|
        decreases rest
      {
        var m :| m in rest;
        out := out + [m];
        rest := rest - {m};
      }
    }

    /** The writer's start: dial, then list the tracked mints for the snapshot. */
    method StartWriter() returns (snapshot: seq<Mint>)
      requires link.Down?
      modifies this`link
      ensures View() == Perform(old(View()), Connect)
      ensures forall m :: m in snapshot <==> m in link.pending
    {
      snapshot := ListTrackedMints();
      link := Up({}, watcherCounts.Keys);
    }

    /** Writes the snapshot; `failAt` is the write that breaks the connection, if any. */
    method WriteAll(snapshot: seq<Mint>, failAt: nat) returns (ok: bool)
      requires link.Up? && forall m :: m in snapshot <==> m in link.pending
      modifies this`link
      ensures ok == (|snapshot| <= failAt)
      ensures link == if ok then Up(old(link).upstream + old(link).pending, {}) else Down
    {
      for i := 0 to |snapshot|
        invariant i <= failAt && link.Up?
        invariant link.upstream == old(link).upstream + set k | 0 <= k < i :: snapshot[k]
        invariant link.pending == old(link).pending - set k | 0 <= k < i :: snapshot[k]
      {
        if i == failAt {
          link := Down;
          return false;
        }
        link := Up(link.upstream + {snapshot[i]}, link.pending - {snapshot[i]});
      }
      return true;
    }

    /** One round of the writer's loop that takes a change. */
    method DrainOne(writeOk: bool)
      requires link.Up? && link.pending == {} && changeReq != []
      modifies this`changeReq, this`link
      ensures View() == Perform(old(View()), if writeOk then Drain else FailedDrain)
    {
      var change := changeReq[0];
      changeReq := changeReq[1..];
      if writeOk {
        link := link.(upstream := match change
                                  case Subscribe(m) => link.upstream + {m}
                                  case Unsubscribe(m) => link.upstream - {m});
      } else {
        link := Down;
      }
    }

    /** Adds a trade to a mint's figures. */
    method ConsumeTrade(trade: TradeMetric, now: int) returns (current: TradeMetric)
      modifies this`metrics
      ensures metrics == old(metrics)[trade.mint := current]
      ensures var before := if trade.mint in old(metrics) then old(metrics)[trade.mint] else NoTrades(trade.mint);
              && current.buyVolumeSOL == before.buyVolumeSOL + trade.buyVolumeSOL
              && current.buyCount == before.buyCount + trade.buyCount
              && current.lastTradeAt == (if before.lastTradeAt < trade.lastTradeAt then trade.lastTradeAt else before.lastTradeAt)
              && current.mint == trade.mint && current.updatedAt == now
    {
      current := if trade.mint in metrics then metrics[trade.mint] else NoTrades(trade.mint);
      current := current.(mint := trade.mint,
                          buyVolumeSOL := current.buyVolumeSOL + trade.buyVolumeSOL,
                          buyCount := current.buyCount + trade.buyCount,
                          updatedAt := now);
      if current.lastTradeAt < trade.lastTradeAt { current := current.(lastTradeAt := trade.lastTradeAt); }
      metrics := metrics[trade.mint := current];
    }
  }
}
