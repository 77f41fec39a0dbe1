/** A mint's arrival log: the binary-search cut that keeps the last hour, and the window
    aggregates that are summed over it. Times are nanoseconds since January 1, year 1
    UTC, so that Go's zero time is 0. */
module TradeLog {
  import opened Clock

  const WINDOW := 5 * MINUTE
  const HORIZON := 60 * MINUTE

  datatype TradeEvent = TradeEvent(
    mint: string, name: string, symbol: string, wallet: string,
    volumeSOL: real, marketCapSOL: real, txType: string, at: int)

  type Log = seq<TradeEvent>

  function Init(log: Log): Log
    requires log != []
  {
    log[..|log| - 1]
  }

  function Last(log: Log): TradeEvent
    requires log != []
  {
    log[|log| - 1]
  }

  // ----- the cut -----

  /** sort.Search over the events not older than the cutoff. Whatever the order of the
      log, the event before the answer is stale and the event at the answer is fresh. */
  function SearchFresh(log: Log, cutoff: int, lo: nat, hi: nat): (r: nat)
    requires lo <= hi <= |log|
    ensures lo <= r <= hi
    ensures lo < r ==> log[r - 1].at < cutoff
    ensures r < hi ==> cutoff <= log[r].at
    decreases hi - lo
  {
    if lo == hi then lo
    else
      var mid := (lo + hi) / 2;
      if cutoff <= log[mid].at then SearchFresh(log, cutoff, lo, mid)
      else SearchFresh(log, cutoff, mid + 1, hi)
  }

  /** What prune leaves of a log. */
  function Pruned(log: Log, now: int): Log {
    log[SearchFresh(log, now - HORIZON, 0, |log|)..]
  }

  /** The reference: every event not older than the cutoff, in arrival order. */
  function Fresh(log: Log, cutoff: int): Log {
    if log == [] then []
    else Fresh(Init(log), cutoff) + (if cutoff <= Last(log).at then [Last(log)] else [])
  }

  /** No stale event arrived after a fresh one. */
  ghost predicate Partitioned(log: Log, cutoff: int) {
    forall i, j :: 0 <= i < j < |log| && cutoff <= log[i].at ==> cutoff <= log[j].at
  }

  ghost predicate IsSuffix(s: Log, log: Log) {
    |s| <= |log| && s == log[|log| - |s|..]
  }

  lemma {:induction false} FreshOfConcat(a: Log, b: Log, cutoff: int)
    ensures Fresh(a + b, cutoff) == Fresh(a, cutoff) + Fresh(b, cutoff)
  {
    if b == [] {
      assert a + b == a;
    } else {
      assert Init(a + b) == a + Init(b);
      FreshOfConcat(a, Init(b), cutoff);
    }
  }

  lemma {:induction false} FreshPrefix(log: Log, cutoff: int, k: nat, all: bool)
    requires k <= |log|
    requires forall i :: 0 <= i < k ==> (cutoff <= log[i].at <==> all)
    ensures Fresh(log[..k], cutoff) == if all then log[..k] else []
  {
    if 0 < k {
      FreshPrefix(log, cutoff, k - 1, all);
      assert Init(log[..k]) == log[..k - 1];
      assert Last(log[..k]) == log[k - 1];
    }
  }

  lemma FreshKeepsAll(log: Log, cutoff: int)
    requires forall i :: 0 <= i < |log| ==> cutoff <= log[i].at
    ensures Fresh(log, cutoff) == log
  {
    FreshPrefix(log, cutoff, |log|, true);
    assert log[..|log|] == log;
  }

  lemma FreshDropsAll(log: Log, cutoff: int)
    requires forall i :: 0 <= i < |log| ==> log[i].at < cutoff
    ensures Fresh(log, cutoff) == []
  {
    FreshPrefix(log, cutoff, |log|, false);
    assert log[..|log|] == log;
  }

  lemma {:induction false} FreshShrinks(log: Log, cutoff: int)
    ensures |Fresh(log, cutoff)| <= |log|
    ensures |Fresh(log, cutoff)| == |log| ==> forall i :: 0 <= i < |log| ==> cutoff <= log[i].at
    ensures forall e :: e in Fresh(log, cutoff) <==> e in log && cutoff <= e.at
  {
    if log != [] {
      FreshShrinks(Init(log), cutoff);
      assert log == Init(log) + [Last(log)];
    }
  }

  lemma PrunePartitioned(log: Log, now: int)
    requires Partitioned(log, now - HORIZON)
    ensures Pruned(log, now) == Fresh(log, now - HORIZON)
  {
    var cutoff := now - HORIZON;
    var k := SearchFresh(log, cutoff, 0, |log|);
    var stale, kept := log[..k], log[k..];
    assert log == stale + kept;
    FreshOfConcat(stale, kept, cutoff);
    FreshDropsAll(stale, cutoff);
    FreshKeepsAll(kept, cutoff);
  }

  lemma OnlyStaleWhenNothingFresh(log: Log, cutoff: int)
    requires Fresh(log, cutoff) == []
    ensures forall i :: 0 <= i < |log| ==> log[i].at < cutoff
  {
    FreshShrinks(log, cutoff);
    forall i | 0 <= i < |log| ensures log[i].at < cutoff {
      assert log[i] in log;
    }
  }

  lemma OnlyFreshInFilter(log: Log, cutoff: int)
    ensures forall i :: 0 <= i < |Fresh(log, cutoff)| ==> cutoff <= Fresh(log, cutoff)[i].at
  {
    FreshShrinks(log, cutoff);
    var f := Fresh(log, cutoff);
    forall i | 0 <= i < |f| ensures cutoff <= f[i].at {
      assert f[i] in f;
    }
  }

  lemma FilterIsTail(stale: Log, kept: Log, cutoff: int)
    requires Fresh(stale + kept, cutoff) == kept
    ensures Partitioned(stale + kept, cutoff)
  {
    OnlyFreshInFilter(stale + kept, cutoff);
    FreshKeepsAll(kept, cutoff);
    FreshOfConcat(stale, kept, cutoff);
    assert |Fresh(stale, cutoff)| == 0;
    OnlyStaleWhenNothingFresh(stale, cutoff);
  }

  lemma PruneFiltersOnlyPartitioned(log: Log, now: int)
    requires Pruned(log, now) == Fresh(log, now - HORIZON)
    ensures Partitioned(log, now - HORIZON)
  {
    var k := SearchFresh(log, now - HORIZON, 0, |log|);
    assert log == log[..k] + log[k..];
    FilterIsTail(log[..k], log[k..], now - HORIZON);
  }

  /** Pruning by binary search is the filter exactly when no stale event arrived after a
      fresh one. An out-of-order feed loses fresh events or keeps stale ones. */
  lemma PruneIsFilterIff(log: Log, now: int)
    ensures Pruned(log, now) == Fresh(log, now - HORIZON) <==> Partitioned(log, now - HORIZON)
  {
    if Partitioned(log, now - HORIZON) {
      PrunePartitioned(log, now);
    } else if Pruned(log, now) == Fresh(log, now - HORIZON) {
      PruneFiltersOnlyPartitioned(log, now);
    }
  }

  /** Without order the cut can lose what it should keep: arrivals at 100, 0, 0 with cutoff
      50 lose the fresh first event. */
  lemma PruneLosesFreshEvent(e: TradeEvent)
    ensures var log := [e.(at := 100), e.(at := 0), e.(at := 0)];
            Pruned(log, 50 + HORIZON) == [] && Fresh(log, 50) == [log[0]]
  {
    var log := [e.(at := 100), e.(at := 0), e.(at := 0)];
    assert SearchFresh(log, 50, 0, 3) == SearchFresh(log, 50, 2, 3) == SearchFresh(log, 50, 3, 3);
    var first, rest := [log[0]], [log[1], log[2]];
    assert log == first + rest;
    FreshOfConcat(first, rest, 50);
    FreshKeepsAll(first, 50);
    FreshDropsAll(rest, 50);
  }

  /** An event just added is never pruned by its own arrival, in any order of times. */
  lemma PruneKeepsNewest(log: Log, e: TradeEvent)
    ensures var p := Pruned(log + [e], e.at); p != [] && Last(p) == e && IsSuffix(p, log + [e])
  {
  }

  lemma PruneKeepsSuffix(s: Log, log: Log, now: int)
    requires IsSuffix(s, log)
    ensures IsSuffix(Pruned(s, now), log)
  {
  }

  lemma SuffixGrows(s: Log, log: Log, e: TradeEvent)
    requires IsSuffix(s, log)
    ensures IsSuffix(s + [e], log + [e])
  {
  }

  /** Filtering twice is filtering once by the later cutoff. */
  lemma {:induction false} FreshOfFresh(log: Log, early: int, late: int)
    requires early <= late
    ensures Fresh(Fresh(log, early), late) == Fresh(log, late)
  {
    if log != [] {
      FreshOfFresh(Init(log), early, late);
      var tail: Log := if early <= Last(log).at then [Last(log)] else [];
      FreshOfConcat(Fresh(Init(log), early), tail, late);
      if tail != [] {
        assert Init(tail) == [];
      }
    }
  }

  // ----- aggregates -----

  /** Whether an event counts as buy flow at or after `start`. */
  predicate Counts(e: TradeEvent, start: int) {
    0.0 < e.volumeSOL && start <= e.at
  }

  /** Buy volume at or after `start`. */
  function VolumeSince(log: Log, start: int): real {
    if log == [] then 0.0
    else VolumeSince(Init(log), start) + (if Counts(Last(log), start) then Last(log).volumeSOL else 0.0)
  }

  /** Buy volume at or after `from` and before `to`. */
  function VolumeBetween(log: Log, from: int, to: int): real {
    if log == [] then 0.0
    else
      VolumeBetween(Init(log), from, to)
      + (if Counts(Last(log), from) && Last(log).at < to then Last(log).volumeSOL else 0.0)
  }

  /** Wallets that bought at or after `start`; the empty name is one of them. */
  function WalletsSince(log: Log, start: int): set<string> {
    set e | e in log && Counts(e, start) :: e.wallet
  }

  /** Named wallets that bought at any time in the log. */
  function NamedBuyers(log: Log): set<string> {
    set e | e in log && 0.0 < e.volumeSOL && e.wallet != "" :: e.wallet
  }

  /** Buy volume of the named wallets in `who`. */
  function VolumeOf(log: Log, who: set<string>): real {
    if log == [] then 0.0
    else
      VolumeOf(Init(log), who)
      + (if 0.0 < Last(log).volumeSOL && Last(log).wallet != "" && Last(log).wallet in who
         then Last(log).volumeSOL else 0.0)
  }

  /** What one more event adds to each aggregate. */
  lemma AggregatesOfOneMore(log: Log, e: TradeEvent, from: int, to: int)
    ensures VolumeSince(log + [e], from)
         == VolumeSince(log, from) + if 0.0 < e.volumeSOL && from <= e.at then e.volumeSOL else 0.0
    ensures VolumeBetween(log + [e], from, to)
         == VolumeBetween(log, from, to) + if 0.0 < e.volumeSOL && from <= e.at < to then e.volumeSOL else 0.0
    ensures WalletsSince(log + [e], from)
         == WalletsSince(log, from) + if 0.0 < e.volumeSOL && from <= e.at then {e.wallet} else {}
  {
    assert Init(log + [e]) == log && Last(log + [e]) == e;
  }

  /** What one more event adds to the named buyers and to what some of them bought. */
  lemma BuyersOfOneMore(log: Log, e: TradeEvent, who: set<string>)
    ensures NamedBuyers(log + [e]) == NamedBuyers(log) + if 0.0 < e.volumeSOL && e.wallet != "" then {e.wallet} else {}
    ensures VolumeOf(log + [e], who)
         == VolumeOf(log, who) + if 0.0 < e.volumeSOL && e.wallet != "" && e.wallet in who then e.volumeSOL else 0.0
  {
    assert Init(log + [e]) == log && Last(log + [e]) == e;
  }

  /** Before the first event every aggregate is empty. */
  lemma NothingBought(from: int, to: int, who: set<string>)
    ensures VolumeSince([], from) == VolumeBetween([], from, to) == VolumeOf([], who) == 0.0
    ensures WalletsSince([], from) == {} && NamedBuyers([]) == {}
  {
  }

  /** Trades without a wallet name count as one wallet of the window and as no named buyer. */
  lemma EmptyNameIsAWallet(log: Log, e: TradeEvent, from: int)
    requires e in log && e.wallet == "" && 0.0 < e.volumeSOL && from <= e.at
    ensures "" in WalletsSince(log, from) && "" !in NamedBuyers(log)
  {
  }

  /** The window is five minutes and the horizon an hour, in nanoseconds. */
  lemma Spans()
    ensures WINDOW == 300_000_000_000 && HORIZON == 3_600_000_000_000
  {
  }

  /** Dropping what lies before the hour changes no aggregate that starts inside it. */
  lemma {:induction false} AggregatesIgnoreStale(log: Log, cutoff: int, from: int, to: int)
    requires cutoff <= from
    ensures VolumeSince(Fresh(log, cutoff), from) == VolumeSince(log, from)
    ensures VolumeBetween(Fresh(log, cutoff), from, to) == VolumeBetween(log, from, to)
    ensures WalletsSince(Fresh(log, cutoff), from) == WalletsSince(log, from)
  {
    FreshShrinks(log, cutoff);
    if log != [] {
      AggregatesIgnoreStale(Init(log), cutoff, from, to);
      var f := Fresh(Init(log), cutoff);
      if cutoff <= Last(log).at {
        assert Init(f + [Last(log)]) == f;
      } else {
        assert f + [] == f;
      }
    }
  }

  /** The window and the baseline split the volume of the last hour. */
  lemma {:induction false} HourSplits(log: Log, from: int, to: int)
    requires from <= to
    ensures VolumeBetween(log, from, to) + VolumeSince(log, to) == VolumeSince(log, from)
    ensures 0.0 <= VolumeBetween(log, from, to) && 0.0 <= VolumeSince(log, to)
  {
    if log != [] { HourSplits(Init(log), from, to); }
  }

  /** There is buy flow in the window exactly when some wallet bought in it. */
  lemma {:induction false} FlowHasWallets(log: Log, start: int)
    ensures 0.0 <= VolumeSince(log, start)
    ensures 0.0 < VolumeSince(log, start) <==> WalletsSince(log, start) != {}
  {
    if log != [] {
      FlowHasWallets(Init(log), start);
      assert log == Init(log) + [Last(log)];
      if WalletsSince(Init(log), start) != {} {
        var w :| w in WalletsSince(Init(log), start);
        assert w in WalletsSince(log, start);
      }
      if Counts(Last(log), start) {
        assert Last(log).wallet in WalletsSince(log, start);
      } else {
        assert WalletsSince(log, start) == WalletsSince(Init(log), start);
      }
    }
  }

  lemma {:induction false} VolumeOfSplits(log: Log, a: set<string>, b: set<string>)
    requires a !! b
    ensures VolumeOf(log, a + b) == VolumeOf(log, a) + VolumeOf(log, b)
  {
    if log != [] { VolumeOfSplits(Init(log), a, b); }
  }

  lemma {:induction false} VolumeOfPositive(log: Log, who: set<string>)
    ensures 0.0 <= VolumeOf(log, who)
    ensures who * NamedBuyers(log) != {} ==> 0.0 < VolumeOf(log, who)
  {
    if log != [] {
      VolumeOfPositive(Init(log), who);
      assert log == Init(log) + [Last(log)];
      if who * NamedBuyers(log) != {} {
        var w :| w in who * NamedBuyers(log);
        if w in NamedBuyers(Init(log)) {
          assert w in who * NamedBuyers(Init(log));
        }
      }
    }
  }
}
