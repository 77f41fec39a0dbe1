/** From a trade to its watchers: the processor's callback is the server's fan-out. Each
    trade, with the callback it may end in, is one atomic step. */
module Pipeline {
  import opened TradeLog
  import opened Scoring
  import opened SpikeGuards
  import opened SpikeProcessor
  import opened Hubs
  import Api

  /** How a spike is encoded for everyone and for its watchers. */
  datatype Encoding = Encoding(news: SpikeResult -> seq<bv8>, personal: SpikeResult -> seq<bv8>)

  lemma Appended(a: seq<SpikeRecord>, b: seq<SpikeRecord>, row: SpikeRecord)
    ensures a + (b + [row]) == (a + b) + [row]
  {
  }

  class Pipeline {
    const processor: Processor
    const server: Api.Server
    /** The trades so far. */
    ghost var trades: Trades

    ghost predicate Valid()
      reads this, processor, processor.store, processor.tracker, processor.tracker.Repr
      reads server, server.registry, server.feed, server.hub, server.hub.Repr
    {
      processor.Valid() && server.Valid() && Apart() && Kept()
    }

    /** The processor and the server share no state. */
    ghost predicate Apart()
      reads processor.tracker, server.hub
    {
      && processor.tracker.Repr !! server.hub.Repr
      && processor !in server.hub.Repr && processor.store !in server.hub.Repr && processor.tracker !in server.hub.Repr
      && server !in processor.tracker.Repr && server.hub !in processor.tracker.Repr
      && server.registry !in processor.tracker.Repr && server.feed !in processor.tracker.Repr
      && this !in processor.tracker.Repr && this !in server.hub.Repr
    }

    /** The processor's state is that of the run of its trades. */
    ghost predicate Kept()
      reads this, processor, processor.store, processor.tracker, processor.tracker.states.Values
    {
      Follows(trades)
    }

    ghost predicate Follows(t: Trades)
      reads processor, processor.store, processor.tracker, processor.tracker.states.Values
    {
      && processor.checks == ChecksAfter(t)
      && processor.View() == DeskAfter(t, Settings())
      && forall m :: processor.tracker.RunOf(m) == CallsAfter(t, Settings(), m)
    }

    ghost function Settings(): Setup {
      Setup(processor.tracker.Settings(), processor.minEmitDelta, processor.dedupeWindow, processor.earlier)
    }

    /** A new processor on a new tracker and a server; the store may hold rows and snapshots
        of earlier processes. */
    constructor (p: Processor, s: Api.Server)
      requires p.Valid() && s.Valid()
      requires p.tracker.states == map[] && p.checks == NoChecks && p.offers == NoOffers && p.rows == [] && p.announced == []
      requires p.tracker.Repr !! s.hub.Repr
      requires p !in s.hub.Repr && p.store !in s.hub.Repr && p.tracker !in s.hub.Repr
      requires s !in p.tracker.Repr && s.hub !in p.tracker.Repr && s.registry !in p.tracker.Repr && s.feed !in p.tracker.Repr
      ensures Valid() && processor == p && server == s && trades == Opened(p.store.snapshots)
    {
      processor, server, trades := p, s, Opened(p.store.snapshots);
    }

    /** What the processor does with a trade, up to the callback. */
    method Process(ev: FeedEvent, a: Answers, ghost t: Trades) returns (fate: Fate)
      requires processor.Valid() && Follows(t)
      modifies processor, processor.store, processor.tracker, processor.tracker.Repr
      ensures processor.Valid() && fresh(processor.tracker.Repr - old(processor.tracker.Repr))
      ensures Follows(Fed(t, ev, a)) && fate == FateAt(Fed(t, ev, a), Settings())
    {
      ghost var now, s := Fed(t, ev, a), Settings();
      fate := processor.ProcessEvent(ev, a);
      assert fate == FateAt(now, s);
      assert processor.View() == DeskAfter(now, s);
    }

    /** Only an announcement adds a row and is announced, and both tell the verdict on the
        trade's mint. */
    method Record(ev: FeedEvent, a: Answers, ghost t: Trades) returns (fate: Fate)
      requires processor.Valid() && Follows(t)
      modifies processor, processor.store, processor.tracker, processor.tracker.Repr
      ensures processor.Valid() && fresh(processor.tracker.Repr - old(processor.tracker.Repr))
      ensures Follows(Fed(t, ev, a)) && fate == FateAt(Fed(t, ev, a), Settings())
      ensures fate == Announced ==> Recorded(VerdictAt(Fed(t, ev, a), Settings()), TradeOf(ev, a.wallClock).at)
      ensures fate != Announced ==>
                processor.announced == old(processor.announced) && processor.store.spikes == old(processor.store.spikes)
    {
      ghost var now := Fed(t, ev, a);
      LatestTrade(now, Settings());
      Appended(processor.earlier, processor.rows, RecordOf(VerdictAt(now, Settings()).0, TradeAt(now).at));
      fate := Process(ev, a, t);
      assert processor.rows == processor.View().rows && processor.announced == processor.View().announced;
    }

    /** A server none of whose objects changed is as it was. */
    twostate lemma ServerUntouched()
      requires old(server.Valid())
      requires unchanged(server, server.registry, server.feed, server.hub, old(server.hub.Repr))
      ensures server.Valid() && server.hub.Seats() == old(server.hub.Seats())
    {
    }

    /** The server does not notice until the callback. */
    method RecordBeside(ev: FeedEvent, a: Answers, ghost t: Trades) returns (fate: Fate)
      requires processor.Valid() && server.Valid() && Apart() && Follows(t)
      modifies processor, processor.store, processor.tracker, processor.tracker.Repr
      ensures processor.Valid() && server.Valid() && Apart() && Follows(Fed(t, ev, a))
      ensures fate == FateAt(Fed(t, ev, a), Settings())
      ensures server.hub.Seats() == old(server.hub.Seats())
      ensures fate == Announced ==> Recorded(VerdictAt(Fed(t, ev, a), Settings()), TradeOf(ev, a.wallClock).at)
      ensures fate != Announced ==>
                processor.announced == old(processor.announced) && processor.store.spikes == old(processor.store.spikes)
    {
      fate := Record(ev, a, t);
      ServerUntouched();
    }

    ghost method Note(t: Trades)
      requires processor.Valid() && server.Valid() && Apart() && Follows(t)
      modifies this`trades
      ensures Valid() && trades == t
      ensures server.hub.Seats() == old(server.hub.Seats())
    {
      trades := t;
      ServerUntouched();
    }

    /** The processor's part of a trade, noted. */
    method RecordApart(ev: FeedEvent, a: Answers) returns (fate: Fate)
      requires Valid()
      modifies this`trades, processor, processor.store, processor.tracker, processor.tracker.Repr
      ensures Valid() && trades == Fed(old(trades), ev, a) && fate == FateAt(trades, Settings())
      ensures server.hub.Seats() == old(server.hub.Seats())
      ensures fate == Announced ==> Recorded(VerdictAt(trades, Settings()), TradeOf(ev, a.wallClock).at)
      ensures fate != Announced ==>
                processor.announced == old(processor.announced) && processor.store.spikes == old(processor.store.spikes)
    {
      ghost var t := trades;
      fate := RecordBeside(ev, a, t);
      Note(Fed(t, ev, a));
    }

    /** The verdict, a detection, was announced last, and its row is the last stored. */
    twostate predicate Recorded(verdict: (SpikeResult, bool), at: int)
      reads processor, processor.store
    {
      && verdict.1
      && processor.announced == old(processor.announced) + [verdict.0]
      && processor.store.spikes == old(processor.store.spikes) + [RecordOf(verdict.0, at)]
    }

    /** The callback for a spike. */
    method Spread(spike: SpikeResult, e: Encoding, clock: ClientID -> Reading, later: ClientID -> Reading)
      requires Valid()
      modifies server.hub.Repr
      ensures Valid()
      ensures Told(old(server.hub.Seats()), spike, e, clock, later)
    {
      server.OnSpike(spike.mint, e.news(spike), e.personal(spike), clock, later);
    }

    /** Everyone was offered the news of the spike, and each client of each watcher of its
        mint, and no other, has gained one personal copy. */
    ghost predicate Told(before: map<ClientID, Seat>, spike: SpikeResult, e: Encoding,
                         clock: ClientID -> Reading, later: ClientID -> Reading)
      reads server, server.hub, server.hub.clients.Values, set id | id in server.hub.clients :: server.hub.clients[id].queue
    {
      Api.FannedOut(before, server.hub.Seats(), Api.Audience(server.hub.Who(), server.table, spike.mint),
                    e.news(spike), e.personal(spike), clock, later)
    }

    /** One trade, end to end. Exactly when it is announced is anybody told: the trade was a
        buy and its mint's verdict a detection, the row is stored, and then each client of
        each watcher of the mint gains one copy of the very verdict that was stored. */
    method OnTrade(ev: FeedEvent, a: Answers, e: Encoding, clock: ClientID -> Reading, later: ClientID -> Reading)
      returns (fate: Fate)
      requires Valid()
      modifies this`trades, processor, processor.store, processor.tracker, processor.tracker.Repr, server.hub.Repr
      ensures Valid() && trades == Fed(old(trades), ev, a) && fate == FateAt(trades, Settings())
      ensures fate == Announced ==>
                var verdict := VerdictAt(trades, Settings());
                && Recorded(verdict, TradeOf(ev, a.wallClock).at)
                && Told(old(server.hub.Seats()), verdict.0, e, clock, later)
      ensures fate != Announced ==>
                && server.hub.Seats() == old(server.hub.Seats())
                && processor.announced == old(processor.announced) && processor.store.spikes == old(processor.store.spikes)
    {
      fate := RecordApart(ev, a);
      if fate == Announced {
        var spike := processor.announced[|processor.announced| - 1];
        assert spike == VerdictAt(trades, Settings()).0;
        Spread(spike, e, clock, later);
      }
    }
  }
}
