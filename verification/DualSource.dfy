/** The consumer of two feeds. A feed's producer sends its events, then closes its error
    channel, then its event channel; the consumer counts a feed as finished on the error
    channel's word alone. With unbuffered event channels nothing is lost; with any buffer
    something can be. */
module DualSource {

  datatype Feed = Pump | Rpc

  function Other(f: Feed): Feed {
    if f == Pump then Rpc else Pump
  }

  /** What one select statement can deliver. */
  datatype Select<E> = Done | Err(feed: Feed) | ErrsClosed(feed: Feed) | Event(feed: Feed, event: E) | EventsClosed(feed: Feed)

  // ----- the consumer -----

  datatype Consumer<E> = Consumer(
    pumpOpen: bool, rpcOpen: bool, pumpErrs: bool, rpcErrs: bool,
    processed: seq<(Feed, E)>, returned: bool, cancelled: bool)
  {
    predicate Open(f: Feed) {
      if f == Pump then pumpOpen else rpcOpen
    }

    /** Whether the error channel of a feed still takes part in the select. */
    predicate Listens(f: Feed) {
      if f == Pump then pumpErrs else rpcErrs
    }

    function Close(f: Feed): Consumer<E> {
      if f == Pump then this.(pumpOpen := false) else this.(rpcOpen := false)
    }

    function Unlisten(f: Feed): Consumer<E> {
      if f == Pump then this.(pumpErrs := false) else this.(rpcErrs := false)
    }

    /** The check at the end of the loop body. */
    function Checked(): Consumer<E> {
      if !pumpOpen && !rpcOpen then this.(returned := true) else this
    }
  }

  function Fresh<E>(): Consumer<E> {
    Consumer(true, true, true, true, [], false, false)
  }

  /** One round of the loop. */
  function OnSelect<E>(c: Consumer<E>, s: Select<E>): Consumer<E> {
    match s
    case Done => c.(returned := true, cancelled := true)
    case Err(_) => c.Checked()
    case ErrsClosed(f) => c.Unlisten(f).Close(f)
    case Event(f, e) => c.(processed := c.processed + [(f, e)]).Checked()
    case EventsClosed(f) => if c.Open(Other(f)) then c.Close(f) else c.Close(f).(returned := true)
  }

  /** The rounds of the loop until it returns or the script ends. */
  function Consume<E>(c: Consumer<E>, script: seq<Select<E>>): Consumer<E>
    decreases |script|
  {
    if script == [] || c.returned then c else Consume(OnSelect(c, script[0]), script[1..])
  }

  /** What each round does, by what the select delivered. */
  lemma RoundMeans<E>(c: Consumer<E>, s: Select<E>)
    requires !c.returned && !c.cancelled
    ensures var c' := OnSelect(c, s);
            && (c'.cancelled <==> s.Done?)
            && c'.processed == (if s.Event? then c.processed + [(s.feed, s.event)] else c.processed)
            && (forall f :: c'.Open(f) <==> c.Open(f) && s != ErrsClosed(f) && s != EventsClosed(f))
            && (forall f :: c'.Listens(f) <==> c.Listens(f) && s != ErrsClosed(f))
            && (c'.returned <==> s.Done? || (!s.ErrsClosed? && !c'.Open(Pump) && !c'.Open(Rpc)))
  {
  }

  /** A cancelled loop returns, and a loop counts as cancelled only when it was. */
  lemma {:induction false} CancellingReturns<E>(c: Consumer<E>, script: seq<Select<E>>)
    ensures Done in script ==> Consume(c, script).returned
    ensures Consume(c, script).cancelled ==> c.cancelled || Done in script
    decreases |script|
  {
    if script != [] && !c.returned {
      CancellingReturns(OnSelect(c, script[0]), script[1..]);
      assert script == [script[0]] + script[1..];
    }
  }

  /** A loop returns once every feed it still counts as open has closed its event channel,
      provided some event channel closes while it waits: an error channel's closing alone
      does not make it look. */
  lemma {:induction false} ExhaustedReturns<E>(c: Consumer<E>, script: seq<Select<E>>)
    requires forall f :: c.Open(f) ==> EventsClosed(f) in script
    requires exists f :: EventsClosed(f) in script
    ensures Consume(c, script).returned
    decreases |script|
  {
    assert script == [script[0]] + script[1..];
    if !c.returned && !OnSelect(c, script[0]).returned {
      var f :| EventsClosed(f) in script;
      assert EventsClosed(f) in script[1..] || EventsClosed(Other(f)) in script[1..];
      ExhaustedReturns(OnSelect(c, script[0]), script[1..]);
    }
  }

  // ----- the producers and their channels -----

  datatype Source<E> = Source(toSend: seq<E>, buffer: seq<E>, errsClosed: bool, eventsClosed: bool)

  datatype World<E> = World(pump: Source<E>, rpc: Source<E>, consumer: Consumer<E>)
  {
    function Of(f: Feed): Source<E> {
      if f == Pump then pump else rpc
    }

    function With(f: Feed, s: Source<E>): World<E> {
      if f == Pump then this.(pump := s) else this.(rpc := s)
    }
  }

  /** Producers fill a buffer, close the error channel when they have nothing left to
      send, and close the event channel after it; the rest is what selects deliver. */
  datatype Step<E> = Fill(feed: Feed) | CloseErrs(feed: Feed) | CloseEvents(feed: Feed) | Deliver(select: Select<E>)

  /** The next event the consumer can receive: the buffer's head, or, without a buffer,
      the one the producer is waiting to hand over. */
  predicate Offers<E(==)>(s: Source<E>, capacity: nat, e: E) {
    if s.buffer != [] then s.buffer[0] == e else capacity == 0 && s.toSend != [] && s.toSend[0] == e
  }

  predicate Enabled<E(==)>(w: World<E>, capacity: nat, step: Step<E>) {
    match step
    case Fill(f) => w.Of(f).toSend != [] && |w.Of(f).buffer| < capacity
    case CloseErrs(f) => w.Of(f).toSend == [] && !w.Of(f).errsClosed
    case CloseEvents(f) => w.Of(f).errsClosed && !w.Of(f).eventsClosed
    case Deliver(s) =>
      !w.consumer.returned
      && match s
         case Done => true
         case Err(f) => w.consumer.Listens(f)
         case ErrsClosed(f) => w.consumer.Listens(f) && w.Of(f).errsClosed
         case Event(f, e) => Offers(w.Of(f), capacity, e)
         case EventsClosed(f) => w.Of(f).eventsClosed && w.Of(f).buffer == []
  }

  function Taken<E>(s: Source<E>): Source<E> {
    if s.buffer != [] then s.(buffer := s.buffer[1..])
    else if s.toSend != [] then s.(toSend := s.toSend[1..])
    else s
  }

  function Perform<E>(w: World<E>, step: Step<E>): World<E> {
    match step
    case Fill(f) =>
      var s := w.Of(f);
      if s.toSend == [] then w else w.With(f, s.(toSend := s.toSend[1..], buffer := s.buffer + [s.toSend[0]]))
    case CloseErrs(f) => w.With(f, w.Of(f).(errsClosed := true))
    case CloseEvents(f) => w.With(f, w.Of(f).(eventsClosed := true))
    case Deliver(s) =>
      var after := if s.Event? then w.With(s.feed, Taken(w.Of(s.feed))) else w;
      after.(consumer := OnSelect(w.consumer, s))
  }

  /** A run: what each producer has to send, then steps, the latest outermost. */
  datatype Trace<E> = Begin(pump: seq<E>, rpc: seq<E>) | Next(before: Trace<E>, step: Step<E>)

  function WorldAfter<E>(t: Trace<E>): World<E> {
    match t
    case Begin(p, r) => World(Source(p, [], false, false), Source(r, [], false, false), Fresh())
    case Next(before, step) => Perform(WorldAfter(before), step)
  }

  predicate Legal<E(==)>(t: Trace<E>, capacity: nat) {
    t.Next? ==> Legal(t.before, capacity) && Enabled(WorldAfter(t.before), capacity, t.step)
  }

  /** What the select statements delivered during a run, oldest first. */
  function Deliveries<E>(t: Trace<E>): seq<Select<E>> {
    match t
    case Begin(_, _) => []
    case Next(before, Deliver(s)) => Deliveries(before) + [s]
    case Next(before, _) => Deliveries(before)
  }

  lemma {:induction false} ConsumeSnoc<E>(c: Consumer<E>, script: seq<Select<E>>, s: Select<E>)
    requires !Consume(c, script).returned
    ensures Consume(c, script + [s]) == OnSelect(Consume(c, script), s)
    decreases |script|
  {
    if script == [] {
      assert [s][1..] == [];
    } else {
      assert (script + [s])[1..] == script[1..] + [s];
      ConsumeSnoc(OnSelect(c, script[0]), script[1..], s);
    }
  }

  /** The consumer of a run is what the loop computes from the run's deliveries. */
  lemma {:induction false} ConsumerIsLoop<E>(t: Trace<E>, capacity: nat)
    requires Legal(t, capacity)
    ensures WorldAfter(t).consumer == Consume(Fresh(), Deliveries(t))
  {
    if t.Next? {
      ConsumerIsLoop(t.before, capacity);
      if t.step.Deliver? { ConsumeSnoc(Fresh(), Deliveries(t.before), t.step.select); }
    }
  }

  function Sent<E>(t: Trace<E>, f: Feed): seq<E> {
    match t
    case Begin(p, r) => if f == Pump then p else r
    case Next(before, _) => Sent(before, f)
  }

  /** The processed events of one feed, in order. */
  function From<E>(processed: seq<(Feed, E)>, f: Feed): seq<E> {
    if processed == [] then []
    else
      var n := |processed| - 1;
      From(processed[..n], f) + (if processed[n].0 == f then [processed[n].1] else [])
  }

  lemma FromSnoc<E>(processed: seq<(Feed, E)>, f: Feed, g: Feed, e: E)
    ensures From(processed + [(g, e)], f) == From(processed, f) + if g == f then [e] else []
  {
    assert (processed + [(g, e)])[..|processed|] == processed;
  }

  lemma TakingKeepsTotal<E>(s: Source<E>, capacity: nat, e: E, done: seq<E>)
    requires Offers(s, capacity, e)
    ensures done + [e] + Taken(s).buffer + Taken(s).toSend == done + s.buffer + s.toSend
  {
    if s.buffer != [] {
      assert s.buffer == [e] + s.buffer[1..];
    } else {
      assert s.toSend == [e] + s.toSend[1..];
    }
  }

  lemma FillingKeepsTotal<E>(s: Source<E>, done: seq<E>)
    requires s.toSend != []
    ensures done + (s.buffer + [s.toSend[0]]) + s.toSend[1..] == done + s.buffer + s.toSend
  {
  }

  /** The events of a feed, wherever they are, after one step. */
  function Total<E>(w: World<E>, f: Feed): seq<E> {
    From(w.consumer.processed, f) + w.Of(f).buffer + w.Of(f).toSend
  }

  lemma ReceiptKeepsTotal<E>(w: World<E>, capacity: nat, g: Feed, e: E, f: Feed)
    requires Offers(w.Of(g), capacity, e)
    ensures Total(Perform(w, Deliver(Event(g, e))), f) == Total(w, f)
  {
    var done := From(w.consumer.processed, f);
    FromSnoc(w.consumer.processed, f, g, e);
    if g == f {
      TakingKeepsTotal(w.Of(f), capacity, e, done);
    } else {
      assert done + [] == done;
    }
  }

  lemma StepKeepsTotal<E>(w: World<E>, capacity: nat, step: Step<E>, f: Feed)
    requires Enabled(w, capacity, step)
    ensures Total(Perform(w, step), f) == Total(w, f)
  {
    match step
    case Fill(g) => if g == f { FillingKeepsTotal(w.Of(f), From(w.consumer.processed, f)); }
    case CloseErrs(_) =>
    case CloseEvents(_) =>
    case Deliver(s) => if s.Event? { ReceiptKeepsTotal(w, capacity, s.feed, s.event, f); }
  }

  /** What the flags say about a feed. */
  ghost predicate Honest<E>(w: World<E>, capacity: nat, f: Feed) {
    && |w.Of(f).buffer| <= capacity
    && (w.Of(f).eventsClosed ==> w.Of(f).errsClosed)
    && (w.Of(f).errsClosed ==> w.Of(f).toSend == [])
    && (!w.consumer.Open(f) ==> w.Of(f).errsClosed)
    && (w.consumer.returned && !w.consumer.cancelled ==> !w.consumer.Open(f))
    && (w.consumer.cancelled ==> w.consumer.returned)
  }

  lemma StepStaysHonest<E>(w: World<E>, capacity: nat, step: Step<E>, f: Feed)
    requires Enabled(w, capacity, step) && Honest(w, capacity, f)
    ensures Honest(Perform(w, step), capacity, f)
  {
  }

  /** Nothing is reordered, duplicated or lost within a feed, in any run and with any
      buffer: what was processed, what is buffered and what is still to be sent make up
      what the producer had. A feed counted as finished has nothing left to send, and a
      consumer that returned without being cancelled counts both as finished. */
  lemma {:induction false} AlwaysAccounted<E>(t: Trace<E>, capacity: nat, f: Feed)
    requires Legal(t, capacity)
    ensures Total(WorldAfter(t), f) == Sent(t, f)
    ensures Honest(WorldAfter(t), capacity, f)
  {
    if t.Next? {
      AlwaysAccounted(t.before, capacity, f);
      StepKeepsTotal(WorldAfter(t.before), capacity, t.step, f);
      StepStaysHonest(WorldAfter(t.before), capacity, t.step, f);
    } else {
      assert [] + [] + Sent(t, f) == Sent(t, f);
    }
  }

  /** With unbuffered event channels, a consumer that returns without being cancelled has
      processed every event of each feed, in order. */
  lemma UnbufferedLosesNothing<E>(t: Trace<E>, f: Feed)
    requires Legal(t, 0)
    requires WorldAfter(t).consumer.returned && !WorldAfter(t).consumer.cancelled
    ensures From(WorldAfter(t).consumer.processed, f) == Sent(t, f)
  {
    AlwaysAccounted(t, 0, f);
    var done := From(WorldAfter(t).consumer.processed, f);
    assert done + [] + [] == done;
  }

  ghost predicate LosesNothing<E(!new)>(capacity: nat) {
    forall t: Trace<E>, f: Feed {:trigger Sent(t, f), Legal(t, capacity)} ::
      Legal(t, capacity) && WorldAfter(t).consumer.returned && !WorldAfter(t).consumer.cancelled
      ==> From(WorldAfter(t).consumer.processed, f) == Sent(t, f)
  }

  /** A run that loses an event: it sits in the buffer when both error channels close. */
  function LosingRun<E>(e: E): Trace<E> {
    var closing := Next(Next(Next(Next(Begin([e], []), Fill(Pump)), CloseErrs(Pump)), CloseErrs(Rpc)), CloseEvents(Rpc));
    Next(Next(Next(closing, Deliver(ErrsClosed(Pump))), Deliver(ErrsClosed(Rpc))), Deliver(EventsClosed(Rpc)))
  }

  /** The run so far is legal, has led to this world, and the pump feed had this to send. */
  ghost predicate LeadsTo<E>(t: Trace<E>, capacity: nat, w: World<E>, sent: seq<E>) {
    Legal(t, capacity) && WorldAfter(t) == w && Sent(t, Pump) == sent
  }

  lemma OneStep<E>(t: Trace<E>, capacity: nat, w: World<E>, sent: seq<E>, step: Step<E>, w': World<E>)
    requires LeadsTo(t, capacity, w, sent)
    requires Enabled(w, capacity, step) && Perform(w, step) == w'
    ensures LeadsTo(Next(t, step), capacity, w', sent)
  {
  }

  /** Seven steps; the consumer returns while the event is still in the buffer. */
  lemma LosingRunLeads<E>(e: E, capacity: nat)
    requires 0 < capacity
    ensures LeadsTo(LosingRun(e), capacity,
                    World(Source([], [e], true, false), Source([], [], true, true), Consumer(false, false, false, false, [], true, false)),
                    [e])
  {
    var start: Consumer<E> := Consumer(true, true, true, true, [], false, false);
    var half, deaf := start.(pumpOpen := false, pumpErrs := false), start.(pumpOpen := false, pumpErrs := false, rpcOpen := false, rpcErrs := false);
    var held: Source<E>, held': Source<E> := Source([], [e], false, false), Source([], [e], true, false);
    var idle: Source<E>, idle': Source<E>, over: Source<E> := Source([], [], false, false), Source([], [], true, false), Source([], [], true, true);
    var t0: Trace<E> := Begin([e], []);
    var t1 := Next(t0, Fill(Pump));
    OneStep(t0, capacity, World(Source([e], [], false, false), idle, start), [e], Fill(Pump), World(held, idle, start));
    var t2 := Next(t1, CloseErrs(Pump));
    OneStep(t1, capacity, World(held, idle, start), [e], CloseErrs(Pump), World(held', idle, start));
    var t3 := Next(t2, CloseErrs(Rpc));
    OneStep(t2, capacity, World(held', idle, start), [e], CloseErrs(Rpc), World(held', idle', start));
    var t4 := Next(t3, CloseEvents(Rpc));
    OneStep(t3, capacity, World(held', idle', start), [e], CloseEvents(Rpc), World(held', over, start));
    var t5 := Next(t4, Deliver(ErrsClosed(Pump)));
    OneStep(t4, capacity, World(held', over, start), [e], Deliver(ErrsClosed(Pump)), World(held', over, half));
    var t6 := Next(t5, Deliver(ErrsClosed(Rpc)));
    OneStep(t5, capacity, World(held', over, half), [e], Deliver(ErrsClosed(Rpc)), World(held', over, deaf));
    OneStep(t6, capacity, World(held', over, deaf), [e], Deliver(EventsClosed(Rpc)), World(held', over, deaf.(returned := true)));
  }

  lemma LosingRunLoses<E>(e: E, capacity: nat)
    requires 0 < capacity
    ensures var t := LosingRun(e);
            && Legal(t, capacity)
            && WorldAfter(t).consumer.returned && !WorldAfter(t).consumer.cancelled
            && From(WorldAfter(t).consumer.processed, Pump) == [] && Sent(t, Pump) == [e]
  {
    LosingRunLeads(e, capacity);
  }

  /** The consumer's shortcut is sound exactly when the event channels are unbuffered. */
  lemma LossFreeIffUnbuffered<E(!new)>(capacity: nat, e: E)
    ensures LosesNothing<E>(capacity) <==> capacity == 0
  {
    if capacity == 0 {
      forall t: Trace<E>, f: Feed | Legal(t, capacity) && WorldAfter(t).consumer.returned && !WorldAfter(t).consumer.cancelled
        ensures From(WorldAfter(t).consumer.processed, f) == Sent(t, f)
      {
        UnbufferedLosesNothing(t, f);
      }
    } else {
      LosingRunLoses(e, capacity);
      assert Sent(LosingRun(e), Pump) == [e];
    }
  }

  // ----- the loop itself -----

  /** The loop, over whatever the select statements deliver. When these are the deliveries
      of some run with unbuffered event channels, a return without cancellation means that
      every event of both feeds was processed, in order. */
  method RunDual<E>(script: seq<Select<E>>) returns (processed: seq<(Feed, E)>, returned: bool, cancelled: bool)
    ensures var c := Consume(Fresh(), script);
            processed == c.processed && returned == c.returned && cancelled == c.cancelled
    ensures Done in script || (EventsClosed(Pump) in script && EventsClosed(Rpc) in script) ==> returned
    ensures returned && !cancelled ==>
              forall t: Trace<E>, f: Feed {:trigger Sent(t, f), Deliveries(t)} ::
                Legal(t, 0) && Deliveries(t) == script ==> From(processed, f) == Sent(t, f)
  {
    var pumpOpen, rpcOpen, pumpErrs, rpcErrs := true, true, true, true;
    processed, returned, cancelled := [], false, false;
    var i := 0;
    while i < |script| && !returned
      invariant 0 <= i <= |script|
      invariant Consume(Consumer(pumpOpen, rpcOpen, pumpErrs, rpcErrs, processed, returned, cancelled), script[i..])
             == Consume(Fresh(), script)
    {
      assert script[i..][1..] == script[i + 1..];
      var s := script[i];
      i := i + 1;
      match s {
        case Done =>
          returned, cancelled := true, true;
          continue;
        case ErrsClosed(f) =>
          if f == Pump { pumpErrs, pumpOpen := false, false; } else { rpcErrs, rpcOpen := false, false; }
          continue;
        case Err(_) =>
        case EventsClosed(f) =>
          if f == Pump {
            pumpOpen := false;
            if !rpcOpen { returned := true; }
          } else {
            rpcOpen := false;
            if !pumpOpen { returned := true; }
          }
          continue;
        case Event(f, e) =>
          processed := processed + [(f, e)];
      }
      if !pumpOpen && !rpcOpen { returned := true; }
    }
    if i == |script| { assert script[i..] == []; }
    CancellingReturns(Fresh<E>(), script);
    if EventsClosed(Pump) in script && EventsClosed(Rpc) in script { ExhaustedReturns(Fresh<E>(), script); }
    forall t: Trace<E>, f: Feed | Legal(t, 0) && Deliveries(t) == script && returned && !cancelled
      ensures From(processed, f) == Sent(t, f)
    {
      ConsumerIsLoop(t, 0);
      UnbufferedLosesNothing(t, f);
    }
  }
}
