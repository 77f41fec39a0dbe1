/** The per-client message queue: six FIFO lists drained by rank, a retry list that evicts
    its oldest entry when full. Blocking is left out: an empty queue answers Empty. */
module PriorityQueues {

  datatype Message = Message(priority: int, personal: bool, payload: seq<bv8>, createdAt: int, retryCount: int, maxRetries: int)

  datatype Lane = Personal | Retry | P1 | P2 | P3 | P4
  {
    function Rank(): nat {
      match this
      case Personal => 0
      case Retry => 1
      case P1 => 2
      case P2 => 3
      case P3 => 4
      case P4 => 5
    }
  }

  const LANES: seq<Lane> := [Personal, Retry, P1, P2, P3, P4]

  function LaneOf(msg: Message): Lane {
    if msg.personal then Personal
    else if msg.priority == 1 then P1
    else if msg.priority == 2 then P2
    else if msg.priority == 3 then P3
    else P4
  }

  function Stamped(msg: Message, now: int): Message {
    if msg.createdAt == 0 then msg.(createdAt := now) else msg
  }

  // ----- the queue as a value -----

  datatype Queue = Queue(
    closed: bool, personalQ: seq<Message>, retryBuffer: seq<Message>,
    qP1: seq<Message>, qP2: seq<Message>, qP3: seq<Message>, qP4: seq<Message>)
  {
    function On(l: Lane): seq<Message> {
      match l
      case Personal => personalQ
      case Retry => retryBuffer
      case P1 => qP1
      case P2 => qP2
      case P3 => qP3
      case P4 => qP4
    }

    function Put(l: Lane, s: seq<Message>): Queue {
      match l
      case Personal => this.(personalQ := s)
      case Retry => this.(retryBuffer := s)
      case P1 => this.(qP1 := s)
      case P2 => this.(qP2 := s)
      case P3 => this.(qP3 := s)
      case P4 => this.(qP4 := s)
    }
  }

  const EMPTY_QUEUE := Queue(false, [], [], [], [], [], [])

  function Enqueued(q: Queue, msg: Message, now: int): Queue {
    if q.closed then q else q.Put(LaneOf(msg), q.On(LaneOf(msg)) + [Stamped(msg, now)])
  }

  function Counted(msg: Message): Message {
    msg.(retryCount := msg.retryCount + 1)
  }

  /** Whether a retry is kept: the queue is open and its retries are not used up. */
  predicate KeepsRetry(q: Queue, msg: Message) {
    !q.closed && (msg.maxRetries <= 0 || msg.retryCount + 1 <= msg.maxRetries)
  }

  predicate Evicts(q: Queue, cap: nat) {
    0 < cap <= |q.retryBuffer|
  }

  function Retried(q: Queue, msg: Message, cap: nat): Queue {
    if !KeepsRetry(q, msg) then q
    else if Evicts(q, cap) then q.(retryBuffer := q.retryBuffer[1..] + [Counted(msg)])
    else q.(retryBuffer := q.retryBuffer + [Counted(msg)])
  }

  /** The first lane, by rank from r on, that holds a message. */
  function Serving(q: Queue, r: nat): (s: nat)
    requires r <= 6
    ensures r <= s <= 6
    ensures s < 6 ==> q.On(LANES[s]) != []
    ensures forall k :: r <= k < s ==> q.On(LANES[k]) == []
    decreases 6 - r
  {
    if r == 6 || q.On(LANES[r]) != [] then r else Serving(q, r + 1)
  }

  datatype Popped = Nothing | Item(lane: Lane, msg: Message)

  function Next(q: Queue): Popped {
    var s := Serving(q, 0);
    if s == 6 then Nothing else Item(LANES[s], q.On(LANES[s])[0])
  }

  function AfterPop(q: Queue): Queue {
    var s := Serving(q, 0);
    if s == 6 then q else q.Put(LANES[s], q.On(LANES[s])[1..])
  }

  /** One pass of Dequeue by the named lists: the head of the first that is not empty, in
      this order, and nothing from a closed queue. */
  ghost predicate Hands(q: Queue, r: Dequeued, q': Queue) {
    if q.closed then r == Closed && q' == q
    else if q.personalQ != [] then r == Got(q.personalQ[0]) && q' == q.(personalQ := q.personalQ[1..])
    else if q.retryBuffer != [] then r == Got(q.retryBuffer[0]) && q' == q.(retryBuffer := q.retryBuffer[1..])
    else if q.qP1 != [] then r == Got(q.qP1[0]) && q' == q.(qP1 := q.qP1[1..])
    else if q.qP2 != [] then r == Got(q.qP2[0]) && q' == q.(qP2 := q.qP2[1..])
    else if q.qP3 != [] then r == Got(q.qP3[0]) && q' == q.(qP3 := q.qP3[1..])
    else if q.qP4 != [] then r == Got(q.qP4[0]) && q' == q.(qP4 := q.qP4[1..])
    else r == Empty && q' == q
  }

  lemma PopMeans(q: Queue)
    ensures Hands(q, Answer(q), if q.closed then q else AfterPop(q))
  {
    assert LANES[0] == Personal && LANES[1] == Retry && LANES[2] == P1 && LANES[3] == P2 && LANES[4] == P3 && LANES[5] == P4;
    var s := Serving(q, 0);
    assert forall k :: 0 <= k < s ==> q.On(LANES[k]) == [];
  }

  // ----- the queue in place -----

  datatype Dequeued = Closed | Empty | Got(msg: Message)

  /** What one pass of Dequeue answers: a closed queue hands out nothing. */
  function Answer(q: Queue): Dequeued {
    if q.closed then Closed else match Next(q) case Nothing => Empty case Item(_, msg) => Got(msg)
  }

  class PriorityQueue {
    var closed: bool
    var personalQ: seq<Message>
    var retryBuffer: seq<Message>
    var qP1: seq<Message>
    var qP2: seq<Message>
    var qP3: seq<Message>
    var qP4: seq<Message>
    const retryCap: nat

    ghost function View(): Queue
      reads this
    {
      Queue(closed, personalQ, retryBuffer, qP1, qP2, qP3, qP4)
    }

    constructor (cap: int)
      ensures View() == EMPTY_QUEUE && retryCap == if cap < 0 then 0 else cap
    {
      retryCap := if cap < 0 then 0 else cap;
      closed := false;
      personalQ, retryBuffer, qP1, qP2, qP3, qP4 := [], [], [], [], [], [];
    }

    method Close()
      modifies this
      ensures View() == old(View()).(closed := true)
    {
      closed := true;
    }

    /** Appends a message to the list its fields name: personal messages to their own list,
        priorities 1, 2 and 3 to theirs, and every other priority to the last. */
    method Enqueue(msg: Message, now: int) returns (ok: bool)
      modifies this
      ensures ok == !old(closed)
      ensures View() == Enqueued(old(View()), msg, now)
      ensures !ok ==> View() == old(View())
      ensures ok ==>
                var m := if msg.createdAt == 0 then msg.(createdAt := now) else msg;
                var q := old(View());
                View() == if msg.personal then q.(personalQ := q.personalQ + [m])
                          else if msg.priority == 1 then q.(qP1 := q.qP1 + [m])
                          else if msg.priority == 2 then q.(qP2 := q.qP2 + [m])
                          else if msg.priority == 3 then q.(qP3 := q.qP3 + [m])
                          else q.(qP4 := q.qP4 + [m])
    {
      if closed { return false; }
      var m := msg;
      if m.createdAt == 0 { m := m.(createdAt := now); }
      if m.personal {
        personalQ := personalQ + [m];
        return true;
      }
      match m.priority {
        case 1 => qP1 := qP1 + [m];
        case 2 => qP2 := qP2 + [m];
        case 3 => qP3 := qP3 + [m];
        case _ => qP4 := qP4 + [m];
      }
      return true;
    }

    /** Keeps a message for a retry, with its count one up, unless the queue is closed or its
        retries are used up; when the list is full its oldest message goes. */
    method RetryP1(msg: Message)
      modifies this
      ensures View() == Retried(old(View()), msg, retryCap)
      ensures var q := old(View());
              View() == if q.closed || (0 < msg.maxRetries && msg.maxRetries <= msg.retryCount) then q
                        else if 0 < retryCap && retryCap <= |q.retryBuffer| then
                          q.(retryBuffer := q.retryBuffer[1..] + [msg.(retryCount := msg.retryCount + 1)])
                        else q.(retryBuffer := q.retryBuffer + [msg.(retryCount := msg.retryCount + 1)])
    {
      if closed { return; }
      var m := msg.(retryCount := msg.retryCount + 1);
      if 0 < m.maxRetries && m.maxRetries < m.retryCount { return; }
      if 0 < retryCap && retryCap <= |retryBuffer| {
        retryBuffer := retryBuffer[1..];
      }
      retryBuffer := retryBuffer + [m];
    }

    method PopNext() returns (p: Popped)
      modifies this
      ensures p == Next(old(View())) && View() == AfterPop(old(View()))
    {
      for r := 0 to 6
        invariant View() == old(View())
        invariant Serving(View(), 0) == Serving(View(), r)
      {
        var lst := ListAt(LANES[r]);
        if |lst| == 0 { continue; }
        SetList(LANES[r], lst[1..]);
        return Item(LANES[r], lst[0]);
      }
      return Nothing;
    }

    function ListAt(l: Lane): (s: seq<Message>)
      reads this
      ensures s == View().On(l)
    {
      match l
      case Personal => personalQ
      case Retry => retryBuffer
      case P1 => qP1
      case P2 => qP2
      case P3 => qP3
      case P4 => qP4
    }

    method SetList(l: Lane, s: seq<Message>)
      modifies this
      ensures View() == old(View()).Put(l, s)
    {
      match l {
        case Personal => personalQ := s;
        case Retry => retryBuffer := s;
        case P1 => qP1 := s;
        case P2 => qP2 := s;
        case P3 => qP3 := s;
        case P4 => qP4 := s;
      }
    }

    /** One pass of Dequeue: a closed queue hands out nothing, whatever it still holds. */
    method Dequeue() returns (r: Dequeued)
      modifies this
      ensures r == Answer(old(View()))
      ensures View() == Step(old(View()), Pop, retryCap)
      ensures Hands(old(View()), r, View())
    {
      PopMeans(View());
      if closed { return Closed; }
      var p := PopNext();
      r := match p case Nothing => Empty case Item(_, msg) => Got(msg);
    }

    method Len() returns (n: nat)
      ensures n == |Arrange(View())|
    {
      n := |personalQ| + |retryBuffer| + |qP1| + |qP2| + |qP3| + |qP4|;
    }
  }

  // ----- runs and their ledger -----

  datatype Op = Push(msg: Message, now: int) | PushRetry(msg: Message) | Pop | Shut

  datatype Run = Start | Then(before: Run, op: Op)

  function QueueAfter(run: Run, cap: nat): Queue {
    match run
    case Start => EMPTY_QUEUE
    case Then(before, op) => Step(QueueAfter(before, cap), op, cap)
  }

  function Step(q: Queue, op: Op, cap: nat): Queue {
    match op
    case Push(msg, now) => Enqueued(q, msg, now)
    case PushRetry(msg) => Retried(q, msg, cap)
    case Pop => if q.closed then q else AfterPop(q)
    case Shut => q.(closed := true)
  }

  /** What one call appends to a lane. */
  function Appends(q: Queue, op: Op, l: Lane): seq<Message> {
    match op
    case Push(msg, now) => if !q.closed && LaneOf(msg) == l then [Stamped(msg, now)] else []
    case PushRetry(msg) => if l == Retry && KeepsRetry(q, msg) then [Counted(msg)] else []
    case _ => []
  }

  /** Every message ever appended to a lane, oldest first. */
  function PushLog(run: Run, l: Lane, cap: nat): seq<Message> {
    match run
    case Start => []
    case Then(before, op) => PushLog(before, l, cap) + Appends(QueueAfter(before, cap), op, l)
  }

  datatype Exit = Delivered(msg: Message) | Evicted(msg: Message)

  /** What one call takes off a lane. */
  function Leaves(q: Queue, op: Op, l: Lane, cap: nat): seq<Exit> {
    match op
    case Pop => if !q.closed && Next(q).Item? && Next(q).lane == l then [Delivered(Next(q).msg)] else []
    case PushRetry(msg) => if l == Retry && KeepsRetry(q, msg) && Evicts(q, cap) then [Evicted(q.retryBuffer[0])] else []
    case _ => []
  }

  /** Every message that left a lane and how, oldest first. */
  function Exits(run: Run, l: Lane, cap: nat): seq<Exit> {
    match run
    case Start => []
    case Then(before, op) => Exits(before, l, cap) + Leaves(QueueAfter(before, cap), op, l, cap)
  }

  function Messages(exits: seq<Exit>): seq<Message> {
    if exits == [] then [] else Messages(exits[..|exits| - 1]) + [exits[|exits| - 1].msg]
  }

  lemma MessagesOne(e: Exit)
    ensures Messages([e]) == [e.msg]
  {
    assert [e][..0] == [];
  }

  lemma MessagesConcat(exits: seq<Exit>, more: seq<Exit>)
    requires |more| <= 1
    ensures Messages(exits + more) == Messages(exits) + Messages(more)
  {
    if more == [] {
      assert exits + more == exits;
    } else {
      assert (exits + more)[..|exits|] == exits;
    }
  }

  lemma PopShifts(q: Queue, l: Lane)
    ensures q.On(l) == (if Next(q).Item? && Next(q).lane == l then [Next(q).msg] else []) + AfterPop(q).On(l)
  {
    var s := Serving(q, 0);
    if s < 6 && LANES[s] == l {
      assert q.On(l) == [q.On(l)[0]] + q.On(l)[1..];
    }
  }

  lemma RetryBalances(q: Queue, msg: Message, l: Lane, cap: nat)
    ensures Messages(Leaves(q, PushRetry(msg), l, cap)) + Retried(q, msg, cap).On(l) == q.On(l) + Appends(q, PushRetry(msg), l)
  {
    if l == Retry && KeepsRetry(q, msg) && Evicts(q, cap) {
      assert q.retryBuffer == [q.retryBuffer[0]] + q.retryBuffer[1..];
    }
  }

  lemma PushBalances(q: Queue, msg: Message, now: int, l: Lane, cap: nat)
    ensures Messages(Leaves(q, Push(msg, now), l, cap)) + Enqueued(q, msg, now).On(l) == q.On(l) + Appends(q, Push(msg, now), l)
  {
  }

  lemma PopBalances(q: Queue, l: Lane, cap: nat)
    ensures Messages(Leaves(q, Pop, l, cap)) + Step(q, Pop, cap).On(l) == q.On(l) + Appends(q, Pop, l)
  {
    if !q.closed {
      PopShifts(q, l);
      if Next(q).Item? { MessagesOne(Delivered(Next(q).msg)); }
    }
  }

  /** One call: what leaves a lane, then what it holds after, is what it held before,
      then what is appended. */
  lemma StepBalances(q: Queue, op: Op, l: Lane, cap: nat)
    ensures Messages(Leaves(q, op, l, cap)) + Step(q, op, cap).On(l) == q.On(l) + Appends(q, op, l)
  {
    match op
    case Push(msg, now) => PushBalances(q, msg, now, l, cap);
    case PushRetry(msg) => RetryBalances(q, msg, l, cap);
    case Pop => PopBalances(q, l, cap);
    case Shut =>
  }

  lemma Regroup(a: seq<Message>, b: seq<Message>, c: seq<Message>, d: seq<Message>, e: seq<Message>)
    requires b + c == d + e
    ensures (a + b) + c == (a + d) + e
  {
    assert (a + b) + c == a + (b + c);
    assert (a + d) + e == a + (d + e);
  }

  lemma BalanceCarries(exits: seq<Exit>, more: seq<Exit>, held: seq<Message>, held': seq<Message>,
                       pushed: seq<Message>, appended: seq<Message>)
    requires |more| <= 1
    requires Messages(exits) + held == pushed
    requires Messages(more) + held' == held + appended
    ensures Messages(exits + more) + held' == pushed + appended
  {
    MessagesConcat(exits, more);
    Regroup(Messages(exits), Messages(more), held', held, appended);
  }

  /** The ledger: in every run, what left a lane followed by what it still holds is
      exactly what was ever appended to it. */
  lemma {:induction false} QueueLedger(run: Run, l: Lane, cap: nat)
    ensures Messages(Exits(run, l, cap)) + QueueAfter(run, cap).On(l) == PushLog(run, l, cap)
  {
    match run
    case Start =>
    case Then(before, op) =>
      var q := QueueAfter(before, cap);
      QueueLedger(before, l, cap);
      StepBalances(q, op, l, cap);
      BalanceCarries(Exits(before, l, cap), Leaves(q, op, l, cap), q.On(l), Step(q, op, cap).On(l),
                     PushLog(before, l, cap), Appends(q, op, l));
  }

  /** Only the retry lane evicts: what left another lane was delivered. */
  lemma {:induction false} OnlyRetryEvicts(run: Run, l: Lane, cap: nat)
    requires l != Retry
    ensures forall e :: e in Exits(run, l, cap) ==> e.Delivered?
  {
    if run.Then? { OnlyRetryEvicts(run.before, l, cap); }
  }

  /** With a positive cap the retry lane never holds more than that. */
  lemma {:induction false} RetryBounded(run: Run, cap: nat)
    requires 0 < cap
    ensures Waiting(run, cap) <= cap
  {
    if run.Then? { RetryBounded(run.before, cap); }
  }

  /** n retries of one message. */
  function Retries(msg: Message, n: nat): Run {
    if n == 0 then Start else Then(Retries(msg, n - 1), PushRetry(msg))
  }

  /** How many messages wait for a retry after a run. */
  function Waiting(run: Run, cap: nat): nat {
    |QueueAfter(run, cap).retryBuffer|
  }

  lemma {:induction false} ZeroCapReaches(msg: Message, n: nat)
    requires msg.maxRetries <= 0
    ensures !QueueAfter(Retries(msg, n), 0).closed
    ensures Waiting(Retries(msg, n), 0) == n
  {
    if 0 < n { ZeroCapReaches(msg, n - 1); }
  }

  /** Some run leaves n messages waiting for a retry. */
  ghost predicate Reachable(n: nat, cap: nat) {
    exists run :: Waiting(run, cap) == n
  }

  const REPEATABLE := Message(1, false, [], 0, 0, 0)

  /** The cap bounds the retry lane in every run exactly when it is positive: with a cap of
      0, which is also what a negative one becomes, some run reaches every length. */
  lemma RetryBoundedIff(cap: nat)
    ensures (forall run :: Waiting(run, cap) <= cap) <==> 0 < cap
    ensures cap == 0 ==> forall n: nat :: Reachable(n, cap)
  {
    if cap == 0 {
      forall n: nat ensures Reachable(n, cap) {
        ZeroCapReaches(REPEATABLE, n);
      }
      ZeroCapReaches(REPEATABLE, 1);
    } else {
      forall run ensures Waiting(run, cap) <= cap { RetryBounded(run, cap); }
    }
  }

  // ----- the reference: one list in order of arrival -----

  datatype Entry = Entry(lane: Lane, msg: Message)

  function Project(p: seq<Entry>, l: Lane): seq<Message> {
    if p == [] then []
    else (if p[0].lane == l then [p[0].msg] else []) + Project(p[1..], l)
  }

  function RemoveFirst(p: seq<Entry>, l: Lane): seq<Entry> {
    if p == [] then [] else if p[0].lane == l then p[1..] else [p[0]] + RemoveFirst(p[1..], l)
  }

  /** The position of the entry to serve next: the earliest among those of least rank. */
  function Best(p: seq<Entry>): (k: nat)
    requires p != []
    ensures k < |p|
    ensures forall i :: 0 <= i < |p| ==> p[k].lane.Rank() <= p[i].lane.Rank()
    ensures forall i :: 0 <= i < k ==> p[k].lane.Rank() < p[i].lane.Rank()
  {
    if |p| == 1 then 0
    else
      var k := Best(p[1..]) + 1;
      if p[0].lane.Rank() <= p[k].lane.Rank() then 0 else k
  }

  /** A queue and an arrival-ordered list that hold the same messages. */
  ghost predicate Holds(q: Queue, p: seq<Entry>) {
    forall l :: q.On(l) == Project(p, l)
  }

  lemma ProjectCons(e: Entry, s: seq<Entry>, l: Lane)
    ensures Project([e] + s, l) == (if e.lane == l then [e.msg] else []) + Project(s, l)
  {
    assert ([e] + s)[1..] == s;
  }

  lemma {:induction false} ProjectSnoc(p: seq<Entry>, e: Entry, l: Lane)
    ensures Project(p + [e], l) == Project(p, l) + if e.lane == l then [e.msg] else []
  {
    var more := if e.lane == l then [e.msg] else [];
    if p == [] {
      assert p + [e] == [e];
      assert Project([e], l) == more + Project([e][1..], l);
    } else {
      var q, t := p + [e], p[1..];
      ProjectSnoc(t, e, l);
      assert q[0] == p[0] && q[1..] == t + [e];
      var first := if p[0].lane == l then [p[0].msg] else [];
      assert Project(q, l) == first + Project(t + [e], l);
      assert first + (Project(t, l) + more) == (first + Project(t, l)) + more;
    }
  }

  lemma ProjectHeadTail(p: seq<Entry>, m: Lane)
    requires p != []
    ensures p[0].lane == m ==> Project(p, m) == [p[0].msg] + Project(p[1..], m) && Project(p, m)[1..] == Project(p[1..], m)
    ensures p[0].lane != m ==> Project(p, m) == Project(p[1..], m)
  {
  }

  lemma {:induction false} ProjectRemoveFirst(p: seq<Entry>, l: Lane, m: Lane)
    ensures Project(RemoveFirst(p, l), m) ==
              if m == l && Project(p, l) != [] then Project(p, l)[1..] else Project(p, m)
  {
    if p != [] {
      ProjectHeadTail(p, m);
      ProjectHeadTail(p, l);
      if p[0].lane != l {
        ProjectRemoveFirst(p[1..], l, m);
        ProjectCons(p[0], RemoveFirst(p[1..], l), m);
      }
    }
  }

  lemma {:induction false} ProjectEmpty(p: seq<Entry>, l: Lane)
    ensures Project(p, l) == [] <==> forall i :: 0 <= i < |p| ==> p[i].lane != l
  {
    if p != [] {
      ProjectEmpty(p[1..], l);
      var rest := p[1..];
      assert forall i :: 1 <= i < |p| ==> p[i] == rest[i - 1];
      if Project(p, l) == [] {
        assert forall i :: 0 <= i < |rest| ==> rest[i].lane != l;
      }
    }
  }

  lemma {:induction false} ProjectHead(p: seq<Entry>, k: nat)
    requires k < |p| && forall i :: 0 <= i < k ==> p[i].lane != p[k].lane
    ensures Project(p, p[k].lane) != [] && Project(p, p[k].lane)[0] == p[k].msg
  {
    if 0 < k {
      var rest := p[1..];
      assert forall i :: 0 <= i < k - 1 ==> rest[i] == p[i + 1];
      ProjectHead(rest, k - 1);
    }
  }

  lemma LaneAtRank(l: Lane)
    ensures l.Rank() < 6 && LANES[l.Rank()] == l
  {
  }

  lemma RankOfLane(s: nat)
    requires s < 6
    ensures LANES[s].Rank() == s
  {
  }

  lemma ServesBestRank(q: Queue, p: seq<Entry>)
    requires Holds(q, p) && p != []
    ensures Serving(q, 0) == p[Best(p)].lane.Rank()
  {
    var k, s := Best(p), Serving(q, 0);
    LaneAtRank(p[k].lane);
    ProjectHead(p, k);
    assert q.On(p[k].lane) != [];
    ProjectEmpty(p, LANES[s]);
    var i :| 0 <= i < |p| && p[i].lane == LANES[s];
    RankOfLane(s);
  }

  lemma HeadRemoved(q: Queue, p: seq<Entry>, l: Lane)
    requires Holds(q, p) && q.On(l) != []
    ensures Holds(q.Put(l, q.On(l)[1..]), RemoveFirst(p, l))
  {
    forall m ensures q.Put(l, q.On(l)[1..]).On(m) == Project(RemoveFirst(p, l), m) {
      ProjectRemoveFirst(p, l, m);
    }
  }

  /** The six lists serve exactly the message that the single list would: the earliest
      arrival of least rank. */
  lemma ServesEarliestOfLeastRank(q: Queue, p: seq<Entry>)
    requires Holds(q, p)
    ensures Next(q).Nothing? <==> p == []
    ensures p != [] ==> Next(q) == Item(p[Best(p)].lane, p[Best(p)].msg)
                        && Holds(AfterPop(q), RemoveFirst(p, p[Best(p)].lane))
  {
    if p == [] {
      assert forall l :: q.On(l) == [];
    } else {
      var k := Best(p);
      ServesBestRank(q, p);
      LaneAtRank(p[k].lane);
      ProjectHead(p, k);
      HeadRemoved(q, p, p[k].lane);
    }
  }

  lemma PushedHolds(q: Queue, p: seq<Entry>, l: Lane, msg: Message)
    requires Holds(q, p)
    ensures Holds(q.Put(l, q.On(l) + [msg]), p + [Entry(l, msg)])
  {
    forall m ensures q.Put(l, q.On(l) + [msg]).On(m) == Project(p + [Entry(l, msg)], m) {
      ProjectSnoc(p, Entry(l, msg), m);
    }
  }

  /** The single arrival-ordered list after a run. */
  function ListAfter(run: Run, cap: nat): seq<Entry> {
    if run.Start? then []
    else
      var q, p := QueueAfter(run.before, cap), ListAfter(run.before, cap);
      match run.op
      case Push(msg, now) => if q.closed then p else p + [Entry(LaneOf(msg), Stamped(msg, now))]
      case PushRetry(msg) =>
        if !KeepsRetry(q, msg) then p
        else (if Evicts(q, cap) then RemoveFirst(p, Retry) else p) + [Entry(Retry, Counted(msg))]
      case Pop => if q.closed || p == [] then p else RemoveFirst(p, p[Best(p)].lane)
      case Shut => p
  }

  lemma HeadEvicted(q: Queue, p: seq<Entry>)
    requires Holds(q, p) && q.retryBuffer != []
    ensures Holds(q.(retryBuffer := q.retryBuffer[1..]), RemoveFirst(p, Retry))
  {
    HeadRemoved(q, p, Retry);
  }

  lemma RetriedHolds(q: Queue, p: seq<Entry>, msg: Message, cap: nat)
    requires Holds(q, p) && KeepsRetry(q, msg)
    ensures Holds(Retried(q, msg, cap), (if Evicts(q, cap) then RemoveFirst(p, Retry) else p) + [Entry(Retry, Counted(msg))])
  {
    if Evicts(q, cap) {
      HeadEvicted(q, p);
      PushedHolds(q.(retryBuffer := q.retryBuffer[1..]), RemoveFirst(p, Retry), Retry, Counted(msg));
    } else {
      PushedHolds(q, p, Retry, Counted(msg));
    }
  }

  /** In every run the six lists refine the single list. */
  lemma {:induction false} QueueRefinesList(run: Run, cap: nat)
    ensures Holds(QueueAfter(run, cap), ListAfter(run, cap))
  {
    if run.Then? {
      QueueRefinesList(run.before, cap);
      var q, p := QueueAfter(run.before, cap), ListAfter(run.before, cap);
      match run.op
      case Push(msg, now) => PushedHolds(q, p, LaneOf(msg), Stamped(msg, now));
      case PushRetry(msg) => if KeepsRetry(q, msg) { RetriedHolds(q, p, msg, cap); }
      case Pop => ServesEarliestOfLeastRank(q, p);
      case Shut =>
    }
  }

  // ----- draining -----

  function Tag(l: Lane, s: seq<Message>): seq<Entry> {
    if s == [] then [] else [Entry(l, s[0])] + Tag(l, s[1..])
  }

  /** The lanes one after the other, by rank. */
  function Arrange(q: Queue): (p: seq<Entry>)
    ensures |p| == |q.personalQ| + |q.retryBuffer| + |q.qP1| + |q.qP2| + |q.qP3| + |q.qP4|
  {
    TagLength(Personal, q.personalQ);
    TagLength(Retry, q.retryBuffer);
    TagLength(P1, q.qP1);
    TagLength(P2, q.qP2);
    TagLength(P3, q.qP3);
    TagLength(P4, q.qP4);
    Tag(Personal, q.personalQ) + Tag(Retry, q.retryBuffer)
    + Tag(P1, q.qP1) + Tag(P2, q.qP2) + Tag(P3, q.qP3) + Tag(P4, q.qP4)
  }

  lemma {:induction false} TagLength(l: Lane, s: seq<Message>)
    ensures |Tag(l, s)| == |s|
    ensures forall i :: 0 <= i < |s| ==> Tag(l, s)[i] == Entry(l, s[i])
  {
    if s != [] { TagLength(l, s[1..]); }
  }

  /** What repeated dequeuing hands out when nothing else happens. */
  function Drain(p: seq<Entry>): seq<Entry>
    decreases |p|
  {
    if p == [] then []
    else
      RemoveFirstShrinks(p, Best(p));
      [p[Best(p)]] + Drain(RemoveFirst(p, p[Best(p)].lane))
  }

  lemma {:induction false} RemoveFirstShrinks(p: seq<Entry>, k: nat)
    requires k < |p|
    ensures |RemoveFirst(p, p[k].lane)| == |p| - 1
    ensures forall e :: e in RemoveFirst(p, p[k].lane) ==> e in p
  {
    if p[0].lane != p[k].lane {
      assert p[1..][k - 1] == p[k];
      RemoveFirstShrinks(p[1..], k - 1);
    }
  }

  ghost predicate ByRank(p: seq<Entry>) {
    forall i, j :: 0 <= i < j < |p| ==> p[i].lane.Rank() <= p[j].lane.Rank()
  }

  /** Draining is the stable sort by rank: the output is ordered by rank, and each lane's
      messages keep their order of arrival. */
  lemma DrainIsStableSort(p: seq<Entry>)
    ensures ByRank(Drain(p))
    ensures forall l :: Project(Drain(p), l) == Project(p, l)
  {
    DrainIsByRank(p);
    forall l ensures Project(Drain(p), l) == Project(p, l) { DrainKeepsLane(p, l); }
  }

  lemma {:induction false} DrainIsByRank(p: seq<Entry>)
    ensures ByRank(Drain(p))
    ensures forall e :: e in Drain(p) ==> e in p
    decreases |p|
  {
    if p != [] {
      var k := Best(p);
      var rest := RemoveFirst(p, p[k].lane);
      RemoveFirstShrinks(p, k);
      DrainIsByRank(rest);
      forall e | e in Drain(rest) ensures p[k].lane.Rank() <= e.lane.Rank() {
        assert e in p;
      }
    }
  }

  lemma {:induction false} DrainKeepsLane(p: seq<Entry>, l: Lane)
    ensures Project(Drain(p), l) == Project(p, l)
    decreases |p|
  {
    if p != [] {
      var k := Best(p);
      var rest := RemoveFirst(p, p[k].lane);
      RemoveFirstShrinks(p, k);
      DrainKeepsLane(rest, l);
      ProjectHead(p, k);
      ProjectCons(p[k], Drain(rest), l);
      ProjectRemoveFirst(p, p[k].lane, l);
      if p[k].lane == l {
        assert Project(p, l) == [p[k].msg] + Project(p, l)[1..];
      }
    }
  }

  /** What one Dequeue hands out: nothing from an empty queue and nothing from a closed one. */
  function Handed(q: Queue): seq<Entry> {
    if q.closed || Next(q).Nothing? then [] else [Entry(Next(q).lane, Next(q).msg)]
  }

  /** What Dequeue hands out when it is called until it has nothing to hand out. */
  function DrainQueue(q: Queue, cap: nat): seq<Entry>
    decreases |Arrange(q)|
  {
    if Handed(q) == [] then [] else Handed(q) + DrainQueue(Step(q, Pop, cap), cap)
  }

  lemma HandedIsBest(q: Queue, cap: nat, p: seq<Entry>)
    requires Holds(q, p) && !q.closed
    ensures p == [] ==> Handed(q) == []
    ensures p != [] ==> Handed(q) == [p[Best(p)]]
                        && Holds(Step(q, Pop, cap), RemoveFirst(p, p[Best(p)].lane)) && !Step(q, Pop, cap).closed
  {
    ServesEarliestOfLeastRank(q, p);
  }

  lemma {:induction false} DrainQueueDrainsList(q: Queue, cap: nat, p: seq<Entry>)
    requires Holds(q, p) && !q.closed
    ensures DrainQueue(q, cap) == Drain(p)
    decreases |p|
  {
    HandedIsBest(q, cap, p);
    if p != [] {
      RemoveFirstShrinks(p, Best(p));
      DrainQueueDrainsList(Step(q, Pop, cap), cap, RemoveFirst(p, p[Best(p)].lane));
    }
  }

  predicate Closes(run: Run) {
    run.Then? && (run.op.Shut? || Closes(run.before))
  }

  lemma {:induction false} ClosedIffShut(run: Run, cap: nat)
    ensures QueueAfter(run, cap).closed <==> Closes(run)
  {
    if run.Then? { ClosedIffShut(run.before, cap); }
  }

  /** After any run, repeated dequeuing hands out nothing when the queue was ever closed;
      otherwise it hands out all messages, ordered by rank, and within a lane in order of
      arrival. */
  lemma DrainedInOrder(run: Run, cap: nat)
    ensures var out := DrainQueue(QueueAfter(run, cap), cap);
            if Closes(run) then out == []
            else ByRank(out) && forall l :: Project(out, l) == Project(ListAfter(run, cap), l)
  {
    ClosedIffShut(run, cap);
    if !Closes(run) {
      QueueRefinesList(run, cap);
      DrainQueueDrainsList(QueueAfter(run, cap), cap, ListAfter(run, cap));
      DrainIsStableSort(ListAfter(run, cap));
    }
  }

  /** When a message is handed out, by its own fields: personal messages first, then what
      came back for a retry, then the priorities 1, 2 and 3, and every other priority last. */
  function Turn(e: Entry): nat {
    if e.lane == Retry then 1
    else if e.msg.personal then 0
    else if e.msg.priority == 1 then 2
    else if e.msg.priority == 2 then 3
    else if e.msg.priority == 3 then 4
    else 5
  }

  /** The messages of one turn, in order. */
  function OfTurn(p: seq<Entry>, t: nat): seq<Message> {
    if p == [] then [] else (if Turn(p[0]) == t then [p[0].msg] else []) + OfTurn(p[1..], t)
  }

  ghost predicate Sorted(p: seq<Entry>) {
    forall e :: e in p ==> Turn(e) == e.lane.Rank()
  }

  lemma {:induction false} RemoveFirstSubset(p: seq<Entry>, l: Lane)
    ensures forall e :: e in RemoveFirst(p, l) ==> e in p
  {
    if p != [] { RemoveFirstSubset(p[1..], l); }
  }

  /** In every run each message waits where its fields say. */
  lemma {:induction false} RunIsSorted(run: Run, cap: nat)
    ensures Sorted(ListAfter(run, cap))
  {
    if run.Then? {
      RunIsSorted(run.before, cap);
      var p := ListAfter(run.before, cap);
      RemoveFirstSubset(p, Retry);
      if p != [] { RemoveFirstSubset(p, p[Best(p)].lane); }
    }
  }

  lemma {:induction false} OfTurnIsProject(p: seq<Entry>, l: Lane)
    requires Sorted(p)
    ensures OfTurn(p, l.Rank()) == Project(p, l)
  {
    if p != [] {
      assert Turn(p[0]) == p[0].lane.Rank();
      assert Sorted(p[1..]);
      OfTurnIsProject(p[1..], l);
    }
  }

  /** After any run that did not close the queue, what is waiting is handed out in turns by
      the messages' own fields, and within a turn in order of arrival. */
  lemma DrainedByFields(run: Run, cap: nat)
    requires !Closes(run)
    ensures var p, out := ListAfter(run, cap), DrainQueue(QueueAfter(run, cap), cap);
            && (forall i, j :: 0 <= i < j < |out| ==> Turn(out[i]) <= Turn(out[j]))
            && forall t: nat :: t < 6 ==> OfTurn(out, t) == OfTurn(p, t)
  {
    var p, out := ListAfter(run, cap), DrainQueue(QueueAfter(run, cap), cap);
    RunIsSorted(run, cap);
    DrainedInOrder(run, cap);
    ClosedIffShut(run, cap);
    QueueRefinesList(run, cap);
    DrainQueueDrainsList(QueueAfter(run, cap), cap, p);
    DrainIsByRank(p);
    assert Sorted(out);
    forall t: nat | t < 6 ensures OfTurn(out, t) == OfTurn(p, t) {
      RankOfLane(t);
      OfTurnIsProject(out, LANES[t]);
      OfTurnIsProject(p, LANES[t]);
    }
  }

  /** What a queue holds when it is closed is never delivered, evicted or added to: whatever
      is called after, the lists and the ledger stay as they were. */
  lemma {:induction false} ClosedForGood(run: Run, later: Run, l: Lane, cap: nat)
    requires Closes(run) && Extends(later, run)
    ensures QueueAfter(later, cap) == QueueAfter(run, cap)
    ensures Exits(later, l, cap) == Exits(run, l, cap) && PushLog(later, l, cap) == PushLog(run, l, cap)
  {
    ClosedIffShut(run, cap);
    if later != run { ClosedForGood(run, later.before, l, cap); }
  }

  /** `later` is `run` with more calls after it. */
  predicate Extends(later: Run, run: Run) {
    later == run || (later.Then? && Extends(later.before, run))
  }
}
