/** The websocket hub: connected clients, whose user each of them is, and the delivery of
    messages through each client's limiter and queue. Each call is one atomic step. */
module Hubs {
  import opened Clock
  import opened Text
  import opened PriorityQueues
  import opened RateLimits

  type ClientID = string
  type UserID = string

  // ----- one client -----

  /** A client's limiter and queue, with their settings, as a value. */
  datatype Seat = Seat(rate: int, cap: nat, bucket: Bucket, queue: Queue)

  /** What the clock reads for one client during a call: at its limiter and at its queue. */
  datatype Reading = Reading(limiter: int, stamp: int)

  /** Messages that are kept for a retry when the limiter refuses them. */
  predicate Urgent(msg: Message) {
    msg.priority == 1 || msg.personal
  }

  /** Offering a message to a client. */
  function Offered(s: Seat, msg: Message, r: Reading): Seat {
    s.(bucket := Asked(s.bucket, s.rate, r.limiter),
       queue := if Grants(s.bucket, s.rate, r.limiter) then Enqueued(s.queue, msg, r.stamp)
                else if Urgent(msg) then Retried(s.queue, msg, s.cap)
                else s.queue)
  }

  /** A client's seat after its connection has taken the next message. */
  function Served(s: Seat): Seat {
    s.(queue := Step(s.queue, Pop, s.cap))
  }

  predicate Delivers(s: Seat, r: Reading) {
    Grants(s.bucket, s.rate, r.limiter) && !s.queue.closed
  }

  function Capacity(cap: int): nat {
    if cap < 0 then 0 else cap
  }

  /** The seat of a client that has just connected. */
  function NewSeat(rate: int, cap: int, now: int): Seat {
    Seat(RateOr20(rate), Capacity(cap), Bucket(RateOr20(rate), now), EMPTY_QUEUE)
  }

  /** What every connected client's seat keeps. */
  ghost predicate Sound(s: Seat) {
    0 < s.rate && InRange(s.bucket, s.rate) && !s.queue.closed
  }

  lemma OfferKeepsSound(s: Seat, msg: Message, r: Reading)
    requires Sound(s)
    ensures Sound(Offered(s, msg, r))
  {
    AskPays(s.bucket, s.rate, r.limiter);
  }

  /** The hub's rule for a client's rate. */
  function RateOr20(rate: int): int {
    if rate <= 0 then 20 else rate
  }

  /** A new client's seat: the rate asked for or 20, a full bucket, and an open empty queue
      whose retry cap is not negative. */
  lemma NewSeatFields(rate: int, cap: int, now: int)
    ensures var s := NewSeat(rate, cap, now);
            && s.rate == (if 0 < rate then rate else 20) && s.cap == (if 0 < cap then cap else 0)
            && s.bucket == Bucket(s.rate, now) && s.queue == Queue(false, [], [], [], [], [], [])
            && Sound(s)
  {
  }

  /** What an offer does to a client's queue, by the message's own fields: with a token it is
      enqueued, unless the queue is closed; without one, a personal or first-priority message
      goes to the retries and any other is dropped. */
  lemma OfferMeans(s: Seat, msg: Message, r: Reading)
    ensures var s' := Offered(s, msg, r);
            var m := if msg.createdAt == 0 then msg.(createdAt := r.stamp) else msg;
            && s'.rate == s.rate && s'.cap == s.cap && s'.bucket == Asked(s.bucket, s.rate, r.limiter)
            && (s.queue.closed ==> s'.queue == s.queue)
            && (!s.queue.closed && Grants(s.bucket, s.rate, r.limiter) ==>
                  s'.queue == if msg.personal then s.queue.(personalQ := s.queue.personalQ + [m])
                              else if msg.priority == 1 then s.queue.(qP1 := s.queue.qP1 + [m])
                              else if msg.priority == 2 then s.queue.(qP2 := s.queue.qP2 + [m])
                              else if msg.priority == 3 then s.queue.(qP3 := s.queue.qP3 + [m])
                              else s.queue.(qP4 := s.queue.qP4 + [m]))
            && (!Grants(s.bucket, s.rate, r.limiter) ==>
                  s'.queue == if msg.personal || msg.priority == 1 then Retried(s.queue, msg, s.cap) else s.queue)
  {
  }

  class Client {
    const id: ClientID
    const queue: PriorityQueue
    const rate: int
    var lastRefill: int
    var tokens: int

    ghost function View(): Seat
      reads this, queue
    {
      Seat(rate, queue.retryCap, Bucket(tokens, lastRefill), queue.View())
    }

    constructor (id: ClientID, rate: int, cap: int, now: int)
      ensures this.id == id && fresh(queue)
      ensures View() == NewSeat(rate, cap, now)
    {
      this.id := id;
      this.rate := RateOr20(rate);
      queue := new PriorityQueue(cap);
      lastRefill := now;
      tokens := RateOr20(rate);
    }

    method AllowSend(now: int) returns (ok: bool)
      modifies this`tokens, this`lastRefill
      ensures ok == Grants(old(View()).bucket, rate, now)
      ensures View() == old(View()).(bucket := Asked(old(View()).bucket, rate, now))
    {
      var elapsed := now - lastRefill;
      if SECOND <= elapsed {
        var refills := elapsed / SECOND;
        tokens := tokens + refills * rate;
        if rate < tokens { tokens := rate; }
        lastRefill := now;
      }
      if tokens <= 0 { return false; }
      tokens := tokens - 1;
      return true;
    }

    method Offer(msg: Message, r: Reading) returns (ok: bool)
      modifies this`tokens, this`lastRefill, queue
      ensures ok == Delivers(old(View()), r)
      ensures View() == Offered(old(View()), msg, r)
    {
      var allowed := AllowSend(r.limiter);
      if !allowed {
        if Urgent(msg) { queue.RetryP1(msg); }
        return false;
      }
      ok := queue.Enqueue(msg, r.stamp);
    }
  }

  // ----- who is connected -----

  datatype Directory = Directory(ids: set<ClientID>, clientUsers: map<ClientID, UserID>, userClients: map<UserID, set<ClientID>>)

  /** The two maps between clients and users are inverse to each other, speak of connected
      clients only, and keep no user without a client. */
  ghost predicate Mutual(d: Directory) {
    && d.clientUsers.Keys <= d.ids
    && (forall u, id :: u in d.userClients && id in d.userClients[u] ==> id in d.clientUsers && d.clientUsers[id] == u)
    && (forall id :: id in d.clientUsers ==> d.clientUsers[id] in d.userClients && id in d.userClients[d.clientUsers[id]])
    && (forall u :: u in d.userClients ==> d.userClients[u] != {} && u != "")
  }

  function Joined(d: Directory, id: ClientID, user: UserID): Directory {
    if user == "" then d.(ids := d.ids + {id})
    else
      var mates := if user in d.userClients then d.userClients[user] else {};
      Directory(d.ids + {id}, d.clientUsers[id := user], d.userClients[user := mates + {id}])
  }

  function Left(d: Directory, id: ClientID): Directory {
    if id !in d.ids then d
    else if id !in d.clientUsers then d.(ids := d.ids - {id})
    else
      var user := d.clientUsers[id];
      Directory(d.ids - {id}, d.clientUsers - {id},
                if user !in d.userClients then d.userClients
                else if d.userClients[user] - {id} == {} then d.userClients - {user}
                else d.userClients[user := d.userClients[user] - {id}])
  }

  lemma JoinKeepsMutual(d: Directory, id: ClientID, user: UserID)
    requires Mutual(d)
    requires user == "" || id !in d.clientUsers || d.clientUsers[id] == user
    ensures Mutual(Joined(d, id, user))
  {
    if user != "" {
      var j := Joined(d, id, user);
      assert id in j.userClients[user];
      forall i | i in j.clientUsers ensures j.clientUsers[i] in j.userClients && i in j.userClients[j.clientUsers[i]] {
        if i != id { assert i in d.clientUsers; }
      }
    }
  }

  /** Joining keeps the maps inverse exactly when the id is not already held by another
      user: reusing an id for a second user leaves it listed under the first. */
  lemma JoinKeepsMutualIff(d: Directory, id: ClientID, user: UserID)
    requires Mutual(d)
    ensures Mutual(Joined(d, id, user)) <==> (user == "" || id !in d.clientUsers || d.clientUsers[id] == user)
  {
    if user == "" || id !in d.clientUsers || d.clientUsers[id] == user {
      JoinKeepsMutual(d, id, user);
    } else {
      var j := Joined(d, id, user);
      assert id in j.userClients[d.clientUsers[id]] && j.clientUsers[id] == user;
    }
  }

  lemma LeaveKeepsMutual(d: Directory, id: ClientID)
    requires Mutual(d)
    ensures Mutual(Left(d, id)) && id !in Left(d, id).ids && id !in Left(d, id).clientUsers
  {
  }

  /** A client that joins under a new id and leaves again leaves no trace. */
  lemma JoinThenLeave(d: Directory, id: ClientID, user: UserID)
    requires Mutual(d) && id !in d.ids
    ensures Left(Joined(d, id, user), id) == d
  {
    var j := Joined(d, id, user);
    assert j.ids - {id} == d.ids;
    if user != "" {
      assert j.clientUsers - {id} == d.clientUsers;
      assert j.userClients[user] - {id} == if user in d.userClients then d.userClients[user] else {};
    }
  }

  /** The id of the n-th connection. */
  function ConnectionID(user: UserID, n: nat): ClientID {
    Tagged(if user == "" then "public" else user, n)
  }

  /** Connection ids never repeat, whoever connects. */
  lemma ConnectionIDsDistinct(u: UserID, m: nat, v: UserID, n: nat)
    requires m != n
    ensures ConnectionID(u, m) != ConnectionID(v, n)
  {
    TaggedCollision(if u == "" then "public" else u, m, if v == "" then "public" else v, n);
  }

  /** Clients coming and going, each connection numbered by a counter; the latest outermost. */
  datatype Visits = Nobody | Connects(before: Visits, user: UserID) | Departs(before: Visits, id: ClientID)

  function Connections(v: Visits): nat {
    match v
    case Nobody => 0
    case Connects(before, _) => Connections(before) + 1
    case Departs(before, _) => Connections(before)
  }

  function DirectoryAfter(v: Visits): Directory {
    match v
    case Nobody => Directory({}, map[], map[])
    case Connects(before, user) => Joined(DirectoryAfter(before), ConnectionID(user, Connections(v)), user)
    case Departs(before, id) => Left(DirectoryAfter(before), id)
  }

  /** The id was given to one of the first n connections. */
  ghost predicate GivenBy(id: ClientID, n: nat) {
    exists user: UserID, k: nat :: k <= n && id == ConnectionID(user, k)
  }

  lemma {:induction false} IDsWereGiven(v: Visits)
    ensures forall id :: id in DirectoryAfter(v).ids ==> GivenBy(id, Connections(v))
  {
    match v
    case Nobody =>
    case Connects(before, user) =>
      IDsWereGiven(before);
      assert GivenBy(ConnectionID(user, Connections(v)), Connections(v));
      forall id | id in DirectoryAfter(before).ids ensures GivenBy(id, Connections(v)) {
        var u: UserID, k: nat :| k <= Connections(before) && id == ConnectionID(u, k);
      }
    case Departs(before, id) => IDsWereGiven(before);
  }

  /** The next connection's id is not in use. */
  lemma NextIDIsNew(v: Visits, user: UserID)
    ensures ConnectionID(user, Connections(v) + 1) !in DirectoryAfter(v).ids
  {
    IDsWereGiven(v);
    var id := ConnectionID(user, Connections(v) + 1);
    if id in DirectoryAfter(v).ids {
      var u: UserID, k: nat :| k <= Connections(v) && id == ConnectionID(u, k);
      ConnectionIDsDistinct(user, Connections(v) + 1, u, k);
    }
  }

  /** Whoever comes and goes, the client and user maps stay inverse to each other. */
  lemma {:induction false} VisitsStayMutual(v: Visits)
    ensures Mutual(DirectoryAfter(v))
  {
    match v
    case Nobody =>
    case Connects(before, user) =>
      VisitsStayMutual(before);
      NextIDIsNew(before, user);
      JoinKeepsMutual(DirectoryAfter(before), ConnectionID(user, Connections(v)), user);
    case Departs(before, id) =>
      VisitsStayMutual(before);
      LeaveKeepsMutual(DirectoryAfter(before), id);
  }

  /** The connection numbered so was made by this user and is not over. */
  predicate PresentAs(v: Visits, id: ClientID, user: UserID) {
    match v
    case Nobody => false
    case Connects(before, u) =>
      (user != "" && u == user && id == ConnectionID(user, Connections(v))) || PresentAs(before, id, user)
    case Departs(before, gone) => id != gone && PresentAs(before, id, user)
  }

  /** The connection numbered so, of a user or of nobody, is not over. */
  predicate Present(v: Visits, id: ClientID) {
    match v
    case Nobody => false
    case Connects(before, u) => id == ConnectionID(u, Connections(v)) || Present(before, id)
    case Departs(before, gone) => id != gone && Present(before, id)
  }

  /** What joining under a new id adds to the maps. */
  lemma JoinMeans(d: Directory, id: ClientID, user: UserID)
    requires Mutual(d) && id !in d.ids
    ensures var j := Joined(d, id, user);
            && j.ids == d.ids + {id}
            && (user == "" ==> j.clientUsers == d.clientUsers && j.userClients == d.userClients)
            && (user != "" ==>
                  && j.clientUsers == d.clientUsers[id := user]
                  && j.userClients == d.userClients[user := (if user in d.userClients then d.userClients[user] else {}) + {id}])
  {
  }

  /** What leaving takes from them. */
  lemma LeaveMeans(d: Directory, id: ClientID)
    requires Mutual(d)
    ensures Left(d, id).ids == d.ids - {id} && Left(d, id).clientUsers == d.clientUsers - {id}
  {
  }

  /** Over all connections and departures the hub knows exactly the connections that are not
      over, its first map says whose each of them is, and its second map is the inverse. */
  lemma {:induction false} DirectoryShows(v: Visits, id: ClientID, user: UserID)
    ensures var d := DirectoryAfter(v);
            && (id in d.ids <==> Present(v, id))
            && (id in d.clientUsers && d.clientUsers[id] == user <==> PresentAs(v, id, user))
            && (user in d.userClients && id in d.userClients[user] <==> PresentAs(v, id, user))
  {
    VisitsStayMutual(v);
    match v
    case Nobody =>
    case Connects(before, u) =>
      VisitsStayMutual(before);
      DirectoryShows(before, id, user);
      NextIDIsNew(before, u);
      JoinMeans(DirectoryAfter(before), ConnectionID(u, Connections(v)), u);
    case Departs(before, gone) =>
      VisitsStayMutual(before);
      DirectoryShows(before, id, user);
      LeaveMeans(DirectoryAfter(before), gone);
  }

  /** The form of a connection's id: the user, or "public", a hyphen and the number. */
  lemma ConnectionIDForm(user: UserID, n: nat)
    ensures user != "" ==> ConnectionID(user, n) == user + "-" + Digits(n)
    ensures ConnectionID("", n) == "public-" + Digits(n)
  {
  }

  // ----- the hub -----

  class Hub {
    var clients: map<ClientID, Client>
    var clientUsers: map<ClientID, UserID>
    var userClients: map<UserID, set<ClientID>>
    const retryCap: int
    /** The clients and their queues. */
    ghost var Repr: set<object>

    ghost function Who(): Directory
      reads this
    {
      Directory(clients.Keys, clientUsers, userClients)
    }

    /** Every client has its own queue, in the range its limiter keeps, and the queue of a
        connected client is open. */
    ghost predicate Seated()
      reads this`clients, this`Repr, Repr
    {
      && this !in Repr
      && (forall id :: id in clients ==>
            && clients[id] in Repr && clients[id].queue in Repr
            && clients[id].id == id)
      && (forall i, j :: i in clients && j in clients && i != j ==> clients[i].queue != clients[j].queue)
      && (forall id :: id in clients ==> Sound(clients[id].View()))
    }

    ghost predicate Valid()
      reads this, Repr
    {
      Seated() && Mutual(Who())
    }

    constructor (cap: int)
      ensures Valid() && retryCap == cap && Who() == Directory({}, map[], map[])
      ensures Repr == {}
    {
      clients, clientUsers, userClients, retryCap, Repr := map[], map[], map[], cap, {};
    }

    method Enroll(id: ClientID, user: UserID)
      modifies this`clientUsers, this`userClients
      ensures Directory(clients.Keys + {id}, clientUsers, userClients) == Joined(old(Who()), id, user)
      ensures Seats() == old(Seats())
    {
      if user != "" {
        clientUsers := clientUsers[id := user];
        if user !in userClients { userClients := userClients[user := {}]; }
        userClients := userClients[user := userClients[user] + {id}];
      }
    }

    method Install(id: ClientID, rate: int, now: int) returns (c: Client)
      requires Seated()
      modifies this`clients, this`Repr
      ensures Seated() && old(Repr) <= Repr && fresh(Repr - old(Repr))
      ensures clients == old(clients)[id := c]
      ensures c.View() == NewSeat(rate, retryCap, now)
    {
      c := new Client(id, rate, retryCap, now);
      clients := clients[id := c];
      Repr := Repr + {c, c.queue};
    }

    method InstallSeat(id: ClientID, rate: int, now: int) returns (c: Client)
      requires Seated()
      modifies this`clients, this`Repr
      ensures Seated() && old(Repr) <= Repr && fresh(Repr - old(Repr))
      ensures clients == old(clients)[id := c]
      ensures c.View() == NewSeat(rate, retryCap, now)
      ensures Seats() == old(Seats())[id := NewSeat(rate, retryCap, now)]
    {
      ghost var after := Seats()[id := NewSeat(rate, retryCap, now)];
      c := Install(id, rate, now);
      assert after.Keys == clients.Keys;
      assert forall j :: j in clients ==> clients[j].View() == after[j];
    }

    /** Both parts of registering, whatever becomes of the maps' agreement. */
    method Register(id: ClientID, user: UserID, rate: int, now: int) returns (c: Client)
      requires Seated()
      modifies this
      ensures Seated() && old(Repr) <= Repr && fresh(Repr - old(Repr))
      ensures Who() == Joined(old(Who()), id, user)
      ensures clients == old(clients)[id := c]
      ensures c.View() == NewSeat(rate, retryCap, now)
      ensures Seats() == old(Seats())[id := NewSeat(rate, retryCap, now)]
    {
      Enroll(id, user);
      c := InstallSeat(id, rate, now);
      assert clients.Keys == old(clients.Keys) + {id};
    }

    /** Registers a client, replacing one of the same id. The hub stays consistent exactly
        when the id is not already held by another user, in particular when it is new. */
    method AddClientForUser(id: ClientID, user: UserID, rate: int, now: int) returns (c: Client)
      requires Valid()
      modifies this
      ensures Seated() && old(Repr) <= Repr && fresh(Repr - old(Repr))
      ensures Valid() <==> (user == "" || id !in old(clientUsers) || old(clientUsers)[id] == user)
      ensures id !in old(clients) ==> Valid()
      ensures user == "" ==> clientUsers == old(clientUsers) && userClients == old(userClients)
      ensures user != "" ==>
                && clientUsers == old(clientUsers)[id := user]
                && userClients == old(userClients)[user := old(Members(user)) + {id}]
      ensures Who() == Joined(old(Who()), id, user)
      ensures clients == old(clients)[id := c]
      ensures c.View() == NewSeat(rate, retryCap, now)
      ensures Seats() == old(Seats())[id := NewSeat(rate, retryCap, now)]
    {
      JoinKeepsMutualIff(Who(), id, user);
      c := Register(id, user, rate, now);
    }

    method Forget(id: ClientID)
      modifies this`clientUsers, this`userClients
      ensures Directory(old(clients.Keys) - {id}, clientUsers, userClients)
           == Left(Directory(old(clients.Keys) + {id}, old(clientUsers), old(userClients)), id)
    {
      assert old(clients.Keys) - {id} == old(clients.Keys) + {id} - {id};
      if id in clientUsers {
        var user := clientUsers[id];
        clientUsers := clientUsers - {id};
        if user in userClients {
          var rest := userClients[user] - {id};
          if |rest| == 0 { userClients := userClients - {user}; } else { userClients := userClients[user := rest]; }
        }
      }
    }

    method Unseat(id: ClientID)
      requires Seated() && id in clients
      modifies this`clients, clients[id].queue
      ensures Seated() && clients == old(clients) - {id}
      ensures old(clients[id]).queue.closed
      ensures forall j :: j in clients ==> clients[j].View() == old(clients[j].View())
    {
      var c := clients[id];
      clients := clients - {id};
      c.queue.Close();
    }

    /** Disconnects a client: its queue closes, and the maps forget it. */
    method RemoveClient(id: ClientID)
      requires Valid()
      modifies this, Repr
      ensures Valid() && Repr == old(Repr)
      ensures Who() == Left(old(Who()), id)
      ensures clients == old(clients) - {id}
      ensures id in old(clients) ==> old(clients[id]).queue.closed
      ensures forall j :: j in clients ==> clients[j].View() == old(clients[j].View())
    {
      LeaveKeepsMutual(Who(), id);
      assert id !in clients ==> clients - {id} == clients;
      if id in clients {
        assert clients.Keys + {id} == clients.Keys;
        Forget(id);
        Unseat(id);
        assert Who() == Left(old(Who()), id);
      }
    }

    /** Disconnects a client; the other seats stay as they are. */
    method RemoveSeat(id: ClientID)
      requires Valid()
      modifies this, Repr
      ensures Valid() && Repr == old(Repr)
      ensures Who() == Left(old(Who()), id)
      ensures Seats() == old(Seats()) - {id}
    {
      ghost var after := Seats() - {id};
      assert after.Keys == clients.Keys - {id};
      RemoveClient(id);
      assert forall j :: j in clients ==> clients[j].View() == after[j];
    }

    /** The client ids registered for a user. */
    function Members(user: UserID): set<ClientID>
      reads this`userClients
    {
      if user in userClients then userClients[user] else {}
    }

    /** What an offer to one client does to each client. */
    method OfferAt(id: ClientID, msg: Message, r: Reading) returns (ok: bool)
      requires Seated() && id in clients
      modifies Repr
      ensures Seated()
      ensures ok == Delivers(old(clients[id].View()), r)
      ensures forall j :: j in clients ==>
                clients[j].View() == if j == id then Offered(old(clients[j].View()), msg, r) else old(clients[j].View())
    {
      OfferKeepsSound(clients[id].View(), msg, r);
      ok := clients[id].Offer(msg, r);
    }

    /** What an offer to one client does to all seats. */
    method OfferSeat(id: ClientID, msg: Message, r: Reading) returns (ok: bool)
      requires Seated() && id in clients
      modifies Repr
      ensures Seated()
      ensures ok == Delivers(old(Seats())[id], r)
      ensures Seats() == old(Seats())[id := Offered(old(Seats())[id], msg, r)]
    {
      ghost var before, after := Seats(), Seats()[id := Offered(Seats()[id], msg, r)];
      assert after.Keys == clients.Keys;
      ok := OfferAt(id, msg, r);
      assert forall j :: j in clients ==> clients[j].View() == after[j];
    }

    method EnqueueForClient(id: ClientID, msg: Message, r: Reading) returns (ok: bool)
      requires Seated()
      modifies Repr
      ensures Seated()
      ensures ok == (id in clients && Delivers(old(Seats())[id], r))
      ensures Seats() == OfferedOne(old(Seats()), id, msg, r)
    {
      if id !in clients { return false; }
      ok := OfferSeat(id, msg, r);
    }

    /** What serving a client does to each client. */
    method DequeueAt(id: ClientID) returns (r: Dequeued)
      requires Seated() && id in clients
      modifies Repr
      ensures Seated()
      ensures r == Answer(old(clients[id].View()).queue)
      ensures forall j :: j in clients ==>
                clients[j].View() == if j == id then Served(old(clients[j].View())) else old(clients[j].View())
    {
      r := clients[id].queue.Dequeue();
    }

    /** What serving a client does to all seats. */
    method DequeueSeat(id: ClientID) returns (r: Dequeued)
      requires Seated() && id in clients
      modifies Repr
      ensures Seated()
      ensures r == Answer(old(Seats())[id].queue)
      ensures Seats() == old(Seats())[id := Served(old(Seats())[id])]
    {
      ghost var after := Seats()[id := Served(Seats()[id])];
      r := DequeueAt(id);
      assert after.Keys == clients.Keys;
      assert forall j :: j in clients ==> clients[j].View() == after[j];
    }

    /** A client's connection takes the next message of its queue to write it. */
    method ServeClient(id: ClientID) returns (r: Dequeued)
      requires Valid() && id in clients
      modifies Repr
      ensures Valid() && r != Closed
      ensures r == Answer(old(Seats())[id].queue)
      ensures Seats() == old(Seats())[id := Served(old(Seats())[id])]
    {
      assert Sound(clients[id].View());
      r := DequeueSeat(id);
    }

    ghost function Seats(): map<ClientID, Seat>
      reads this`clients, clients.Values, set id | id in clients :: clients[id].queue
    {
      map id | id in clients :: clients[id].View()
    }

    /** Offers a message once to each of a set of clients, in whatever order the set yields
        them; every other client is left alone. */
    method EnqueueForAll(ids: set<ClientID>, msg: Message, clock: ClientID -> Reading) returns (delivered: nat)
      requires Seated()
      modifies Repr
      ensures Seated()
      ensures Seats() == OfferedTo(old(Seats()), ids, msg, clock)
      ensures delivered == |Reached(old(Seats()), ids, clock)|
    {
      delivered := 0;
      var rest := ids;
      ghost var start, done := Seats(), {};
      while rest != {}
        invariant Seated()
        invariant done + rest == ids && done !! rest
        invariant Seats() == OfferedTo(start, done, msg, clock)
        invariant delivered == |Reached(start, done, clock)|
        decreases rest
      {
        var id :| id in rest;
        OfferNext(start, done, id, msg, clock);
        ReachedGrows(start, done, id, clock);
        var ok := EnqueueForClient(id, msg, clock(id));
        if ok { delivered := delivered + 1; }
        rest, done := rest - {id}, done + {id};
      }
      assert done == ids;
    }

    /** Offers a message to every client of a user; the count is of those it was queued for,
        and of the copies in personal lanes if the message is personal. */
    method EnqueueForUser(user: UserID, msg: Message, clock: ClientID -> Reading) returns (delivered: nat)
      requires Valid()
      modifies Repr
      ensures Valid()
      ensures Seats() == OfferedTo(old(Seats()), Members(user), msg, clock)
      ensures delivered == |Reached(old(Seats()), Members(user), clock)|
      ensures msg.personal ==> delivered == |PersonalCopies(old(Seats()), Seats(), Members(user), msg, clock)|
    {
      if msg.personal { ReachedHoldCopies(Seats(), Members(user), Members(user), msg, clock); }
      if user !in userClients { return 0; }
      delivered := EnqueueForAll(userClients[user], msg, clock);
    }

    /** Offers a message to every client. */
    method Broadcast(msg: Message, clock: ClientID -> Reading) returns (delivered: nat)
      requires Valid()
      modifies Repr
      ensures Valid()
      ensures Seats() == OfferedTo(old(Seats()), clients.Keys, msg, clock)
      ensures delivered == |Reached(old(Seats()), clients.Keys, clock)|
    {
      delivered := EnqueueForAll(clients.Keys, msg, clock);
    }
  }

  function OfferedOne(seats: map<ClientID, Seat>, id: ClientID, msg: Message, r: Reading): map<ClientID, Seat> {
    if id in seats then seats[id := Offered(seats[id], msg, r)] else seats
  }

  /** The seats after a message was offered once to each client in `ids`. */
  function OfferedTo(seats: map<ClientID, Seat>, ids: set<ClientID>, msg: Message, clock: ClientID -> Reading): map<ClientID, Seat> {
    map id | id in seats :: if id in ids then Offered(seats[id], msg, clock(id)) else seats[id]
  }

  /** The clients whose queue takes the message at once. */
  function Reached(seats: map<ClientID, Seat>, ids: set<ClientID>, clock: ClientID -> Reading): set<ClientID> {
    set id | id in ids && id in seats && Delivers(seats[id], clock(id))
  }

  lemma OfferNext(seats: map<ClientID, Seat>, done: set<ClientID>, id: ClientID, msg: Message, clock: ClientID -> Reading)
    requires id !in done
    ensures OfferedOne(OfferedTo(seats, done, msg, clock), id, msg, clock(id)) == OfferedTo(seats, done + {id}, msg, clock)
  {
  }

  lemma ReachedGrows(seats: map<ClientID, Seat>, done: set<ClientID>, id: ClientID, clock: ClientID -> Reading)
    requires id !in done
    ensures |Reached(seats, done + {id}, clock)|
         == |Reached(seats, done, clock)| + if id in seats && Delivers(seats[id], clock(id)) then 1 else 0
  {
    assert Reached(seats, done + {id}, clock)
        == Reached(seats, done, clock) + if id in seats && Delivers(seats[id], clock(id)) then {id} else {};
  }

  /** The clients whose personal lane has gained exactly this message. */
  function PersonalCopies(before: map<ClientID, Seat>, after: map<ClientID, Seat>, ids: set<ClientID>,
                          msg: Message, clock: ClientID -> Reading): set<ClientID> {
    set id | id in ids && id in before && id in after
      && after[id].queue.personalQ == before[id].queue.personalQ + [Stamped(msg, clock(id).stamp)]
  }

  /** Of the clients a personal message was offered to, those it was queued for at once are
      those whose personal lane has gained it. */
  lemma ReachedHoldCopies(seats: map<ClientID, Seat>, ids: set<ClientID>, all: set<ClientID>,
                          msg: Message, clock: ClientID -> Reading)
    requires ids <= all && msg.personal
    ensures Reached(seats, ids, clock) == PersonalCopies(seats, OfferedTo(seats, all, msg, clock), ids, msg, clock)
  {
    forall id | id in ids && id in seats
      ensures Delivers(seats[id], clock(id)) <==>
                Offered(seats[id], msg, clock(id)).queue.personalQ == seats[id].queue.personalQ + [Stamped(msg, clock(id).stamp)]
    {
      if !Delivers(seats[id], clock(id)) {
        assert Offered(seats[id], msg, clock(id)).queue.personalQ == seats[id].queue.personalQ;
      }
    }
  }

  /** Offering to some clients does not change which of the others can be reached. */
  lemma ReachedApart(seats: map<ClientID, Seat>, done: set<ClientID>, ids: set<ClientID>,
                     msg: Message, clock: ClientID -> Reading)
    requires done !! ids
    ensures Reached(OfferedTo(seats, done, msg, clock), ids, clock) == Reached(seats, ids, clock)
  {
  }

  /** A personal message with retries left ends up exactly once in a connected client's
      queue: last in the personal lane when the limiter lets it through, last in the retry
      lane otherwise, and no other lane changes. */
  lemma PersonalMessageLands(s: Seat, msg: Message, r: Reading)
    requires Sound(s) && msg.personal && (msg.maxRetries <= 0 || msg.retryCount < msg.maxRetries)
    ensures var q, q' := s.queue, Offered(s, msg, r).queue;
            if Delivers(s, r) then q' == q.(personalQ := q.personalQ + [Stamped(msg, r.stamp)])
            else q'.retryBuffer != [] && q' == q.(retryBuffer := q'.retryBuffer)
                 && q'.retryBuffer[|q'.retryBuffer| - 1] == Counted(msg)
                 && q'.retryBuffer[..|q'.retryBuffer| - 1] == if Evicts(q, s.cap) then q.retryBuffer[1..] else q.retryBuffer
  {
  }
}
