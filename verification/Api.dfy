/** The wiring: watch handlers over the listeners table, the registry and the trade
    tracker, the preload at start, and the fan-out of a spike to its watchers' clients.
    Each handler and each callback is one atomic step. */
module Api {
  import opened Text
  import opened Registries
  import Subscriptions
  import opened PriorityQueues
  import opened RateLimits
  import opened Hubs

  // ----- the watch state as a value -----

  /** The listeners table, which is unique in (user, mint), the registry's maps and the
      trade tracker, which is enabled when its feed has an address and a key. */
  datatype Watching = Watching(table: Watches, registry: Maps, feed: Subscriptions.State, enabled: bool)

  /** The tracker's two calls; a tracker that is not enabled ignores both. */
  function Tracked(w: Watching, mint: Mint): Subscriptions.State {
    if w.enabled then Subscriptions.Added(w.feed, mint) else w.feed
  }

  function Untracked(w: Watching, mint: Mint): Subscriptions.State {
    if w.enabled then Subscriptions.Removed(w.feed, mint) else w.feed
  }

  datatype Status = BadRequest | StoreError | Done

  function StatusOf(raw: string, storeOk: bool): Status {
    if TrimSpace(raw) == "" then BadRequest else if !storeOk then StoreError else Done
  }

  /** POST of a watch. */
  function Posted(w: Watching, user: User, raw: string, storeOk: bool): Watching {
    var mint := TrimSpace(raw);
    if StatusOf(raw, storeOk) != Done then w
    else Watching(w.table + {(user, mint)}, Added(w.registry, user, mint), Tracked(w, mint), w.enabled)
  }

  /** DELETE of a watch: the tracker is told only when nobody watches the mint any more. */
  function Deleted(w: Watching, user: User, raw: string, storeOk: bool): Watching {
    var mint := TrimSpace(raw);
    if StatusOf(raw, storeOk) != Done then w
    else
      var registry := Removed(w.registry, user, mint);
      Watching(w.table - {(user, mint)}, registry,
               if 0 < CountOf(registry, mint) then w.feed else Untracked(w, mint), w.enabled)
  }

  /** The start: every row of the table, in some order, goes to both. */
  function Preloaded(rows: seq<(User, Mint)>, enabled: bool): Watching {
    if rows == [] then Watching({}, NO_WATCHES, Subscriptions.INITIAL, enabled)
    else WithRow(Preloaded(rows[..|rows| - 1], enabled), rows[|rows| - 1])
  }

  function WithRow(w: Watching, row: (User, Mint)): Watching {
    Watching(w.table + {row}, Added(w.registry, row.0, row.1), Tracked(w, row.1), w.enabled)
  }

  /** Rows come from authenticated users, whose ids are numbers, and carry trimmed mints. */
  ghost predicate WellFormed(table: Watches) {
    forall p :: p in table ==> ProperRow(p)
  }

  predicate ProperRow(p: (User, Mint)) {
    ':' !in p.0 && p.1 != "" && TrimSpace(p.1) == p.1
  }

  /** The registry says what the table says. With the tracker enabled every mint is tracked
      at least as often as it is watched; a tracker that is not enabled stays untouched. */
  ghost predicate Coherent(w: Watching) {
    && WellFormed(w.table)
    && Represents(w.registry, w.table)
    && if w.enabled then forall m :: TracksWatchers(w, m) else w.feed == Subscriptions.INITIAL
  }

  ghost predicate TracksWatchers(w: Watching, m: Mint) {
    |WatchersOf(w.table, m)| <= Subscriptions.CountOf(w.feed.counts, m)
  }

  lemma ApartFrom(table: Watches, user: User)
    requires WellFormed(table) && ':' !in user
    ensures Apart(table, user)
  {
    forall p | p in table ensures !Clash(p.0, user) { ColonFreeNeverClash(p.0, user); }
  }

  lemma PostKeepsCoherent(w: Watching, user: User, raw: string, storeOk: bool)
    requires Coherent(w) && ':' !in user
    ensures Coherent(Posted(w, user, raw, storeOk))
  {
    if StatusOf(raw, storeOk) == Done {
      var mint, w' := TrimSpace(raw), Posted(w, user, raw, storeOk);
      TrimSpaceIdempotent(raw);
      ApartFrom(w.table, user);
      AddRepresents(w.registry, w.table, user, mint);
      forall m | w.enabled ensures TracksWatchers(w', m) {
        WatchersAfterAdd(w.table, user, mint, m);
        assert TracksWatchers(w, m);
      }
    }
  }

  lemma DeleteKeepsCoherent(w: Watching, user: User, raw: string, storeOk: bool)
    requires Coherent(w) && ':' !in user
    ensures Coherent(Deleted(w, user, raw, storeOk))
  {
    if StatusOf(raw, storeOk) == Done {
      var mint, w' := TrimSpace(raw), Deleted(w, user, raw, storeOk);
      TrimSpaceIdempotent(raw);
      ApartFrom(w.table, user);
      RemoveRepresents(w.registry, w.table, user, mint);
      assert AgreesAt(w'.registry, w'.table, mint);
      forall m | w.enabled ensures TracksWatchers(w', m) {
        WatchersAfterRemove(w.table, user, mint, m);
        assert TracksWatchers(w, m);
      }
    }
  }

  /** What a POST and a DELETE do to an enabled tracker's count of their mint: one more for
      each POST, one less when a DELETE leaves nobody watching it. */
  lemma HandlersTrack(w: Watching, user: User, raw: string)
    requires Coherent(w) && w.enabled && ':' !in user && TrimSpace(raw) != ""
    ensures var m, n := TrimSpace(raw), Subscriptions.CountOf(w.feed.counts, TrimSpace(raw));
            var p, d := Posted(w, user, raw, true), Deleted(w, user, raw, true);
            && p.table == w.table + {(user, m)} && d.table == w.table - {(user, m)}
            && Subscriptions.CountOf(p.feed.counts, m) == n + 1
            && Subscriptions.CountOf(d.feed.counts, m) == (if WatchersOf(d.table, m) == {} && 0 < n then n - 1 else n)
            && forall x :: x != m ==> Subscriptions.CountOf(p.feed.counts, x)
                                      == Subscriptions.CountOf(d.feed.counts, x)
                                      == Subscriptions.CountOf(w.feed.counts, x)
  {
    var m := TrimSpace(raw);
    TrimSpaceIdempotent(raw);
    Subscriptions.CountsMove(w.feed, m);
    ApartFrom(w.table, user);
    RemoveRepresents(w.registry, w.table, user, m);
    assert AgreesAt(Removed(w.registry, user, m), w.table - {(user, m)}, m);
  }

  // ----- runs of the handlers -----

  datatype Request = Post(user: User, raw: string, storeOk: bool) | Delete(user: User, raw: string, storeOk: bool)

  /** A process from its preload on: the requests it has handled, and between them the
      steps of the tracker's writer and its connection, the latest outermost. */
  datatype Session =
    | FromTable(rows: seq<(User, Mint)>, enabled: bool)
    | Handled(before: Session, request: Request)
    | Stepped(before: Session, step: Subscriptions.Step)

  predicate ByWriter(step: Subscriptions.Step) {
    !step.Watch? && !step.Unwatch?
  }

  /** Whether the writer or the connection can take a step; a tracker that is not enabled
      never connects. */
  predicate CanStep(w: Watching, step: Subscriptions.Step) {
    w.enabled && ByWriter(step) && Subscriptions.Enabled(w.feed, step)
  }

  /** A step of the writer or the connection; one that cannot be taken does not happen. */
  function Progressed(w: Watching, step: Subscriptions.Step): Watching {
    if CanStep(w, step) then w.(feed := Subscriptions.Perform(w.feed, step)) else w
  }

  function After(run: Session): Watching {
    match run
    case FromTable(rows, enabled) => Preloaded(rows, enabled)
    case Handled(before, Post(u, raw, ok)) => Posted(After(before), u, raw, ok)
    case Handled(before, Delete(u, raw, ok)) => Deleted(After(before), u, raw, ok)
    case Stepped(before, step) => Progressed(After(before), step)
  }

  ghost predicate Authentic(run: Session) {
    match run
    case FromTable(rows, _) => ProperTable(rows)
    case Handled(before, r) => Authentic(before) && ':' !in r.user
    case Stepped(before, _) => Authentic(before)
  }

  ghost predicate ProperTable(rows: seq<(User, Mint)>) {
    NoRowTwice(rows) && forall i :: 0 <= i < |rows| ==> ProperRow(rows[i])
  }

  ghost predicate NoRowTwice(rows: seq<(User, Mint)>) {
    forall i, j :: 0 <= i < j < |rows| ==> rows[i] != rows[j]
  }

  /** Coherent, and an enabled tracker tracks every mint exactly as often as it is watched. */
  ghost predicate Exact(w: Watching) {
    Coherent(w) && (w.enabled ==> forall m :: Subscriptions.CountOf(w.feed.counts, m) == |WatchersOf(w.table, m)|)
  }

  lemma RowKeepsExact(w: Watching, row: (User, Mint))
    requires Exact(w) && row !in w.table && ProperRow(row)
    ensures Exact(WithRow(w, row))
  {
    var w' := WithRow(w, row);
    ApartFrom(w.table, row.0);
    AddRepresents(w.registry, w.table, row.0, row.1);
    forall m | w.enabled
      ensures Subscriptions.CountOf(w'.feed.counts, m) == |WatchersOf(w'.table, m)| && TracksWatchers(w', m)
    {
      WatchersAfterAdd(w.table, row.0, row.1, m);
      assert Subscriptions.CountOf(w.feed.counts, m) == |WatchersOf(w.table, m)|;
      assert row.1 == m ==> row.0 !in WatchersOf(w.table, m);
    }
  }

  function RowSet(rows: seq<(User, Mint)>): Watches {
    set i | 0 <= i < |rows| :: rows[i]
  }

  lemma NoRows(enabled: bool)
    ensures Exact(Preloaded([], enabled))
  {
    assert forall m :: WatchersOf({}, m) == {};
    assert Represents(NO_WATCHES, {});
  }

  lemma LastRowIsNew(rows: seq<(User, Mint)>)
    requires rows != [] && ProperTable(rows)
    ensures var n := |rows| - 1;
            && ProperTable(rows[..n])
            && ProperRow(rows[n]) && rows[n] !in RowSet(rows[..n])
            && RowSet(rows) == RowSet(rows[..n]) + {rows[n]}
  {
  }

  /** Right after the preload the registry represents the table, and an enabled tracker
      tracks every mint exactly as often as it is watched. */
  lemma {:induction false} PreloadIsExact(rows: seq<(User, Mint)>, enabled: bool)
    requires ProperTable(rows)
    ensures var w := Preloaded(rows, enabled); w.table == RowSet(rows) && w.enabled == enabled && Exact(w)
  {
    if rows == [] {
      NoRows(enabled);
    } else {
      var n := |rows| - 1;
      LastRowIsNew(rows);
      PreloadIsExact(rows[..n], enabled);
      RowKeepsExact(Preloaded(rows[..n], enabled), rows[n]);
    }
  }

  /** In every run from a preload, whatever requests succeed or fail, the registry agrees
      with the table, and an enabled tracker tracks every watched mint. */
  lemma WatchedIsTracked(run: Session)
    requires Authentic(run)
    ensures Coherent(After(run))
    ensures After(run).enabled ==>
              forall m :: WatchersOf(After(run).table, m) != {} ==> m in After(run).feed.counts
  {
    StaysCoherent(run);
    forall m | After(run).enabled && WatchersOf(After(run).table, m) != {} ensures m in After(run).feed.counts {
      assert TracksWatchers(After(run), m);
    }
  }

  lemma {:induction false} StaysCoherent(run: Session)
    requires Authentic(run)
    ensures Coherent(After(run))
  {
    match run
    case FromTable(rows, enabled) => PreloadIsExact(rows, enabled);
    case Handled(before, Post(u, raw, ok)) =>
      StaysCoherent(before);
      PostKeepsCoherent(After(before), u, raw, ok);
    case Handled(before, Delete(u, raw, ok)) =>
      StaysCoherent(before);
      DeleteKeepsCoherent(After(before), u, raw, ok);
    case Stepped(before, step) =>
      StaysCoherent(before);
      StepKeepsCoherent(After(before), step);
  }

  lemma StepKeepsCoherent(w: Watching, step: Subscriptions.Step)
    requires Coherent(w)
    ensures Coherent(Progressed(w, step))
  {
    var w' := Progressed(w, step);
    assert w'.feed.counts == w.feed.counts;
    forall m | w.enabled ensures TracksWatchers(w', m) {
      assert TracksWatchers(w, m);
    }
  }

  // ----- what the feed sees of a session -----

  /** The calls that a preload makes on the tracker. */
  function PreloadCalls(rows: seq<(User, Mint)>): Subscriptions.Run {
    if rows == [] then Subscriptions.Start
    else Subscriptions.Then(PreloadCalls(rows[..|rows| - 1]), Subscriptions.Watch(rows[|rows| - 1].1))
  }

  /** The tracker's own run within a session; none when it is not enabled. */
  function TrackerRun(run: Session): Subscriptions.Run {
    match run
    case FromTable(rows, enabled) => if enabled then PreloadCalls(rows) else Subscriptions.Start
    case Handled(before, Post(u, raw, ok)) =>
      if !After(run).enabled || StatusOf(raw, ok) != Done then TrackerRun(before)
      else Subscriptions.Then(TrackerRun(before), Subscriptions.Watch(TrimSpace(raw)))
    case Handled(before, Delete(u, raw, ok)) =>
      if !After(run).enabled || StatusOf(raw, ok) != Done || 0 < CountOf(After(run).registry, TrimSpace(raw))
      then TrackerRun(before)
      else Subscriptions.Then(TrackerRun(before), Subscriptions.Unwatch(TrimSpace(raw)))
    case Stepped(before, step) =>
      if CanStep(After(before), step) then Subscriptions.Then(TrackerRun(before), step) else TrackerRun(before)
  }

  lemma {:induction false} PreloadCallsAgree(rows: seq<(User, Mint)>)
    ensures Preloaded(rows, true).enabled && Subscriptions.Legal(PreloadCalls(rows))
    ensures Subscriptions.After(PreloadCalls(rows)) == Preloaded(rows, true).feed
  {
    if rows != [] { PreloadCallsAgree(rows[..|rows| - 1]); }
  }

  lemma {:induction false} PreloadLeavesDisabled(rows: seq<(User, Mint)>)
    ensures !Preloaded(rows, false).enabled && Preloaded(rows, false).feed == Subscriptions.INITIAL
  {
    if rows != [] { PreloadLeavesDisabled(rows[..|rows| - 1]); }
  }

  lemma {:induction false} TrackerRunAgrees(run: Session)
    ensures Subscriptions.Legal(TrackerRun(run))
    ensures Subscriptions.After(TrackerRun(run)) == After(run).feed
  {
    match run
    case FromTable(rows, enabled) =>
      if enabled { PreloadCallsAgree(rows); } else { PreloadLeavesDisabled(rows); }
    case Handled(before, _) => TrackerRunAgrees(before);
    case Stepped(before, _) => TrackerRunAgrees(before);
  }

  /** A preload of any size is recordable, although the queue takes only its first changes:
      what the queue lacks is in the snapshot of the first connection. */
  lemma {:induction false} PreloadIsRecordable(rows: seq<(User, Mint)>)
    ensures Subscriptions.Legal(PreloadCalls(rows)) && Subscriptions.AllRecordable(PreloadCalls(rows))
    ensures var s := Subscriptions.After(PreloadCalls(rows));
            s.link.Down? && forall i :: 0 <= i < |s.queue| ==> s.queue[i].mint in s.counts
  {
    PreloadCallsAgree(rows);
    if rows != [] { PreloadIsRecordable(rows[..|rows| - 1]); }
  }

  /** The enabled flag never changes, so a tracker that ever connected is enabled. */
  lemma {:induction false} ConnectedIsEnabled(run: Session)
    requires After(run).feed.link.Up?
    ensures After(run).enabled
  {
    match run
    case FromTable(rows, enabled) => if enabled { PreloadCallsAgree(rows); } else { PreloadLeavesDisabled(rows); }
    case Handled(before, _) => ConnectedIsEnabled(before);
    case Stepped(before, step) => if !CanStep(After(before), step) { ConnectedIsEnabled(before); }
  }

  /** End to end: in every run of requests, writes, failures, disconnects and reconnects
      whose changes the queue could record, at least since a moment at which the tracker
      converged, once it is connected and its queue drained, the feed is subscribed to
      exactly the tracked mints, and so to every mint that somebody watches. */
  lemma WatchedIsSubscribedSince(run: Session, from: Subscriptions.Run)
    requires Authentic(run) && Subscriptions.Legal(TrackerRun(run)) && Subscriptions.Legal(from)
    requires Subscriptions.Converging(Subscriptions.After(from)) && Subscriptions.RecordableSince(TrackerRun(run), from)
    requires After(run).feed.link.Up? && After(run).feed.link.pending == {} && After(run).feed.queue == []
    ensures After(run).feed.link.upstream == After(run).feed.counts.Keys
    ensures forall m :: WatchersOf(After(run).table, m) != {} ==> m in After(run).feed.link.upstream
  {
    ConnectedIsEnabled(run);
    TrackerRunAgrees(run);
    WatchedIsTracked(run);
    Subscriptions.DrainedMeansExactSince(TrackerRun(run), from);
  }

  /** In particular when the queue could record every change. */
  lemma WatchedIsSubscribed(run: Session)
    requires Authentic(run) && Subscriptions.Legal(TrackerRun(run)) && Subscriptions.AllRecordable(TrackerRun(run))
    requires After(run).feed.link.Up? && After(run).feed.link.pending == {} && After(run).feed.queue == []
    ensures After(run).feed.link.upstream == After(run).feed.counts.Keys
    ensures forall m :: WatchersOf(After(run).table, m) != {} ==> m in After(run).feed.link.upstream
  {
    Subscriptions.AllRecordableIsSinceStart(TrackerRun(run));
    Subscriptions.StartConverges();
    WatchedIsSubscribedSince(run, Subscriptions.Start);
  }

  /** What the table determines. */
  lemma RepresentationIsUnique(a: Maps, b: Maps, table: Watches)
    requires Represents(a, table) && Represents(b, table)
    ensures a == b
  {
    forall m
      ensures m in a.counts <==> m in b.counts
      ensures m in a.users <==> m in b.users
      ensures m in a.counts ==> a.counts[m] == b.counts[m]
      ensures m in a.users ==> a.users[m] == b.users[m]
    {
      assert AgreesAt(a, table, m) && AgreesAt(b, table, m);
    }
  }

  /** A restart that preloads the table a run left behind, in whatever order of rows, has
      the very registry the run had: HasWatchers and UsersForMint answer as before. */
  lemma RestartReproducesRegistry(run: Session, rows: seq<(User, Mint)>, enabled: bool)
    requires Authentic(run) && NoRowTwice(rows)
    requires After(run).table == RowSet(rows)
    ensures After(FromTable(rows, enabled)).registry == After(run).registry
    ensures After(FromTable(rows, enabled)).table == After(run).table
  {
    WatchedIsTracked(run);
    forall i | 0 <= i < |rows| ensures rows[i] in After(run).table {}
    PreloadIsExact(rows, enabled);
    RepresentationIsUnique(After(FromTable(rows, enabled)).registry, After(run).registry, After(run).table);
  }

  /** With the tracker enabled, the last watcher's leaving stops the tracking exactly when the count was down to one:
      earlier leavers who were not the last, and repeated watches, leave a surplus. */
  lemma LastLeaveUntracksIff(w: Watching, user: User, raw: string)
    requires Coherent(w) && w.enabled && ':' !in user && TrimSpace(raw) != ""
    requires WatchersOf(Deleted(w, user, raw, true).table, TrimSpace(raw)) == {}
    ensures TrimSpace(raw) !in Deleted(w, user, raw, true).feed.counts <==>
              Subscriptions.CountOf(w.feed.counts, TrimSpace(raw)) <= 1
  {
    var mint := TrimSpace(raw);
    TrimSpaceIdempotent(raw);
    ApartFrom(w.table, user);
    RemoveRepresents(w.registry, w.table, user, mint);
    assert AgreesAt(Removed(w.registry, user, mint), w.table - {(user, mint)}, mint);
  }

  /** Two users watch a mint and both leave: nobody watches it, and it stays tracked. */
  lemma TwoLeaversLeak(u: User, v: User, mint: Mint)
    requires u != v && ':' !in u && ':' !in v && mint != "" && TrimSpace(mint) == mint
    ensures var run := Handled(Handled(Handled(Handled(FromTable([], true), Post(u, mint, true)), Post(v, mint, true)),
                                 Delete(u, mint, true)), Delete(v, mint, true));
            && After(run).table == {} && After(run).registry == NO_WATCHES
            && mint in After(run).feed.counts && After(run).feed.counts[mint] == 1
  {
    var r0: Session := FromTable([], true);
    var r1 := Handled(r0, Post(u, mint, true));
    var r2 := Handled(r1, Post(v, mint, true));
    var r3 := Handled(r2, Delete(u, mint, true));
    var r4 := Handled(r3, Delete(v, mint, true));
    assert After(r1).table == {(u, mint)} && After(r1).feed.counts == map[mint := 1];
    assert After(r2).table == {(u, mint), (v, mint)} && After(r2).feed.counts == map[mint := 2];
    assert After(r3).table == {(v, mint)};
    assert Authentic(r0) && Authentic(r1) && Authentic(r2) && Authentic(r3) && Authentic(r4);
    WatchedIsTracked(r3);
    assert v in WatchersOf(After(r3).table, mint) && AgreesAt(After(r3).registry, After(r3).table, mint);
    assert After(r3).feed == After(r2).feed;
    assert After(r4).table == {};
    WatchedIsTracked(r4);
    NothingWatched();
    RepresentationIsUnique(After(r4).registry, NO_WATCHES, {});
    assert AgreesAt(After(r4).registry, {}, mint);
  }

  lemma NothingWatched()
    ensures Represents(NO_WATCHES, {})
  {
    assert forall m :: WatchersOf({}, m) == {};
  }

  // ----- the fan-out of a spike -----

  /** The audience by the connections: those not over, made by a user who watches the mint. */
  lemma AudienceIsPresent(v: Visits, table: Watches, mint: Mint, id: ClientID)
    ensures id in Audience(DirectoryAfter(v), table, mint) <==> exists u :: PresentAs(v, id, u) && (u, mint) in table
  {
    var d := DirectoryAfter(v);
    if id in Audience(d, table, mint) {
      DirectoryShows(v, id, d.clientUsers[id]);
      assert PresentAs(v, id, d.clientUsers[id]);
    }
    if u :| PresentAs(v, id, u) && (u, mint) in table { DirectoryShows(v, id, u); }
  }

  /** The connected clients of the watchers of a mint. */
  function Audience(d: Directory, table: Watches, mint: Mint): set<ClientID> {
    set id | id in d.clientUsers && (d.clientUsers[id], mint) in table
  }

  function MembersOf(d: Directory, user: User): set<ClientID> {
    if user in d.userClients then d.userClients[user] else {}
  }

  /** The clients of the first n users listed. */
  function ClientsOf(d: Directory, users: seq<User>): set<ClientID> {
    if users == [] then {} else ClientsOf(d, users[..|users| - 1]) + MembersOf(d, users[|users| - 1])
  }

  lemma {:induction false} ClientsOfMembers(d: Directory, users: seq<User>, id: ClientID)
    requires Mutual(d)
    ensures id in ClientsOf(d, users) <==> id in d.clientUsers && d.clientUsers[id] in users
  {
    if users != [] {
      var n := |users| - 1;
      ClientsOfMembers(d, users[..n], id);
      assert users == users[..n] + [users[n]];
    }
  }

  /** Because each client belongs to one user, users listed once reach disjoint clients. */
  lemma NextUserIsNew(d: Directory, users: seq<User>, n: nat)
    requires Mutual(d) && NoRepeats(users) && n < |users|
    ensures ClientsOf(d, users[..n]) !! MembersOf(d, users[n])
    ensures ClientsOf(d, users[..n + 1]) == ClientsOf(d, users[..n]) + MembersOf(d, users[n])
  {
    forall id | id in MembersOf(d, users[n]) ensures id !in ClientsOf(d, users[..n]) {
      ClientsOfMembers(d, users[..n], id);
    }
    assert users[..n + 1][..n] == users[..n];
  }

  lemma AudienceIsClients(d: Directory, users: seq<User>, table: Watches, mint: Mint)
    requires Mutual(d) && forall u :: u in users <==> (u, mint) in table
    ensures ClientsOf(d, users) == Audience(d, table, mint)
  {
    forall id ensures id in ClientsOf(d, users) <==> id in Audience(d, table, mint) {
      ClientsOfMembers(d, users, id);
    }
  }

  lemma MembersInAudience(d: Directory, table: Watches, mint: Mint, user: User)
    requires Mutual(d) && (user, mint) in table
    ensures MembersOf(d, user) <= Audience(d, table, mint)
  {
  }

  lemma WatchersListed(table: Watches, mint: Mint, users: seq<User>)
    requires forall u :: u in users <==> u in WatchersOf(table, mint)
    ensures forall u :: u in users <==> (u, mint) in table
  {
    assert forall u :: u in WatchersOf(table, mint) <==> (u, mint) in table;
  }

  /** The counts of the calls for the watchers are the copies in their clients' personal lanes. */
  lemma CountsAreCopies(d: Directory, table: Watches, mint: Mint, seats: map<ClientID, Seat>, counts: map<User, nat>,
                        msg: Message, clock: ClientID -> Reading)
    requires Mutual(d) && msg.personal
    requires forall u :: u in counts ==> (u, mint) in table && counts[u] == |Reached(seats, MembersOf(d, u), clock)|
    ensures var after := OfferedTo(seats, Audience(d, table, mint), msg, clock);
            forall u :: u in counts ==> counts[u] == |PersonalCopies(seats, after, MembersOf(d, u), msg, clock)|
  {
    forall u | u in counts
      ensures Reached(seats, MembersOf(d, u), clock)
           == PersonalCopies(seats, OfferedTo(seats, Audience(d, table, mint), msg, clock), MembersOf(d, u), msg, clock)
    {
      MembersInAudience(d, table, mint, u);
      ReachedHoldCopies(seats, MembersOf(d, u), Audience(d, table, mint), msg, clock);
    }
  }

  lemma OfferedInTurn(seats: map<ClientID, Seat>, a: set<ClientID>, b: set<ClientID>, msg: Message, clock: ClientID -> Reading)
    requires a !! b
    ensures OfferedTo(OfferedTo(seats, a, msg, clock), b, msg, clock) == OfferedTo(seats, a + b, msg, clock)
  {
  }

  /** A seat after a personal message was handed to it: the message is last in the
      personal lane or last in the retry lane, and nothing else was added. */
  ghost predicate HoldsOneCopy(before: Queue, after: Queue, cap: nat, msg: Message, stamp: int) {
    || after == before.(personalQ := before.personalQ + [msg.(createdAt := if msg.createdAt == 0 then stamp else msg.createdAt)])
    || after == before.(retryBuffer := (if 0 < cap <= |before.retryBuffer| then before.retryBuffer[1..] else before.retryBuffer)
                                       + [msg.(retryCount := msg.retryCount + 1)])
  }

  /** The two messages of a spike: the news for everyone and the copy for its watchers. */
  function News(payload: seq<bv8>): Message {
    Message(3, false, payload, 0, 0, 0)
  }

  function PersonalCopy(payload: seq<bv8>): Message {
    Message(1, true, payload, 0, 0, 3)
  }

  /** The news of a spike lands last among the third-priority messages of a client that has a
      token, and is dropped otherwise. */
  lemma NewsLands(s: Seat, payload: seq<bv8>, r: Reading)
    requires Sound(s)
    ensures Offered(s, News(payload), r).queue
         == if Grants(s.bucket, s.rate, r.limiter)
            then s.queue.(qP3 := s.queue.qP3 + [Message(3, false, payload, r.stamp, 0, 0)]) else s.queue
  {
    OfferMeans(s, News(payload), r);
  }

  lemma CopyLands(s: Seat, payload: seq<bv8>, r: Reading)
    requires Sound(s)
    ensures HoldsOneCopy(s.queue, Offered(s, PersonalCopy(payload), r).queue, s.cap, PersonalCopy(payload), r.stamp)
  {
    PersonalMessageLands(s, PersonalCopy(payload), r);
  }

  /** What a spike does to the seats: everyone is offered the news once, and then exactly
      the clients of the audience have gained one copy of the personal message. */
  ghost predicate FannedOut(before: map<ClientID, Seat>, after: map<ClientID, Seat>, audience: set<ClientID>,
                            news: seq<bv8>, personal: seq<bv8>, clock: ClientID -> Reading, later: ClientID -> Reading)
  {
    && after.Keys == before.Keys
    && forall id :: id in before ==>
         var told := Offered(before[id], Message(3, false, news, 0, 0, 0), clock(id));
         if id in audience then
           HoldsOneCopy(told.queue, after[id].queue, told.cap, Message(1, true, personal, 0, 0, 3), later(id).stamp)
         else after[id] == told
  }

  // ----- the server in place -----

  /** The sends per second granted to a websocket client. */
  const CLIENT_RATE := 60

  class Server {
    const registry: Registry
    const feed: Subscriptions.TradeTracker
    const hub: Hub
    var table: Watches
    /** How many websocket clients have connected so far. */
    var connCounter: nat
    /** Who has come and gone. */
    ghost var visits: Visits

    ghost function View(): Watching
      reads this`table, registry, feed
    {
      Watching(table, registry.View(), feed.View(), feed.enabled)
    }

    ghost predicate Valid()
      reads this, registry, feed, hub, hub.Repr
    {
      && Coherent(View())
      && Staffed()
    }

    /** The hub holds exactly the clients that have come and not gone. */
    ghost predicate Staffed()
      reads this, hub, hub.Repr
    {
      && hub.Valid()
      && hub.Who() == DirectoryAfter(visits) && connCounter == Connections(visits)
      && registry !in hub.Repr && feed !in hub.Repr && this !in hub.Repr && hub !in hub.Repr
    }

    /** The rows of the table, in the order the query yields them, are watched again. */
    static method Preload(r: Registry, t: Subscriptions.TradeTracker, rows: seq<(User, Mint)>)
      requires r.View() == NO_WATCHES && t.View() == Subscriptions.INITIAL
      modifies r, t
      ensures r.View() == Preloaded(rows, t.enabled).registry && t.View() == Preloaded(rows, t.enabled).feed
    {
      for i := 0 to |rows|
        invariant Preloaded(rows[..i], t.enabled).enabled == t.enabled
        invariant r.View() == Preloaded(rows[..i], t.enabled).registry && t.View() == Preloaded(rows[..i], t.enabled).feed
      {
        assert rows[..i + 1][..i] == rows[..i];
        r.AddWatch(rows[i].0, rows[i].1);
        t.AddWatch(rows[i].1);
      }
      assert rows[..|rows|] == rows;
    }

    /** The start of the process. */
    constructor (rows: seq<(User, Mint)>, retryCap: int, enabled: bool)
      requires ProperTable(rows)
      ensures Valid() && View() == Preloaded(rows, enabled)
      ensures visits == Nobody && hub.retryCap == retryCap
    {
      var r := new Registry();
      var t := new Subscriptions.TradeTracker(enabled);
      Preload(r, t, rows);
      PreloadIsExact(rows, enabled);
      var h := new Hub(retryCap);
      registry, feed, hub, table := r, t, h, set i | 0 <= i < |rows| :: rows[i];
      connCounter, visits := 0, Nobody;
    }

    /** Numbers a connection and names its client. */
    method TakeID(user: UserID) returns (id: ClientID)
      requires Staffed()
      modifies this`connCounter, this`visits
      ensures hub.Seats() == old(hub.Seats())
      ensures id !in hub.clients
      ensures visits == Connects(old(visits), user) && connCounter == Connections(visits) && id == ConnectionID(user, connCounter)
    {
      NextIDIsNew(visits, user);
      id := ConnectionID(user, connCounter + 1);
      assert id !in hub.Who().ids;
      connCounter, visits := connCounter + 1, Connects(visits, user);
    }

    /** Connecting and disconnecting, as far as the hub is concerned. */
    method Admit(user: UserID, now: int) returns (id: ClientID)
      requires Staffed()
      modifies this`connCounter, this`visits, hub
      ensures Staffed()
      ensures visits == Connects(old(visits), user) && id == ConnectionID(user, Connections(visits))
      ensures id !in old(hub.clients)
      ensures hub.Seats() == old(hub.Seats())[id := NewSeat(CLIENT_RATE, hub.retryCap, now)]
    {
      id := TakeID(user);
      var _ := hub.AddClientForUser(id, user, CLIENT_RATE, now);
    }

    /** A websocket client connects, of a user or, with the empty name, of nobody. */
    method Connect(user: UserID, now: int) returns (id: ClientID)
      requires Valid()
      modifies this`connCounter, this`visits, hub
      ensures Valid() && View() == old(View())
      ensures visits == Connects(old(visits), user) && id == ConnectionID(user, Connections(visits))
      ensures id !in old(hub.clients)
      ensures hub.Seats() == old(hub.Seats())[id := NewSeat(60, hub.retryCap, now)]
      ensures user == "" ==> hub.clientUsers == old(hub.clientUsers) && hub.userClients == old(hub.userClients)
      ensures user != "" ==> hub.clientUsers == old(hub.clientUsers)[id := user] && id in hub.Members(user)
    {
      VisitsStayMutual(visits);
      NextIDIsNew(visits, user);
      JoinMeans(hub.Who(), ConnectionID(user, Connections(visits) + 1), user);
      id := Admit(user, now);
    }

    ghost method NoteDeparture(id: ClientID)
      requires Staffed()
      modifies this`visits
      ensures visits == Departs(old(visits), id)
      ensures hub.Seats() == old(hub.Seats())
    {
      visits := Departs(visits, id);
    }

    method Dismiss(id: ClientID)
      requires Staffed()
      modifies this`visits, hub, hub.Repr
      ensures Staffed()
      ensures visits == Departs(old(visits), id)
      ensures hub.Seats() == old(hub.Seats()) - {id}
    {
      NoteDeparture(id);
      hub.RemoveSeat(id);
    }

    /** A websocket client disconnects. */
    method Disconnect(id: ClientID)
      requires Valid()
      modifies this`visits, hub, hub.Repr
      ensures Valid() && View() == old(View())
      ensures visits == Departs(old(visits), id)
      ensures hub.Seats() == old(hub.Seats()) - {id}
    {
      Dismiss(id);
    }

    /** A client's connection takes its next message; an open queue never answers Closed. */
    method Serve(id: ClientID) returns (r: Dequeued)
      requires Valid() && id in hub.clients
      modifies hub.Repr
      ensures Valid() && View() == old(View())
      ensures r != Closed && r == Answer(old(hub.Seats())[id].queue)
      ensures hub.Seats() == old(hub.Seats())[id := Served(old(hub.Seats())[id])]
    {
      r := hub.ServeClient(id);
    }

    /** POST of a watch by the authenticated user with this account number. */
    method PostWatch(account: int, raw: string, storeOk: bool) returns (status: Status)
      requires Valid()
      modifies this`table, registry, feed
      ensures Valid()
      ensures status == StatusOf(raw, storeOk)
      ensures View() == Posted(old(View()), Decimal(account), raw, storeOk)
      ensures status == BadRequest <==> TrimSpace(raw) == ""
      ensures status == StoreError <==> TrimSpace(raw) != "" && !storeOk
      ensures status != Done ==> View() == old(View())
      ensures status == Done ==> table == old(table) + {(Decimal(account), TrimSpace(raw))}
    {
      DecimalHasNoColon(account);
      PostKeepsCoherent(View(), Decimal(account), raw, storeOk);
      status := Post(Decimal(account), raw, storeOk);
    }

    method Post(user: User, raw: string, storeOk: bool) returns (status: Status)
      modifies this`table, registry, feed
      ensures status == StatusOf(raw, storeOk)
      ensures View() == Posted(old(View()), user, raw, storeOk)
    {
      var mint := TrimSpace(raw);
      if mint == "" { return BadRequest; }
      if !storeOk { return StoreError; }
      table := table + {(user, mint)};
      registry.AddWatch(user, mint);
      feed.AddWatch(mint);
      return Done;
    }

    /** DELETE of a watch by the authenticated user with this account number. */
    method DeleteWatch(account: int, raw: string, storeOk: bool) returns (status: Status)
      requires Valid()
      modifies this`table, registry, feed
      ensures Valid()
      ensures status == StatusOf(raw, storeOk)
      ensures View() == Deleted(old(View()), Decimal(account), raw, storeOk)
      ensures status == BadRequest <==> TrimSpace(raw) == ""
      ensures status == StoreError <==> TrimSpace(raw) != "" && !storeOk
      ensures status != Done ==> View() == old(View())
      ensures status == Done ==> table == old(table) - {(Decimal(account), TrimSpace(raw))}
    {
      DecimalHasNoColon(account);
      DeleteKeepsCoherent(View(), Decimal(account), raw, storeOk);
      status := Delete(Decimal(account), raw, storeOk);
    }

    method Delete(user: User, raw: string, storeOk: bool) returns (status: Status)
      modifies this`table, registry, feed
      ensures status == StatusOf(raw, storeOk)
      ensures View() == Deleted(old(View()), user, raw, storeOk)
    {
      var mint := TrimSpace(raw);
      if mint == "" { return BadRequest; }
      if !storeOk { return StoreError; }
      table := table - {(user, mint)};
      registry.RemoveWatch(user, mint);
      var watched := registry.HasWatchers(mint);
      if !watched { feed.RemoveWatch(mint); }
      return Done;
    }

    /** The personal part of the spike callback. Each watcher's call counts the copies in
        the personal lanes of that watcher's clients. */
    method NotifyWatchers(mint: Mint, msg: Message, clock: ClientID -> Reading) returns (ghost counts: map<User, nat>)
      requires Valid() && msg.personal
      modifies hub.Repr
      ensures Valid() && View() == old(View())
      ensures hub.Seats() == OfferedTo(old(hub.Seats()), Audience(hub.Who(), table, mint), msg, clock)
      ensures forall u :: u in counts <==> (u, mint) in table
      ensures forall u :: u in counts ==>
                counts[u] == |PersonalCopies(old(hub.Seats()), hub.Seats(), MembersOf(hub.Who(), u), msg, clock)|
    {
      var users := registry.UsersForMint(mint);
      ghost var start, d := hub.Seats(), hub.Who();
      WatchersListed(table, mint, users);
      AudienceIsClients(d, users, table, mint);
      counts := OfferToAll(users, msg, clock);
      CountsAreCopies(d, table, mint, start, counts, msg, clock);
    }

    /** One call of EnqueueForUser for each user, with its count. */
    method OfferToAll(users: seq<User>, msg: Message, clock: ClientID -> Reading) returns (ghost counts: map<User, nat>)
      requires Valid() && NoRepeats(users)
      modifies hub.Repr
      ensures Valid() && View() == old(View())
      ensures hub.Seats() == OfferedTo(old(hub.Seats()), ClientsOf(hub.Who(), users), msg, clock)
      ensures forall u :: u in counts <==> u in users
      ensures forall u :: u in counts ==> counts[u] == |Reached(old(hub.Seats()), MembersOf(hub.Who(), u), clock)|
    {
      ghost var start, d := hub.Seats(), hub.Who();
      counts := map[];
      for i := 0 to |users|
        invariant hub.Valid() && hub.Who() == d
        invariant hub.Seats() == OfferedTo(start, ClientsOf(d, users[..i]), msg, clock)
        invariant forall u :: u in counts <==> u in users[..i]
        invariant forall u :: u in counts ==> counts[u] == |Reached(start, MembersOf(d, u), clock)|
      {
        NextUserIsNew(d, users, i);
        ReachedApart(start, ClientsOf(d, users[..i]), MembersOf(d, users[i]), msg, clock);
        OfferedInTurn(start, ClientsOf(d, users[..i]), MembersOf(d, users[i]), msg, clock);
        var n := hub.EnqueueForUser(users[i], msg, clock);
        counts := counts[users[i] := n];
      }
      assert users[..|users|] == users;
    }

    /** A spike: everyone is offered the broadcast once, and then each client of each
        watching user, and no other, gets exactly one copy of the personal message. */
    method OnSpike(mint: Mint, news: seq<bv8>, personal: seq<bv8>, clock: ClientID -> Reading, later: ClientID -> Reading)
      requires Valid()
      modifies hub.Repr
      ensures Valid() && View() == old(View())
      ensures FannedOut(old(hub.Seats()), hub.Seats(), Audience(hub.Who(), table, mint), news, personal, clock, later)
      ensures forall id :: id in Audience(hub.Who(), table, mint) <==> exists u :: PresentAs(visits, id, u) && (u, mint) in table
    {
      forall id ensures id in Audience(DirectoryAfter(visits), table, mint) <==> exists u :: PresentAs(visits, id, u) && (u, mint) in table {
        AudienceIsPresent(visits, table, mint, id);
      }
      var watched := registry.HasWatchers(mint);
      var _ := hub.Broadcast(News(news), clock);
      ghost var told := hub.Seats();
      assert forall id :: id in hub.clients ==> Sound(told[id]);
      if watched {
        ghost var _ := NotifyWatchers(mint, PersonalCopy(personal), later);
      } else {
        assert forall u :: (u, mint) in table ==> u in WatchersOf(table, mint);
        assert Audience(hub.Who(), table, mint) == {};
      }
      forall id | id in hub.clients && id in Audience(hub.Who(), table, mint)
        ensures HoldsOneCopy(told[id].queue, hub.Seats()[id].queue, told[id].cap, PersonalCopy(personal), later(id).stamp)
      {
        CopyLands(told[id], personal, later(id));
      }
    }
  }
}
