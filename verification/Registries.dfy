/** The registry of watches: three maps that are to agree with one set of (user, mint)
    pairs. The pairs are keyed by user + ":" + mint. Each call is one atomic step. */
module Registries {
  import opened Text

  type User = string
  type Mint = string
  type Watches = set<(User, Mint)>

  function Key(user: User, mint: Mint): string {
    user + ":" + mint
  }

  /** Two users whose keys can meet: one's name, a colon, and the rest of the other's. */
  predicate Clash(u: User, v: User) {
    u != v && (u + ":" <= v || v + ":" <= u)
  }

  lemma PrefixKeysMeet(u: User, v: User, mint: Mint)
    requires u + ":" <= v
    ensures Key(u, v[|u| + 1..] + ":" + mint) == Key(v, mint)
  {
    assert v == u + ":" + v[|u| + 1..];
  }

  lemma MeetingKeysPrefix(u: User, m: Mint, v: User, n: Mint)
    requires Key(u, m) == Key(v, n) && |u| < |v|
    ensures u + ":" <= v
  {
    assert (u + ":") == Key(u, m)[..|u| + 1] == Key(v, n)[..|u| + 1] == v[..|u| + 1];
  }

  lemma MeetingKeysSameLength(u: User, m: Mint, v: User, n: Mint)
    requires Key(u, m) == Key(v, n) && |u| == |v|
    ensures u == v
  {
    assert u == Key(u, m)[..|u|] && v == Key(v, n)[..|v|];
  }

  /** Keys of two different users can meet, for mints with a name, exactly when the users
      clash. */
  lemma KeysMeetIffClash(u: User, v: User)
    requires u != v
    ensures (exists m: Mint, n: Mint :: m != "" && n != "" && Key(u, m) == Key(v, n)) <==> Clash(u, v)
    ensures (exists m: Mint, n: Mint :: Key(u, m) == Key(v, n)) ==> Clash(u, v)
  {
    if u + ":" <= v {
      PrefixKeysMeet(u, v, "m");
    } else if v + ":" <= u {
      PrefixKeysMeet(v, u, "m");
    }
    forall m: Mint, n: Mint | Key(u, m) == Key(v, n) ensures Clash(u, v) {
      if |u| < |v| {
        MeetingKeysPrefix(u, m, v, n);
      } else if |v| < |u| {
        MeetingKeysPrefix(v, n, u, m);
      } else {
        MeetingKeysSameLength(u, m, v, n);
      }
    }
  }

  lemma PrefixHasColon(u: User, v: User)
    requires u + ":" <= v
    ensures ':' in v
  {
    assert v[|u|] == ':';
  }

  /** Colon-free user ids, such as decimal numbers, never clash. */
  lemma ColonFreeNeverClash(u: User, v: User)
    requires ':' !in u && ':' !in v
    ensures !Clash(u, v)
  {
    if u + ":" <= v { PrefixHasColon(u, v); }
    if v + ":" <= u { PrefixHasColon(v, u); }
  }

  /** The ids the authentication hands out are decimal numbers. */
  lemma NumericUsersNeverClash(a: int, b: int)
    ensures !Clash(Decimal(a), Decimal(b))
  {
    DecimalHasNoColon(a);
    DecimalHasNoColon(b);
    ColonFreeNeverClash(Decimal(a), Decimal(b));
  }

  // ----- the three maps as a value -----

  datatype Maps = Maps(keys: set<string>, counts: map<Mint, int>, users: map<Mint, set<User>>)

  const NO_WATCHES := Maps({}, map[], map[])

  function CountOf(m: Maps, mint: Mint): int {
    if mint in m.counts then m.counts[mint] else 0
  }

  function UsersOf(m: Maps, mint: Mint): set<User> {
    if mint in m.users then m.users[mint] else {}
  }

  function Added(m: Maps, user: User, mint: Mint): Maps {
    if Key(user, mint) in m.keys then m
    else Maps(m.keys + {Key(user, mint)}, m.counts[mint := CountOf(m, mint) + 1],
              m.users[mint := UsersOf(m, mint) + {user}])
  }

  function Removed(m: Maps, user: User, mint: Mint): Maps {
    if Key(user, mint) !in m.keys then m
    else
      var n, rest := CountOf(m, mint) - 1, UsersOf(m, mint) - {user};
      Maps(m.keys - {Key(user, mint)},
           if n <= 0 then m.counts - {mint} else m.counts[mint := n],
           if mint !in m.users then m.users else if rest == {} then m.users - {mint} else m.users[mint := rest])
  }

  // ----- what they represent -----

  function WatchersOf(w: Watches, mint: Mint): set<User> {
    set p | p in w && p.1 == mint :: p.0
  }

  /** The three maps say the same as the set of pairs: its keys, its watchers of each mint,
      and how many these are; no mint is listed without a watcher. */
  ghost predicate Represents(m: Maps, w: Watches) {
    m.keys == Keys(w) && forall mint :: AgreesAt(m, w, mint)
  }

  function Keys(w: Watches): set<string> {
    set p | p in w :: Key(p.0, p.1)
  }

  ghost predicate AgreesAt(m: Maps, w: Watches, mint: Mint) {
    && UsersOf(m, mint) == WatchersOf(w, mint)
    && CountOf(m, mint) == |WatchersOf(w, mint)|
    && (mint in m.counts <==> WatchersOf(w, mint) != {})
    && (mint in m.users <==> WatchersOf(w, mint) != {})
  }

  /** No pair of the set, nor the given user, clashes with another. */
  ghost predicate Apart(w: Watches, user: User) {
    forall p :: p in w ==> !Clash(p.0, user)
  }

  lemma SameKeySamePair(p: (User, Mint), user: User, mint: Mint)
    requires Key(p.0, p.1) == Key(user, mint) && !Clash(p.0, user)
    ensures p == (user, mint)
  {
    if p.0 != user {
      KeysMeetIffClash(p.0, user);
      assert false;
    }
    assert p.1 == Key(p.0, p.1)[|user| + 1..] && mint == Key(user, mint)[|user| + 1..];
  }

  lemma KeyTellsPair(w: Watches, m: Maps, user: User, mint: Mint)
    requires Represents(m, w) && Apart(w, user)
    ensures Key(user, mint) in m.keys <==> (user, mint) in w
  {
    if Key(user, mint) in m.keys {
      var p :| p in w && Key(p.0, p.1) == Key(user, mint);
      SameKeySamePair(p, user, mint);
    }
  }

  lemma WatchersAfterAdd(w: Watches, user: User, mint: Mint, other: Mint)
    ensures WatchersOf(w + {(user, mint)}, other) == WatchersOf(w, other) + if other == mint then {user} else {}
  {
    var v := w + {(user, mint)};
    assert forall u :: u in WatchersOf(v, other) <==> (u, other) in v;
    assert forall u :: u in WatchersOf(w, other) <==> (u, other) in w;
  }

  lemma WatchersAfterRemove(w: Watches, user: User, mint: Mint, other: Mint)
    ensures WatchersOf(w - {(user, mint)}, other) == WatchersOf(w, other) - if other == mint then {user} else {}
  {
    var v := w - {(user, mint)};
    assert forall u :: u in WatchersOf(v, other) <==> (u, other) in v;
    assert forall u :: u in WatchersOf(w, other) <==> (u, other) in w;
  }

  lemma AddAgrees(m: Maps, w: Watches, user: User, mint: Mint, other: Mint)
    requires AgreesAt(m, w, other) && (user, mint) !in w && Key(user, mint) !in m.keys
    ensures AgreesAt(Added(m, user, mint), w + {(user, mint)}, other)
  {
    WatchersAfterAdd(w, user, mint, other);
    assert user !in WatchersOf(w, mint);
  }

  lemma RemoveAgrees(m: Maps, w: Watches, user: User, mint: Mint, other: Mint)
    requires AgreesAt(m, w, other) && (user, mint) in w && Key(user, mint) in m.keys
    ensures AgreesAt(Removed(m, user, mint), w - {(user, mint)}, other)
  {
    WatchersAfterRemove(w, user, mint, other);
    assert user in WatchersOf(w, mint);
  }

  lemma AddRepresents(m: Maps, w: Watches, user: User, mint: Mint)
    requires Represents(m, w) && Apart(w, user)
    ensures Represents(Added(m, user, mint), w + {(user, mint)})
  {
    KeyTellsPair(w, m, user, mint);
    if (user, mint) in w {
      assert w + {(user, mint)} == w;
    } else {
      forall other ensures AgreesAt(Added(m, user, mint), w + {(user, mint)}, other) {
        AddAgrees(m, w, user, mint, other);
      }
      assert Keys(w + {(user, mint)}) == Keys(w) + {Key(user, mint)};
    }
  }

  lemma KeysAfterRemove(w: Watches, user: User, mint: Mint)
    requires Apart(w, user)
    ensures Keys(w - {(user, mint)}) == Keys(w) - {Key(user, mint)}
  {
    forall p | p in w && p != (user, mint) ensures Key(p.0, p.1) != Key(user, mint) {
      if Key(p.0, p.1) == Key(user, mint) { SameKeySamePair(p, user, mint); }
    }
  }

  lemma RemoveRepresents(m: Maps, w: Watches, user: User, mint: Mint)
    requires Represents(m, w) && Apart(w, user)
    ensures Represents(Removed(m, user, mint), w - {(user, mint)})
  {
    KeyTellsPair(w, m, user, mint);
    if (user, mint) in w {
      forall other ensures AgreesAt(Removed(m, user, mint), w - {(user, mint)}, other) {
        RemoveAgrees(m, w, user, mint, other);
      }
      KeysAfterRemove(w, user, mint);
    } else {
      assert w - {(user, mint)} == w;
    }
  }

  // ----- runs -----

  datatype Op = Watch(user: User, mint: Mint) | Unwatch(user: User, mint: Mint)

  datatype Run = Start | Then(before: Run, op: Op)

  function MapsAfter(run: Run): Maps {
    match run
    case Start => NO_WATCHES
    case Then(before, Watch(u, m)) => Added(MapsAfter(before), u, m)
    case Then(before, Unwatch(u, m)) => Removed(MapsAfter(before), u, m)
  }

  /** What the run means as a set of pairs. */
  function PairsAfter(run: Run): Watches {
    match run
    case Start => {}
    case Then(before, Watch(u, m)) => PairsAfter(before) + {(u, m)}
    case Then(before, Unwatch(u, m)) => PairsAfter(before) - {(u, m)}
  }

  /** Every user of the run comes from the population. */
  ghost predicate By(run: Run, population: iset<User>) {
    run.Then? ==> By(run.before, population) && run.op.user in population
  }

  /** No mint of the run is empty: the handlers answer an empty mint with an error. */
  predicate NamesMints(run: Run) {
    run.Then? ==> NamesMints(run.before) && run.op.mint != ""
  }

  ghost predicate NoClash(population: iset<User>) {
    forall u, v :: u in population && v in population ==> !Clash(u, v)
  }

  lemma {:induction false} PairsFromPopulation(run: Run, population: iset<User>)
    requires By(run, population)
    ensures forall p :: p in PairsAfter(run) ==> p.0 in population
  {
    if run.Then? { PairsFromPopulation(run.before, population); }
  }

  /** In every run over a population without clashes the three maps represent the set of
      pairs watched and not unwatched since. */
  lemma {:induction false} RegistryRepresents(run: Run, population: iset<User>)
    requires By(run, population) && NoClash(population)
    ensures Represents(MapsAfter(run), PairsAfter(run))
  {
    if run.Then? {
      var m, w := MapsAfter(run.before), PairsAfter(run.before);
      RegistryRepresents(run.before, population);
      PairsFromPopulation(run.before, population);
      match run.op
      case Watch(u, mint) => AddRepresents(m, w, u, mint);
      case Unwatch(u, mint) => RemoveRepresents(m, w, u, mint);
    }
  }

  /** Two clashing users can be confused: the second watch is swallowed. */
  lemma ClashSwallowsWatch(u: User, v: User, mint: Mint)
    requires u + ":" <= v
    ensures var run := Then(Then(Start, Watch(u, v[|u| + 1..] + ":" + mint)), Watch(v, mint));
            (v, mint) in PairsAfter(run) && UsersOf(MapsAfter(run), mint) == {}
  {
    var other := v[|u| + 1..] + ":" + mint;
    PrefixKeysMeet(u, v, mint);
    assert other != mint;
    assert MapsAfter(Then(Start, Watch(u, other))) == Added(NO_WATCHES, u, other);
  }

  /** A population is represented faithfully in every run of non-empty mints exactly when it
      has no clash. */
  lemma FaithfulIffNoClash(population: iset<User>)
    ensures (forall run: Run {:trigger MapsAfter(run)} ::
               By(run, population) && NamesMints(run) ==> Represents(MapsAfter(run), PairsAfter(run)))
        <==> NoClash(population)
  {
    if NoClash(population) {
      forall run: Run | By(run, population) && NamesMints(run) ensures Represents(MapsAfter(run), PairsAfter(run)) {
        RegistryRepresents(run, population);
      }
    } else {
      var u, v :| u in population && v in population && Clash(u, v);
      if u + ":" <= v { ClashNotRepresented(u, v, population); } else { ClashNotRepresented(v, u, population); }
    }
  }

  lemma ClashNotRepresented(u: User, v: User, population: iset<User>)
    requires u + ":" <= v && u in population && v in population
    ensures exists run: Run :: By(run, population) && NamesMints(run) && !Represents(MapsAfter(run), PairsAfter(run))
  {
    ClashSwallowsWatch(u, v, "m");
    var first := Then(Start, Watch(u, v[|u| + 1..] + ":" + "m"));
    var run := Then(first, Watch(v, "m"));
    assert By(first.before, population) && By(first, population) && By(run, population);
    assert NamesMints(first.before) && NamesMints(first) && NamesMints(run);
    assert v in WatchersOf(PairsAfter(run), "m") && !AgreesAt(MapsAfter(run), PairsAfter(run), "m");
  }

  // ----- the registry in place -----

  class Registry {
    var watchByUserKey: set<string>
    var mintCounts: map<Mint, int>
    var mintUsers: map<Mint, set<User>>

    ghost function View(): Maps
      reads this
    {
      Maps(watchByUserKey, mintCounts, mintUsers)
    }

    constructor ()
      ensures View() == NO_WATCHES
    {
      watchByUserKey, mintCounts, mintUsers := {}, map[], map[];
    }

    method AddWatch(user: User, mint: Mint)
      modifies this
      ensures View() == Added(old(View()), user, mint)
    {
      var key := user + ":" + mint;
      if key in watchByUserKey { return; }
      watchByUserKey := watchByUserKey + {key};
      mintCounts := mintCounts[mint := (if mint in mintCounts then mintCounts[mint] else 0) + 1];
      if mint !in mintUsers { mintUsers := mintUsers[mint := {}]; }
      mintUsers := mintUsers[mint := mintUsers[mint] + {user}];
    }

    method RemoveWatch(user: User, mint: Mint)
      modifies this
      ensures View() == Removed(old(View()), user, mint)
    {
      var key := user + ":" + mint;
      if key !in watchByUserKey { return; }
      watchByUserKey := watchByUserKey - {key};
      var n := (if mint in mintCounts then mintCounts[mint] else 0) - 1;
      if n <= 0 { mintCounts := mintCounts - {mint}; } else { mintCounts := mintCounts[mint := n]; }
      if mint in mintUsers {
        var rest := mintUsers[mint] - {user};
        if |rest| == 0 { mintUsers := mintUsers - {mint}; } else { mintUsers := mintUsers[mint := rest]; }
      }
    }

    /** Whether the mint has a watcher. */
    method HasWatchers(mint: Mint) returns (b: bool)
      ensures b == (0 < CountOf(View(), mint))
      ensures forall w: Watches :: Represents(View(), w) ==> (b <==> WatchersOf(w, mint) != {})
    {
      assert forall w: Watches :: Represents(View(), w) ==> AgreesAt(View(), w, mint);
      b := mint in mintCounts && 0 < mintCounts[mint];
    }

    /** The watched mints, each once. */
    method ActiveMints() returns (out: seq<Mint>)
      ensures NoRepeats(out) && forall mint :: mint in out <==> mint in View().counts
      ensures forall w: Watches, mint: Mint :: Represents(View(), w) ==> (mint in out <==> WatchersOf(w, mint) != {})
    {
      forall w: Watches, mint: Mint | Represents(View(), w)
        ensures mint in mintCounts <==> WatchersOf(w, mint) != {}
      {
        assert AgreesAt(View(), w, mint);
      }
      out := Listed(mintCounts.Keys);
    }

    /** The watchers of a mint, each once. */
    method UsersForMint(mint: Mint) returns (out: seq<User>)
      ensures NoRepeats(out) && forall u :: u in out <==> u in UsersOf(View(), mint)
      ensures forall w: Watches, u: User :: Represents(View(), w) ==> (u in out <==> u in WatchersOf(w, mint))
    {
      assert forall w: Watches :: Represents(View(), w) ==> AgreesAt(View(), w, mint);
      out := [];
      if mint in mintUsers { out := Listed(mintUsers[mint]); }
    }
  }

  predicate NoRepeats(s: seq<string>) {
    forall i, j :: 0 <= i < j < |s| ==> s[i] != s[j]
  }

  /** The members of a set in whatever order a map yields its keys. */
  method Listed(s: set<string>) returns (out: seq<string>)
    ensures NoRepeats(out) && forall x :: x in out <==> x in s
  {
    out := [];
    var rest := s;
    while rest != {}
      invariant rest <= s
      invariant forall x :: x in out <==> x in s - rest
      invariant forall i :: 0 <= i < |out| ==> out[i] !in rest
      invariant NoRepeats(out)
      decreases rest
    {
      var x :| x in rest;
      out := out + [x];
      rest := rest - {x};
    }
  }
}
