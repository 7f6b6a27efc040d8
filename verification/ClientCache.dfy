/** The bounded cache of Redis clients (internal/adapter/directiveredis/client_cache.go): what its
    calls may do, over any history of leases, and what every history keeps. Clients are numbered in
    creation order; `shut` counts the Close calls each client has received. */
module ClientCache {
  import opened Prelude
  import opened Sums

  datatype Config = Config(capacity: int, idleTimeout: int)

  datatype Entry = Entry(client: nat, refs: int, lastUsed: int)

  /** A client handed to a caller, and whether its release function is still to be called. */
  datatype Lease = Lease(key: nat, client: nat, held: bool)

  datatype State = State(entries: map<nat, Entry>, closed: bool, clients: nat, shut: multiset<nat>, leases: seq<Lease>)

  datatype Event =
    | Acquire(key: nat, now: int, victim: nat)   // victim: the idle entry the walk settles on, if one must go
    | Release(lease: nat, now: int)
    | Close

  function Start(): State { State(map[], false, 0, multiset{}, []) }

  // ---- The calls ---------------------------------------------------------

  predicate Expired(cfg: Config, entry: Entry, now: int) {
    cfg.idleTimeout > 0 && entry.refs == 0 && now - entry.lastUsed >= cfg.idleTimeout
  }

  function ClientsOf(entries: map<nat, Entry>, keys: set<nat>): set<nat> {
    set k | k in keys && k in entries :: entries[k].client
  }

  /** Closing and deleting some entries. */
  function Without(s: State, gone: set<nat>): State {
    s.(entries := s.entries - gone, shut := s.shut + multiset(ClientsOf(s.entries, gone)))
  }

  function Stale(cfg: Config, s: State, now: int): set<nat> {
    set k | k in s.entries && Expired(cfg, s.entries[k], now)
  }

  /** An idle entry that no other idle entry was used before. */
  ghost predicate Oldest(s: State, key: nat) {
    && key in s.entries && s.entries[key].refs == 0
    && forall k :: k in s.entries && s.entries[k].refs == 0 ==> s.entries[key].lastUsed <= s.entries[k].lastUsed
  }

  function Share(s: State, key: nat, now: int): State
    requires key in s.entries
  {
    var entry := s.entries[key];
    s.(entries := s.entries[key := Entry(entry.client, entry.refs + 1, now)],
         leases := s.leases + [Lease(key, entry.client, true)])
  }

  function Insert(s: State, key: nat, now: int): State {
    s.(entries := s.entries[key := Entry(s.clients, 1, now)], clients := s.clients + 1,
       leases := s.leases + [Lease(key, s.clients, true)])
  }

  function Swept(cfg: Config, s: State, now: int): State { Without(s, Stale(cfg, s, now)) }

  predicate Evictable(s: State) { exists k :: k in s.entries && s.entries[k].refs == 0 }

  predicate Full(cfg: Config, s: State, key: nat) { key !in s.entries && |s.entries| >= cfg.capacity }

  predicate Refused(cfg: Config, s: State, key: nat, now: int) {
    s.closed || (Full(cfg, Swept(cfg, s, now), key) && !Evictable(Swept(cfg, s, now)))
  }

  function Acquired(cfg: Config, s: State, key: nat, now: int, victim: nat): State {
    var u := Swept(cfg, s, now);
    if s.closed then s
    else if key in u.entries then Share(u, key, now)
    else if !Full(cfg, u, key) then Insert(u, key, now)
    else if !Evictable(u) then u
    else Insert(Without(u, {victim}), key, now)
  }

  /** Calling the function a lease came with, for the first time or again. */
  function Released(s: State, i: nat, now: int): State
    requires i < |s.leases|
  {
    var lease := s.leases[i];
    var t := s.(leases := s.leases[i := lease.(held := false)]);
    if lease.key in s.entries then
      var entry := s.entries[lease.key];
      t.(entries := s.entries[lease.key := Entry(entry.client, entry.refs - 1, now)])
    else t
  }

  function Closed(s: State): State {
    if s.closed then s else Without(s, s.entries.Keys).(closed := true)
  }

  ghost predicate Enabled(cfg: Config, s: State, e: Event) {
    match e
    case Acquire(key, now, victim) =>
      var u := Swept(cfg, s, now);
      !s.closed && Full(cfg, u, key) && Evictable(u) ==> Oldest(u, victim)
    case Release(i, now) => i < |s.leases| && s.leases[i].held
    case Close => true
  }

  function Step(cfg: Config, s: State, e: Event): State
    requires Enabled(cfg, s, e)
  {
    match e
    case Acquire(key, now, victim) => Acquired(cfg, s, key, now, victim)
    case Release(i, now) => Released(s, i, now)
    case Close => Closed(s)
  }

  // ---- What every history keeps ------------------------------------------

  function HeldFor(key: nat): Lease -> int {
    (l: Lease) => if l.held && l.key == key then 1 else 0
  }

  ghost predicate EntryOk(s: State, key: nat)
    requires key in s.entries
  {
    && s.entries[key].refs == SumOf(s.leases, HeldFor(key))
    && s.entries[key].client < s.clients
    && s.entries[key].client !in s.shut
    && forall k :: k in s.entries && s.entries[k].client == s.entries[key].client ==> k == key
  }

  predicate LeaseOk(s: State, lease: Lease) {
    lease.held && !s.closed ==> lease.key in s.entries && s.entries[lease.key].client == lease.client
  }

  ghost predicate Cached(s: State, client: nat) {
    exists k :: k in s.entries && s.entries[k].client == client
  }

  predicate Sized(cfg: Config, s: State) {
    (|s.entries| <= cfg.capacity || s.entries == map[]) && (s.closed ==> s.entries == map[])
  }

  /** Entries and leases agree. */
  ghost predicate Books(s: State) {
    && (forall k :: k in s.entries ==> EntryOk(s, k))
    && (forall i :: 0 <= i < |s.leases| ==> LeaseOk(s, s.leases[i]))
  }

  /** Every client made is cached or was closed, and none was closed twice. */
  ghost predicate Accounted(s: State) {
    && (forall c: nat :: c < s.clients ==> c in s.shut || Cached(s, c))
    && (forall c :: c in s.shut ==> c < s.clients && s.shut[c] == 1)
  }

  ghost predicate Inv(cfg: Config, s: State) { Sized(cfg, s) && Books(s) && Accounted(s) }

  ghost predicate Leased(s: State, key: nat) {
    exists i :: 0 <= i < |s.leases| && s.leases[i].held && s.leases[i].key == key
  }

  lemma RefsNonNegative(s: State, key: nat)
    ensures SumOf(s.leases, HeldFor(key)) >= 0
    ensures SumOf(s.leases, HeldFor(key)) > 0 <==> Leased(s, key)
  {
    NonNegative(s.leases, HeldFor(key));
    if i :| 0 <= i < |s.leases| && s.leases[i].held && s.leases[i].key == key {
      assert HeldFor(key)(s.leases[i]) == 1;
    }
    if SumOf(s.leases, HeldFor(key)) > 0 {
      var i :| 0 <= i < |s.leases| && HeldFor(key)(s.leases[i]) > 0;
      assert s.leases[i].held && s.leases[i].key == key;
    }
  }

  lemma InClientsOf(entries: map<nat, Entry>, keys: set<nat>, c: nat)
    ensures c in ClientsOf(entries, keys) <==> exists k :: k in keys && k in entries && entries[k].client == c
  {}

  lemma ClientsOfOne(entries: map<nat, Entry>, key: nat)
    requires key in entries
    ensures ClientsOf(entries, {key}) == {entries[key].client}
  {}

  lemma ClientsOfNone(entries: map<nat, Entry>)
    ensures ClientsOf(entries, {}) == {}
  {}

  lemma WithoutBooks(s: State, gone: set<nat>)
    requires Books(s) && forall k :: k in gone ==> k in s.entries && s.entries[k].refs == 0
    ensures Books(Without(s, gone))
  {
    var t := Without(s, gone);
    forall k | k in t.entries ensures EntryOk(t, k) {
      assert EntryOk(s, k);
      InClientsOf(s.entries, gone, s.entries[k].client);
    }
    forall i | 0 <= i < |t.leases| ensures LeaseOk(t, t.leases[i]) {
      assert LeaseOk(s, s.leases[i]);
      RefsNonNegative(s, s.leases[i].key);
      if s.leases[i].key in gone { assert EntryOk(s, s.leases[i].key); }
    }
  }

  lemma WithoutAccounted(s: State, gone: set<nat>)
    requires Books(s) && Accounted(s) && gone <= s.entries.Keys
    ensures Accounted(Without(s, gone))
  {
    var t := Without(s, gone);
    forall c: nat | c < t.clients && c !in t.shut ensures Cached(t, c) {
      InClientsOf(s.entries, gone, c);
      var k :| k in s.entries && s.entries[k].client == c;
      assert k in t.entries && t.entries[k].client == c;
    }
    forall c | c in t.shut ensures c < t.clients && t.shut[c] == 1 {
      InClientsOf(s.entries, gone, c);
      if c in ClientsOf(s.entries, gone) {
        var k :| k in gone && k in s.entries && s.entries[k].client == c;
        assert EntryOk(s, k);
      }
    }
  }

  lemma Subset<K, V>(a: map<K, V>, b: map<K, V>)
    requires a.Keys <= b.Keys
    ensures |a| <= |b|
  {
    assert b.Keys == a.Keys + (b.Keys - a.Keys);
    assert |a| == |a.Keys| && |b| == |b.Keys|;
  }

  /** Entries without leases can go; each of their clients is closed once. */
  lemma WithoutKeeps(cfg: Config, s: State, gone: set<nat>)
    requires Inv(cfg, s) && forall k :: k in gone ==> k in s.entries && s.entries[k].refs == 0
    ensures Inv(cfg, Without(s, gone))
  {
    WithoutBooks(s, gone);
    WithoutAccounted(s, gone);
    Subset(Without(s, gone).entries, s.entries);
  }

  lemma ShareBooks(s: State, key: nat, now: int)
    requires Books(s) && key in s.entries
    ensures Books(Share(s, key, now))
  {
    var t := Share(s, key, now);
    forall k | k in t.entries ensures EntryOk(t, k) {
      assert EntryOk(s, k);
      Append(s.leases, t.leases[|s.leases|], HeldFor(k));
    }
    forall i | 0 <= i < |t.leases| ensures LeaseOk(t, t.leases[i]) {
      if i < |s.leases| { assert LeaseOk(s, s.leases[i]); }
    }
  }

  lemma ShareAccounted(s: State, key: nat, now: int)
    requires Accounted(s) && key in s.entries
    ensures Accounted(Share(s, key, now))
  {
    var t := Share(s, key, now);
    forall c: nat | c < t.clients && c !in t.shut ensures Cached(t, c) {
      var k :| k in s.entries && s.entries[k].client == c;
      assert k in t.entries && t.entries[k].client == c;
    }
  }

  lemma ShareKeeps(cfg: Config, s: State, key: nat, now: int)
    requires Inv(cfg, s) && key in s.entries
    ensures Inv(cfg, Share(s, key, now))
  {
    var t := Share(s, key, now);
    assert t.entries.Keys == s.entries.Keys;
    Subset(t.entries, s.entries);
    ShareBooks(s, key, now);
    ShareAccounted(s, key, now);
  }

  lemma InsertKeeps(cfg: Config, s: State, key: nat, now: int)
    requires Inv(cfg, s) && !s.closed && key !in s.entries && |s.entries| < cfg.capacity
    ensures Inv(cfg, Insert(s, key, now))
  {
    var t := Insert(s, key, now);
    assert t.entries.Keys == s.entries.Keys + {key} && |t.entries| == |t.entries.Keys| &&
        |s.entries| == |s.entries.Keys|;
    RefsNonNegative(s, key);
    forall i | 0 <= i < |s.leases| ensures !(s.leases[i].held && s.leases[i].key == key) {
      assert LeaseOk(s, s.leases[i]);
    }
    forall k | k in t.entries ensures EntryOk(t, k) {
      if k != key { assert EntryOk(s, k); }
      Append(s.leases, t.leases[|s.leases|], HeldFor(k));
      forall j | j in t.entries && t.entries[j].client == t.entries[k].client ensures j == k {
        if j != key { assert EntryOk(s, j); }
      }
    }
    forall i | 0 <= i < |t.leases| ensures LeaseOk(t, t.leases[i]) {
      if i < |s.leases| { assert LeaseOk(s, s.leases[i]); }
    }
    forall c: nat | c < t.clients && c !in t.shut ensures Cached(t, c) {
      if c < s.clients {
        var k :| k in s.entries && s.entries[k].client == c;
        assert k in t.entries && t.entries[k].client == c;
      } else {
        assert t.entries[key].client == c;
      }
    }
  }

  /** Evicting one entry makes room for exactly one. */
  lemma ReplaceKeeps(cfg: Config, s: State, victim: nat, key: nat, now: int)
    requires Inv(cfg, s) && !s.closed && key !in s.entries && Oldest(s, victim)
    ensures Inv(cfg, Insert(Without(s, {victim}), key, now))
  {
    WithoutKeeps(cfg, s, {victim});
    var u := Without(s, {victim});
    assert s.entries.Keys == u.entries.Keys + {victim};
    assert |u.entries| == |u.entries.Keys| && |s.entries| == |s.entries.Keys|;
    InsertKeeps(cfg, u, key, now);
  }

  lemma AcquireKeeps(cfg: Config, s: State, key: nat, now: int, victim: nat)
    requires Inv(cfg, s) && Enabled(cfg, s, Acquire(key, now, victim))
    ensures Inv(cfg, Acquired(cfg, s, key, now, victim))
  {
    if !s.closed {
      var u := Swept(cfg, s, now);
      WithoutKeeps(cfg, s, Stale(cfg, s, now));
      if key in u.entries {
        ShareKeeps(cfg, u, key, now);
      } else if !Full(cfg, u, key) {
        InsertKeeps(cfg, u, key, now);
      } else if Evictable(u) {
        ReplaceKeeps(cfg, u, victim, key, now);
      }
    }
  }

  lemma ReleaseCounts(s: State, i: nat, t: State)
    requires i < |s.leases| && t.leases == s.leases[i := s.leases[i].(held := false)]
    ensures forall k :: SumOf(t.leases, HeldFor(k)) == SumOf(s.leases, HeldFor(k)) - HeldFor(k)(s.leases[i])
  {
    forall k ensures SumOf(t.leases, HeldFor(k)) == SumOf(s.leases, HeldFor(k)) - HeldFor(k)(s.leases[i]) {
      Update(s.leases, i, t.leases[i], HeldFor(k));
    }
  }

  lemma ReleaseBooks(s: State, i: nat, now: int)
    requires Books(s) && i < |s.leases| && (s.leases[i].held || s.leases[i].key !in s.entries)
    ensures Books(Released(s, i, now))
  {
    var t := Released(s, i, now);
    ReleaseCounts(s, i, t);
    forall k | k in t.entries ensures EntryOk(t, k) { assert EntryOk(s, k); }
    forall j | 0 <= j < |t.leases| ensures LeaseOk(t, t.leases[j]) { assert LeaseOk(s, s.leases[j]); }
  }

  lemma ReleaseAccounted(s: State, i: nat, now: int)
    requires Accounted(s) && i < |s.leases|
    ensures Accounted(Released(s, i, now))
  {
    var t := Released(s, i, now);
    forall c: nat | c < t.clients && c !in t.shut ensures Cached(t, c) {
      var k :| k in s.entries && s.entries[k].client == c;
      assert k in t.entries && t.entries[k].client == c;
    }
  }

  /** Releasing keeps the books exactly when the lease is still held, or its entry is gone: a second
      call of one release function takes a reference that belongs to somebody else. */
  lemma ReleaseKeeps(cfg: Config, s: State, i: nat, now: int)
    requires Inv(cfg, s) && i < |s.leases|
    ensures Inv(cfg, Released(s, i, now)) <==> s.leases[i].held || s.leases[i].key !in s.entries
  {
    var t := Released(s, i, now);
    var key := s.leases[i].key;
    assert t.entries.Keys == s.entries.Keys && |t.entries| == |t.entries.Keys| && |s.entries| == |s.entries.Keys|;
    ReleaseCounts(s, i, t);
    if s.leases[i].held || key !in s.entries {
      ReleaseBooks(s, i, now);
      ReleaseAccounted(s, i, now);
    } else {
      assert EntryOk(s, key) && !EntryOk(t, key);
    }
  }

  lemma CloseKeeps(cfg: Config, s: State)
    requires Inv(cfg, s)
    ensures Inv(cfg, Closed(s))
  {
    if !s.closed {
      var t := Closed(s);
      WithoutAccounted(s, s.entries.Keys);
      assert t.entries == map[];
      forall c: nat | c < t.clients ensures c in t.shut || Cached(t, c) {
        assert Cached(Without(s, s.entries.Keys), c) ==> Cached(t, c);
      }
    }
  }

  lemma StepKeeps(cfg: Config, s: State, e: Event)
    requires Inv(cfg, s) && Enabled(cfg, s, e)
    ensures Inv(cfg, Step(cfg, s, e))
  {
    match e
    case Acquire(key, now, victim) => AcquireKeeps(cfg, s, key, now, victim);
    case Release(i, now) => ReleaseKeeps(cfg, s, i, now);
    case Close => CloseKeeps(cfg, s);
  }

  ghost predicate Reaches(cfg: Config, s: State, events: seq<Event>, t: State)
    decreases |events|
  {
    if events == [] then s == t
    else Enabled(cfg, s, events[0]) && Reaches(cfg, Step(cfg, s, events[0]), events[1..], t)
  }

  lemma {:induction false} RunKeeps(cfg: Config, s: State, events: seq<Event>, t: State)
    requires Inv(cfg, s) && Reaches(cfg, s, events, t)
    ensures Inv(cfg, t)
    decreases |events|
  {
    if events != [] {
      StepKeeps(cfg, s, events[0]);
      RunKeeps(cfg, Step(cfg, s, events[0]), events[1..], t);
    }
  }

  ghost predicate Reachable(cfg: Config, s: State) {
    exists events :: Reaches(cfg, Start(), events, s)
  }

  lemma {:induction false} RunExtends(cfg: Config, s: State, events: seq<Event>, t: State, e: Event)
    requires Reaches(cfg, s, events, t) && Enabled(cfg, t, e)
    ensures Reaches(cfg, s, events + [e], Step(cfg, t, e))
    decreases |events|
  {
    if events == [] {
      assert Reaches(cfg, Step(cfg, t, e), [], Step(cfg, t, e));
      assert ([] + [e])[1..] == [];
    } else {
      RunExtends(cfg, Step(cfg, s, events[0]), events[1..], t, e);
      assert (events + [e])[1..] == events[1..] + [e];
    }
  }

  lemma Extend(cfg: Config, s: State, e: Event)
    requires Reachable(cfg, s) && Enabled(cfg, s, e)
    ensures Reachable(cfg, Step(cfg, s, e))
  {
    var events :| Reaches(cfg, Start(), events, s);
    RunExtends(cfg, Start(), events, s, e);
  }

  lemma ReachableIsSound(cfg: Config, s: State)
    requires Reachable(cfg, s)
    ensures Inv(cfg, s)
  {
    var events :| Reaches(cfg, Start(), events, s);
    RunKeeps(cfg, Start(), events, s);
  }

  /** In every history whose leases are each released once: the cache stays within capacity, an
      entry counts its outstanding leases, a leased client is open until the cache is closed, no client
      is closed twice, and every client made is cached or closed. */
  lemma CacheIsSound(cfg: Config, events: seq<Event>, s: State)
    requires Reaches(cfg, Start(), events, s)
    ensures |s.entries| <= if cfg.capacity > 0 then cfg.capacity else 0
    ensures forall k :: k in s.entries ==> s.entries[k].refs == SumOf(s.leases, HeldFor(k))
    ensures forall i :: 0 <= i < |s.leases| && s.leases[i].held && !s.closed ==> s.leases[i].client !in s.shut
    ensures forall c: nat :: s.shut[c] <= 1 && (c < s.clients <==> c in s.shut || Cached(s, c))
    ensures s.closed ==> forall c: nat :: c < s.clients ==> c in s.shut
  {
    RunKeeps(cfg, Start(), events, s);
    forall k | k in s.entries ensures s.entries[k].refs == SumOf(s.leases, HeldFor(k)) { assert EntryOk(s, k); }
    forall i | 0 <= i < |s.leases| && s.leases[i].held && !s.closed ensures s.leases[i].client !in s.shut {
      assert LeaseOk(s, s.leases[i]) && EntryOk(s, s.leases[i].key);
    }
    forall c: nat | Cached(s, c) ensures c < s.clients {
      var k :| k in s.entries && s.entries[k].client == c;
      assert EntryOk(s, k);
    }
  }

  /** A second release of a lease whose entry is there leads to a state that proper use never reaches. */
  lemma SecondReleaseLeaves(cfg: Config, s: State, i: nat, now: int)
    requires Reachable(cfg, s) && i < |s.leases| && !s.leases[i].held && s.leases[i].key in s.entries
    ensures !Reachable(cfg, Released(s, i, now))
  {
    ReachableIsSound(cfg, s);
    ReleaseKeeps(cfg, s, i, now);
    if Reachable(cfg, Released(s, i, now)) { ReachableIsSound(cfg, Released(s, i, now)); }
  }

  lemma BooksHold(cfg: Config, s: State)
    requires Reachable(cfg, s)
    ensures Books(s)
  {
    ReachableIsSound(cfg, s);
  }

  lemma LeasedMeansReferenced(s: State)
    requires Books(s)
    ensures forall k :: k in s.entries ==> s.entries[k].refs >= 0 && (s.entries[k].refs > 0 <==> Leased(s, k))
  {
    forall k | k in s.entries ensures s.entries[k].refs >= 0 && (s.entries[k].refs > 0 <==> Leased(s, k)) {
      assert EntryOk(s, k);
      RefsNonNegative(s, k);
    }
  }

  /** When something must go, some choice is possible. */
  lemma {:induction false} OldestExists(s: State, idle: set<nat>) returns (key: nat)
    requires idle != {} && forall k :: k in idle ==> k in s.entries && s.entries[k].refs == 0
    ensures key in idle && forall k :: k in idle ==> s.entries[key].lastUsed <= s.entries[k].lastUsed
    decreases |idle|
  {
    key :| key in idle;
    if idle - {key} != {} {
      var other := OldestExists(s, idle - {key});
      if s.entries[other].lastUsed < s.entries[key].lastUsed { key := other; }
    }
  }

  /** In every state, acquiring a key is enabled with some victim. */
  lemma AcquireEnabled(cfg: Config, s: State, key: nat, now: int) returns (victim: nat)
    ensures Enabled(cfg, s, Acquire(key, now, victim))
  {
    var u := Swept(cfg, s, now);
    victim := 0;
    if Evictable(u) {
      var idle := set k | k in u.entries && u.entries[k].refs == 0;
      var k :| k in u.entries && u.entries[k].refs == 0;
      assert k in idle;
      victim := OldestExists(u, idle);
      assert Oldest(u, victim);
    }
  }

  // ---- Use and age -------------------------------------------------------

  /** When event e uses a key: it hands out a lease of it, or a lease of it is released. */
  ghost function UsedBy(cfg: Config, s: State, e: Event, key: nat): Option<int>
    requires Enabled(cfg, s, e)
  {
    match e
    case Acquire(k, now, _) => if k == key && |Step(cfg, s, e).leases| > |s.leases| then Some(now) else None
    case Release(i, now) => if s.leases[i].key == key then Some(now) else None
    case Close => None
  }

  /** When a history last used a key, if it did; `before` is when it was used before the history. */
  ghost function LastUse(cfg: Config, s: State, events: seq<Event>, t: State, key: nat,
                         before: Option<int>): Option<int>
    requires Reaches(cfg, s, events, t)
    decreases |events|
  {
    if events == [] then before
    else
      var use := UsedBy(cfg, s, events[0], key);
      LastUse(cfg, Step(cfg, s, events[0]), events[1..], t, key, if use.Some? then use else before)
  }

  lemma AcquireStamps(cfg: Config, s: State, k: nat, now: int, victim: nat, key: nat)
    requires var t := Acquired(cfg, s, k, now, victim); key in t.entries
    ensures var t := Acquired(cfg, s, k, now, victim);
      if k == key && |t.leases| > |s.leases| then t.entries[key].lastUsed == now
      else key in s.entries && t.entries[key].lastUsed == s.entries[key].lastUsed
  {
    var u := Swept(cfg, s, now);
    assert key in u.entries ==> key in s.entries && u.entries[key] == s.entries[key];
    if !s.closed && key !in u.entries {
      var w := Without(u, {victim});
      assert key !in w.entries;
    }
  }

  /** What releasing does to the entries. */
  lemma ReleaseSays(s: State, i: nat, now: int, key: nat)
    requires i < |s.leases| && s.leases[i].key == key
    ensures Released(s, i, now).entries ==
      if key !in s.entries then s.entries
      else s.entries[key := Entry(s.entries[key].client, s.entries[key].refs - 1, now)]
  {}

  lemma ReleaseStamps(cfg: Config, s: State, i: nat, now: int, key: nat)
    requires i < |s.leases| && key in Released(s, i, now).entries
    ensures key in s.entries
    ensures Released(s, i, now).entries[key].lastUsed == if s.leases[i].key == key then now else s.entries[key].lastUsed
  {}

  /** A step that leaves an entry there has stamped it if it used its key, and otherwise not touched the stamp. */
  lemma StepStamps(cfg: Config, s: State, e: Event, key: nat)
    requires Enabled(cfg, s, e) && key in Step(cfg, s, e).entries
    ensures var (t, use) := (Step(cfg, s, e), UsedBy(cfg, s, e, key));
      if use.Some? then t.entries[key].lastUsed == use.value
      else key in s.entries && t.entries[key].lastUsed == s.entries[key].lastUsed
  {
    match e
    case Acquire(k, now, victim) => AcquireStamps(cfg, s, k, now, victim, key);
    case Release(i, now) => ReleaseStamps(cfg, s, i, now, key);
    case Close =>
  }

  lemma {:induction false} StampsFollowUse(cfg: Config, s: State, events: seq<Event>, t: State, key: nat,
                                           before: Option<int>)
    requires Inv(cfg, s) && Reaches(cfg, s, events, t) && key in t.entries
    requires key in s.entries ==> before == Some(s.entries[key].lastUsed)
    ensures LastUse(cfg, s, events, t, key, before) == Some(t.entries[key].lastUsed)
    decreases |events|
  {
    if events != [] {
      var m := Step(cfg, s, events[0]);
      var use := UsedBy(cfg, s, events[0], key);
      StepKeeps(cfg, s, events[0]);
      if key in m.entries { StepStamps(cfg, s, events[0], key); }
      StampsFollowUse(cfg, m, events[1..], t, key, if use.Some? then use else before);
    }
  }

  /** In every history, a cached entry carries the time of the latest lease handed out or released for its key. */
  lemma StampIsLastUse(cfg: Config, events: seq<Event>, s: State, key: nat)
    requires Reaches(cfg, Start(), events, s) && key in s.entries
    ensures LastUse(cfg, Start(), events, s, key, None) == Some(s.entries[key].lastUsed)
  {
    StampsFollowUse(cfg, Start(), events, s, key, None);
  }

  /** Nobody has a lease of the key, and it was last used so long ago that its client may go. */
  ghost predicate Lapsed(cfg: Config, events: seq<Event>, s: State, key: nat, now: int)
    requires Reaches(cfg, Start(), events, s)
  {
    var use := LastUse(cfg, Start(), events, s, key, None);
    !Leased(s, key) && cfg.idleTimeout > 0 && use.Some? && now - use.value >= cfg.idleTimeout
  }

  lemma LapsedIsExpired(cfg: Config, events: seq<Event>, s: State, key: nat, now: int)
    requires Reaches(cfg, Start(), events, s) && key in s.entries
    ensures Lapsed(cfg, events, s, key, now) <==> Expired(cfg, s.entries[key], now)
    ensures Leased(s, key) <==> s.entries[key].refs != 0
  {
    RunKeeps(cfg, Start(), events, s);
    StampIsLastUse(cfg, events, s, key);
    LeasedMeansReferenced(s);
  }

  /** The cached keys that have not lapsed. */
  ghost function Current(cfg: Config, events: seq<Event>, s: State, now: int): set<nat>
    requires Reaches(cfg, Start(), events, s)
  {
    set k | k in s.entries && !Lapsed(cfg, events, s, k, now)
  }

  lemma CurrentIsSwept(cfg: Config, events: seq<Event>, s: State, now: int)
    requires Reaches(cfg, Start(), events, s)
    ensures Current(cfg, events, s, now) == Swept(cfg, s, now).entries.Keys
    ensures |Current(cfg, events, s, now)| == |Swept(cfg, s, now).entries|
  {
    forall k | k in s.entries ensures Lapsed(cfg, events, s, k, now) <==> Expired(cfg, s.entries[k], now) {
      LapsedIsExpired(cfg, events, s, k, now);
    }
    var u := Swept(cfg, s, now);
    assert Current(cfg, events, s, now) == u.entries.Keys && |u.entries| == |u.entries.Keys|;
  }

  lemma EvictableIsUnleased(cfg: Config, s: State, now: int)
    requires Inv(cfg, s)
    ensures Evictable(Swept(cfg, s, now)) <==> exists k :: k in Swept(cfg, s, now).entries && !Leased(s, k)
  {
    LeasedMeansReferenced(s);
    var u := Swept(cfg, s, now);
    forall k | k in u.entries ensures u.entries[k].refs == 0 <==> !Leased(s, k) {
      assert u.entries[k] == s.entries[k];
    }
  }

  /** An open cache refuses a key exactly when it is not cached (or lapsed) and the cache is full of
      leased clients; a refusal closes none but lapsed clients. */
  lemma RefusedWhenAllLeased(cfg: Config, events: seq<Event>, s: State, key: nat, now: int, victim: nat)
    requires Reaches(cfg, Start(), events, s) && !s.closed
    ensures var (current, t) := (Current(cfg, events, s, now), Acquired(cfg, s, key, now, victim));
      && (Refused(cfg, s, key, now) <==>
            key !in current && |current| >= cfg.capacity && forall k :: k in current ==> Leased(s, k))
      && (Refused(cfg, s, key, now) ==> t.entries.Keys == current && t.leases == s.leases)
  {
    RunKeeps(cfg, Start(), events, s);
    CurrentIsSwept(cfg, events, s, now);
    EvictableIsUnleased(cfg, s, now);
  }

  /** Acquiring closes lapsed clients and at most one more: one without a lease, last used no later than any other
      such client, and only when there was no room without it. */
  lemma EvictsLeastRecentlyUsed(cfg: Config, events: seq<Event>, s: State, key: nat, now: int, victim: nat, gone: nat)
    requires Reaches(cfg, Start(), events, s)
    requires Enabled(cfg, s, Acquire(key, now, victim)) && !s.closed
    requires gone in s.entries && gone !in Acquired(cfg, s, key, now, victim).entries
    ensures !Leased(s, gone)
    ensures Lapsed(cfg, events, s, gone, now) || (
      && gone == victim && key !in Current(cfg, events, s, now) && |Current(cfg, events, s, now)| >= cfg.capacity
      && LastUse(cfg, Start(), events, s, gone, None).Some?
      && forall k :: k in Current(cfg, events, s, now) && !Leased(s, k) ==>
           && LastUse(cfg, Start(), events, s, k, None).Some?
           && LastUse(cfg, Start(), events, s, gone, None).value <= LastUse(cfg, Start(), events, s, k, None).value)
  {
    var u := Swept(cfg, s, now);
    CurrentIsSwept(cfg, events, s, now);
    LapsedIsExpired(cfg, events, s, gone, now);
    if !Lapsed(cfg, events, s, gone, now) {
      assert gone in u.entries && u.entries[gone] == s.entries[gone];
      StampIsLastUse(cfg, events, s, gone);
      forall k | k in Current(cfg, events, s, now) && !Leased(s, k)
        ensures LastUse(cfg, Start(), events, s, k, None) == Some(s.entries[k].lastUsed)
        ensures s.entries[gone].lastUsed <= s.entries[k].lastUsed {
        StampIsLastUse(cfg, events, s, k);
        LapsedIsExpired(cfg, events, s, k, now);
        assert k in u.entries && u.entries[k] == s.entries[k];
      }
    }
  }

  /** Acquiring an open cache closes every lapsed client; the key then has one of its own, the cached one if there was
      a current one, and is leased once more. */
  lemma AcquireServes(cfg: Config, events: seq<Event>, s: State, key: nat, now: int, victim: nat)
    requires Reaches(cfg, Start(), events, s) && !s.closed && Enabled(cfg, s, Acquire(key, now, victim))
    ensures var t := Acquired(cfg, s, key, now, victim);
      && (forall k :: k in s.entries && k != key && Lapsed(cfg, events, s, k, now) ==>
            k !in t.entries && s.entries[k].client in t.shut)
      && (key in s.entries && Lapsed(cfg, events, s, key, now) ==> s.entries[key].client in t.shut)
      && (!Refused(cfg, s, key, now) ==>
            && key in t.entries && t.entries[key].lastUsed == now
            && t.leases == s.leases + [Lease(key, t.entries[key].client, true)]
            && t.entries[key].client ==
                 if key in Current(cfg, events, s, now) then s.entries[key].client else s.clients)
  {
    CurrentIsSwept(cfg, events, s, now);
    forall k | k in s.entries && Lapsed(cfg, events, s, k, now)
      ensures k in Stale(cfg, s, now) && s.entries[k].client in Swept(cfg, s, now).shut {
      LapsedIsExpired(cfg, events, s, k, now);
      InClientsOf(s.entries, Stale(cfg, s, now), s.entries[k].client);
    }
  }

  /** One client, leased twice for one key. */
  function SharedTwice(a: nat, now: int): State {
    State(map[a := Entry(0, 2, now)], false, 1, multiset{}, [Lease(a, 0, true), Lease(a, 0, true)])
  }

  function LeasedOnce(a: nat, now: int): State {
    State(map[a := Entry(0, 1, now)], false, 1, multiset{}, [Lease(a, 0, true)])
  }

  lemma LeasedOnceThenTwice(a: nat, now: int)
    ensures Insert(Start(), a, now) == LeasedOnce(a, now)
    ensures Share(LeasedOnce(a, now), a, now) == SharedTwice(a, now)
  {
    var (e, f) := (Entry(0, 1, now), Entry(0, 2, now));
    var l := Lease(a, 0, true);
    assert map[][a := e] == map[a := e] && map[a := e][a := f] == map[a := f];
    assert [] + [l] == [l] && [l] + [l] == [l, l];
  }

  lemma WithoutNone(s: State)
    ensures Without(s, {}) == s
  {
    ClientsOfNone(s.entries);
    assert s.entries - {} == s.entries;
  }

  lemma NothingStale(cfg: Config, s: State, now: int)
    requires cfg.idleTimeout <= 0
    ensures Without(s, Stale(cfg, s, now)) == s
  {
    assert Stale(cfg, s, now) == {};
    WithoutNone(s);
  }

  lemma LeasedOnceIsReachable(cfg: Config, a: nat, now: int)
    requires cfg == Config(1, 0)
    ensures Reachable(cfg, LeasedOnce(a, now))
  {
    assert Reaches(cfg, Start(), [], Start());
    NothingStale(cfg, Start(), now);
    LeasedOnceThenTwice(a, now);
    Extend(cfg, Start(), Acquire(a, now, 0));
  }

  lemma SharedTwiceIsReachable(cfg: Config, a: nat, now: int)
    requires cfg == Config(1, 0)
    ensures Reachable(cfg, SharedTwice(a, now))
  {
    LeasedOnceIsReachable(cfg, a, now);
    NothingStale(cfg, LeasedOnce(a, now), now);
    LeasedOnceThenTwice(a, now);
    Extend(cfg, LeasedOnce(a, now), Acquire(a, now, 0));
  }

  lemma ReleasedTwice(cfg: Config, s: State, a: nat, b: nat, now: int)
    requires cfg == Config(1, 0) && a != b
    requires s == State(map[a := Entry(0, 2, now)], false, 1, s.shut, [Lease(a, 0, true), Lease(a, 0, true)])
    ensures var t := Acquired(cfg, Released(Released(s, 0, now), 0, now), b, now, a);
      |t.leases| == 3 && t.leases[1] == Lease(a, 0, true) && 0 in t.shut
  {
    var twice := Released(Released(s, 0, now), 0, now);
    NothingStale(cfg, twice, now);
    assert twice.entries == map[a := Entry(0, 0, now)];
    ClientsOfOne(twice.entries, a);
  }

  /** What goes wrong otherwise: with one release function called twice, making room closes a leased client. */
  lemma DoubleReleaseClosesLeased(cfg: Config, a: nat, b: nat, now: int)
    requires cfg == Config(1, 0) && a != b
    ensures Reachable(cfg, SharedTwice(a, now))
    ensures
      var t := Acquired(cfg, Released(Released(SharedTwice(a, now), 0, now), 0, now), b, now, a);
      |t.leases| == 3 && t.leases[1] == Lease(a, 0, true) && 0 in t.shut
  {
    SharedTwiceIsReachable(cfg, a, now);
    ReleasedTwice(cfg, SharedTwice(a, now), a, b, now);
  }

  lemma AddOne(m: multiset<nat>, a: set<nat>, c: nat)
    requires c !in a
    ensures m + multiset(a) + multiset({c}) == m + multiset(a + {c})
  {
    assert multiset(a + {c}) == multiset(a) + multiset({c});
  }

  /** Clients of different entries differ, so evicting one at a time closes each once. */
  lemma WithoutMore(s: State, gone: set<nat>, key: nat)
    requires Books(s) && gone <= s.entries.Keys && key in s.entries && key !in gone
    ensures Without(Without(s, gone), {key}) == Without(s, gone + {key})
  {
    var c := s.entries[key].client;
    assert (s.entries - gone) - {key} == s.entries - (gone + {key});
    ClientsOfOne(s.entries - gone, key);
    InClientsOf(s.entries, gone, c);
    assert EntryOk(s, key);
    assert ClientsOf(s.entries, gone + {key}) == ClientsOf(s.entries, gone) + {c};
    AddOne(s.shut, ClientsOf(s.entries, gone), c);
  }
}

/** The cache as an object; each method is one critical section. */
module ClientCacheImpl {
  import opened ClientCache

  lemma OneLessLeft(rest: set<nat>, stale: set<nat>, key: nat)
    requires key in rest
    ensures stale - (rest - {key}) == if key in stale then (stale - rest) + {key} else stale - rest
  {}

  lemma AllSeen(stale: set<nat>)
    ensures stale - {} == stale
  {}

  lemma NoneSeen(s: State, stale: set<nat>, rest: set<nat>)
    requires stale <= rest
    ensures Without(s, stale - rest) == s
  {
    assert stale - rest == {};
    WithoutNone(s);
  }

  lemma NothingLeft(s: State, gone: set<nat>)
    requires gone <= s.entries.Keys && Without(s, gone).entries == map[]
    ensures gone == s.entries.Keys
  {
    forall k | k in s.entries ensures k in gone { assert k !in (s.entries - gone); }
  }

  class Cache {
    const cfg: Config
    var entries: map<nat, Entry>
    var closed: bool
    var clients: nat
    var shut: multiset<nat>
    ghost var leases: seq<Lease>

    ghost function View(): State
      reads this
    {
      State(entries, closed, clients, shut, leases)
    }

    ghost predicate Valid()
      reads this
    {
      Reachable(cfg, View())
    }

    constructor (capacity: int, idleTimeout: int)
      ensures cfg == Config(capacity, idleTimeout) && View() == Start() && Valid()
    {
      cfg := Config(capacity, idleTimeout);
      entries, closed, clients, shut, leases := map[], false, 0, multiset{}, [];
      new;
      assert Reaches(cfg, Start(), [], View());
    }

    /** client.Close and delete. */
    method Evict(key: nat)
      requires key in entries
      modifies `entries, `shut
      ensures View() == Without(old(View()), {key})
    {
      ClientsOfOne(entries, key);
      shut := shut + multiset{entries[key].client};
      entries := entries - {key};
    }

    /** The body of evictIdle's loop, for one entry of what is left of the walk. */
    method EvictIfStale(key: nat, now: int, ghost s: State, ghost rest: set<nat>)
      requires Books(s) && key in s.entries && key in rest
      requires View() == Without(s, Stale(cfg, s, now) - rest)
      modifies `entries, `shut
      ensures View() == Without(s, Stale(cfg, s, now) - (rest - {key}))
    {
      ghost var stale := Stale(cfg, s, now);
      OneLessLeft(rest, stale, key);
      if Expired(cfg, entries[key], now) {
        WithoutMore(s, stale - rest, key);
        Evict(key);
      }
    }

    /** The walk of evictIdle, in whatever order. */
    method EvictStale(now: int)
      requires Books(View())
      modifies `entries, `shut
      ensures View() == Swept(cfg, old(View()), now)
    {
      ghost var s := View();
      var rest := entries.Keys;
      NoneSeen(s, Stale(cfg, s, now), rest);
      while rest != {}
        invariant rest <= s.entries.Keys
        invariant View() == Without(s, Stale(cfg, s, now) - rest)
        decreases rest
      {
        var key :| key in rest;
        EvictIfStale(key, now, s, rest);
        rest := rest - {key};
      }
      AllSeen(Stale(cfg, s, now));
    }

    /** Every stale entry goes, and nothing else. */
    method EvictIdle(now: int)
      requires Books(View())
      modifies `entries, `shut
      ensures View() == Swept(cfg, old(View()), now)
    {
      if cfg.idleTimeout <= 0 {
        NothingStale(cfg, View(), now);
        return;
      }
      EvictStale(now);
    }

    /** The walk keeps the oldest idle entry seen so far; ties fall to the walk's order. */
    method EvictOldestIdle() returns (ok: bool, ghost key: nat)
      modifies `entries, `shut
      ensures ok <==> Evictable(old(View()))
      ensures ok ==> Oldest(old(View()), key) && View() == Without(old(View()), {key})
      ensures !ok ==> View() == old(View())
    {
      var found, oldest := false, 0;
      var rest := entries.Keys;
      while rest != {}
        invariant View() == old(View()) && rest <= entries.Keys
        invariant found ==> oldest in entries && entries[oldest].refs == 0
        invariant forall k :: k in entries && k !in rest && entries[k].refs == 0 ==>
          found && entries[oldest].lastUsed <= entries[k].lastUsed
        decreases rest
      {
        var k :| k in rest;
        rest := rest - {k};
        if entries[k].refs == 0 && (!found || entries[k].lastUsed < entries[oldest].lastUsed) {
          found, oldest := true, k;
        }
      }
      key := oldest;
      if !found {
        return false, key;
      }
      assert Oldest(View(), oldest);
      Evict(oldest);
      ok := true;
    }

    /** Sharing or creating an entry once there is room. */
    method Lend(key: nat, now: int) returns (client: nat)
      modifies `entries, `clients, `leases
      ensures View() == if key in old(entries) then Share(old(View()), key, now) else Insert(old(View()), key, now)
      ensures leases == old(leases) + [Lease(key, client, true)]
      ensures key in entries && entries[key].client == client && entries[key].lastUsed == now
    {
      if key in entries {
        client := entries[key].client;
        entries := entries[key := Entry(client, entries[key].refs + 1, now)];
      } else {
        client := clients;
        clients := clients + 1;
        entries := entries[key := Entry(client, 1, now)];
      }
      leases := leases + [Lease(key, client, true)];
    }

    /** The client for a key, or nothing when the cache is closed or full of leased clients. */
    method Acquire(key: nat, now: int) returns (ok: bool, client: nat, ghost victim: nat)
      requires Valid()
      modifies `entries, `shut, `clients, `leases
      ensures Valid() && Enabled(cfg, old(View()), ClientCache.Acquire(key, now, victim))
      ensures View() == Acquired(cfg, old(View()), key, now, victim)
      ensures ok <==> !Refused(cfg, old(View()), key, now)
      ensures leases == if ok then old(leases) + [Lease(key, client, true)] else old(leases)
      ensures ok ==> key in entries && entries[key].client == client && entries[key].lastUsed == now
    {
      ghost var s := View();
      victim, client := 0, 0;
      ok := !closed;
      if ok {
        BooksHold(cfg, s);
        EvictIdle(now);
        if key !in entries && |entries| >= cfg.capacity {
          ok, victim := EvictOldestIdle();
        }
        if ok {
          client := Lend(key, now);
        }
      }
      Extend(cfg, s, ClientCache.Acquire(key, now, victim));
    }

    /** The function handed out with a lease. Called again, it takes whatever reference is there, and the
        cache may no longer be in a state that proper use leads to. */
    method Release(ghost i: nat, key: nat, now: int)
      requires Valid() && i < |leases| && leases[i].key == key
      modifies `entries, `leases
      ensures View() == Released(old(View()), i, now)
      ensures entries == if key !in old(entries) then old(entries)
                         else old(entries)[key := Entry(old(entries)[key].client, old(entries)[key].refs - 1, now)]
      ensures old(leases[i].held) ==> Valid()
      ensures !old(leases[i].held) && key in old(entries) ==> !Valid()
    {
      ReleaseSays(View(), i, now, key);
      if leases[i].held {
        Extend(cfg, View(), ClientCache.Release(i, now));
      } else if key in entries {
        SecondReleaseLeaves(cfg, View(), i, now);
      }
      leases := leases[i := leases[i].(held := false)];
      if key in entries {
        entries := entries[key := Entry(entries[key].client, entries[key].refs - 1, now)];
      }
    }

    /** Every cached client is closed once, leased or not; a second call does nothing. */
    method Close()
      requires Valid()
      modifies `entries, `shut, `closed
      ensures Valid() && View() == Closed(old(View())) && closed
      ensures !old(closed) ==> entries == map[] && forall k :: k in old(entries) ==> old(entries)[k].client in shut
    {
      ghost var s := View();
      Extend(cfg, s, ClientCache.Close);
      if !closed {
        BooksHold(cfg, s);
        EvictAll();
        closed := true;
      }
    }

    /** The loop of close. */
    method EvictAll()
      requires Books(View())
      modifies `entries, `shut
      ensures View() == Without(old(View()), old(entries.Keys))
    {
      ghost var s := View();
      ghost var gone: set<nat> := {};
      WithoutNone(s);
      while entries != map[]
        invariant gone <= s.entries.Keys && View() == Without(s, gone)
        decreases entries.Keys
      {
        var key :| key in entries;
        WithoutMore(s, gone, key);
        Evict(key);
        gone := gone + {key};
      }
      NothingLeft(s, gone);
    }
  }
}
