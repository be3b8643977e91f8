/** The preference cache: least recently used entries go first, and entries expire.

    A load looks the cache up, awaits the database when it misses, and stores what it read; other
    loads, invalidations and writes to the database may come in between. */
module SettingsCache {
  import opened Basics

  // A user's public id; only its identity matters.
  type User = int

  // A stored preference row; a user without one is cached as absent.
  datatype Row = Row(version: int, values: map<string, string>)

  datatype Entry = Entry(stored: real, snapshot: Option<Row>)

  // An ordered dictionary: its entries and the order of their keys.
  datatype Cache = Cache(order: seq<User>, entries: map<User, Entry>) {
    ghost predicate Valid() {
      Distinct(order) && forall u :: u in order <==> u in entries
    }
  }

  ghost predicate Distinct(order: seq<User>) {
    forall i, j | 0 <= i < j < |order| :: order[i] != order[j]
  }

  function Without(order: seq<User>, u: User): seq<User> {
    if order == [] then [] else (if order[0] == u then [] else [order[0]]) + Without(order[1..], u)
  }

  function Fresh(c: Cache, u: User, now: real, ttl: real): bool {
    u in c.entries && now - c.entries[u].stored < ttl
  }

  function MovedToEnd(c: Cache, u: User): Cache {
    c.(order := Without(c.order, u) + [u])
  }

  function WithEntry(c: Cache, u: User, e: Entry): Cache {
    Cache(Without(c.order, u) + [u], c.entries[u := e])
  }

  // The oldest entry goes.
  function EvictedFirst(c: Cache): Cache
    requires c.order != []
  {
    Cache(c.order[1..], c.entries - {c.order[0]})
  }

  function Evicted(c: Cache, maxEntries: nat): Cache
    decreases |c.order|
  {
    if |c.order| <= maxEntries then c else Evicted(EvictedFirst(c), maxEntries)
  }

  function Stored(c: Cache, u: User, now: real, snapshot: Option<Row>, maxEntries: nat): Cache {
    Evicted(WithEntry(c, u, Entry(now, snapshot)), maxEntries)
  }

  function Invalidated(c: Cache, u: User): Cache {
    Cache(Without(c.order, u), c.entries - {u})
  }

  lemma {:induction false} WithoutMembers(order: seq<User>, u: User, v: User)
    ensures v in Without(order, u) <==> v in order && v != u
  {
    if order != [] {
      WithoutMembers(order[1..], u, v);
    }
  }

  lemma {:induction false} WithoutDistinct(order: seq<User>, u: User)
    requires Distinct(order)
    ensures Distinct(Without(order, u)) && u !in Without(order, u)
  {
    if order != [] {
      WithoutDistinct(order[1..], u);
      WithoutMembers(order[1..], u, order[0]);
      WithoutMembers(order[1..], u, u);
    }
  }

  lemma WithEntryValid(c: Cache, u: User, e: Entry)
    requires c.Valid()
    ensures WithEntry(c, u, e).Valid()
  {
    WithoutDistinct(c.order, u);
    forall v ensures v in WithEntry(c, u, e).order <==> v in c.entries[u := e] {
      WithoutMembers(c.order, u, v);
    }
  }

  lemma InvalidatedValid(c: Cache, u: User)
    requires c.Valid()
    ensures Invalidated(c, u).Valid()
  {
    WithoutDistinct(c.order, u);
    forall v ensures v in Invalidated(c, u).order <==> v in c.entries - {u} {
      WithoutMembers(c.order, u, v);
    }
  }

  lemma EvictedFirstValid(c: Cache)
    requires c.Valid() && c.order != []
    ensures EvictedFirst(c).Valid()
  {
    forall v ensures v in c.order[1..] <==> v in c.entries - {c.order[0]} {
      assert v in c.order <==> v == c.order[0] || v in c.order[1..];
    }
  }

  // Eviction leaves the most recent entries, unchanged.
  lemma {:induction false} EvictedOrder(c: Cache, maxEntries: nat)
    ensures var r := Evicted(c, maxEntries);
            && |r.order| == (if |c.order| <= maxEntries then |c.order| else maxEntries)
            && r.order == c.order[|c.order| - |r.order|..]
    decreases |c.order|
  {
    if |c.order| > maxEntries {
      EvictedOrder(EvictedFirst(c), maxEntries);
      assert c.order[1..][|c.order| - 1 - maxEntries..] == c.order[|c.order| - maxEntries..];
    }
  }

  lemma {:induction false} EvictedEntries(c: Cache, maxEntries: nat)
    requires c.Valid()
    ensures var r := Evicted(c, maxEntries);
            r.Valid() && forall v | v in r.entries :: v in c.entries && r.entries[v] == c.entries[v]
    decreases |c.order|
  {
    if |c.order| > maxEntries {
      EvictedFirstValid(c);
      EvictedEntries(EvictedFirst(c), maxEntries);
    }
  }

  // --- The resolver's cache in its own form ---

  class UserSettingsResolver {
    const maxEntries: nat
    const ttl: real
    var order: seq<User>
    var entries: map<User, Entry>

    constructor (maxEntries: nat, ttl: real)
      ensures this.maxEntries == maxEntries && this.ttl == ttl && Value() == Cache([], map[])
    {
      this.maxEntries, this.ttl := maxEntries, ttl;
      order, entries := [], map[];
    }

    function Value(): Cache
      reads this
    {
      Cache(order, entries)
    }

    // The part of a load before its database await.
    method LookUp(u: User, now: real) returns (hit: bool, snapshot: Option<Row>)
      requires Value().Valid()
      modifies this`order
      ensures hit == Fresh(old(Value()), u, now, ttl)
      ensures hit ==> Value() == MovedToEnd(old(Value()), u) && snapshot == entries[u].snapshot
      ensures !hit ==> Value() == old(Value())
      ensures Value().Valid()
    {
      if u in entries && now - entries[u].stored < ttl {
        WithEntryValid(Value(), u, entries[u]);
        assert entries[u := entries[u]] == entries;
        order := Without(order, u) + [u];
        return true, entries[u].snapshot;
      }
      return false, None;
    }

    // The part after it: store, and evict from the front.
    method Store(u: User, now: real, snapshot: Option<Row>)
      requires Value().Valid()
      modifies this`order, this`entries
      ensures Value() == Stored(old(Value()), u, now, snapshot, maxEntries) && Value().Valid()
      ensures |order| <= maxEntries
    {
      WithEntryValid(Value(), u, Entry(now, snapshot));
      entries := entries[u := Entry(now, snapshot)];
      order := Without(order, u) + [u];
      ghost var full := Value();
      while |order| > maxEntries
        invariant Value().Valid() && Evicted(Value(), maxEntries) == Evicted(full, maxEntries)
        decreases |order|
      {
        EvictedFirstValid(Value());
        entries := entries - {order[0]};
        order := order[1..];
      }
      EvictedOrder(full, maxEntries);
    }

    method Invalidate(u: User)
      requires Value().Valid()
      modifies this`order, this`entries
      ensures Value() == Invalidated(old(Value()), u) && Value().Valid()
    {
      InvalidatedValid(Value(), u);
      order := Without(order, u);
      entries := entries - {u};
    }
  }

  /** Storing an entry puts it last and replaces the user's old one; of all others the latest stay, as
      they were and in their order, as many as fit. */
  lemma {:induction false} StoredMeans(c: Cache, u: User, now: real, snapshot: Option<Row>, maxEntries: nat)
    requires c.Valid()
    ensures var full, r := Without(c.order, u) + [u], Stored(c, u, now, snapshot, maxEntries);
            && r.Valid() && |r.order| == (if |full| <= maxEntries then |full| else maxEntries)
            && r.order == full[|full| - |r.order|..]
            && (u in r.entries ==> r.entries[u] == Entry(now, snapshot))
            && forall v | v in r.entries && v != u :: v in c.entries && r.entries[v] == c.entries[v]
    ensures maxEntries >= 1 ==> u in Stored(c, u, now, snapshot, maxEntries).entries
  {
    var full := WithEntry(c, u, Entry(now, snapshot));
    WithEntryValid(c, u, Entry(now, snapshot));
    EvictedOrder(full, maxEntries);
    EvictedEntries(full, maxEntries);
    if maxEntries >= 1 {
      var r := Evicted(full, maxEntries);
      assert r.order[|r.order| - 1] == u;
    }
  }

  // --- Loads, invalidations and database writes interleaved ---

  datatype Load =
    | Waiting(user: User)
    | Querying(user: User, start: real)                          // missed, awaiting the database
    | Resuming(user: User, start: real, snapshot: Option<Row>)   // the database has answered
    | Returned(user: User, start: real, snapshot: Option<Row>)

  datatype State = State(now: real, db: map<User, Row>, cache: Cache, loads: seq<Load>, touches: seq<User>)

  datatype Step =
    | Begin(i: nat) | Answer(i: nat) | Resume(i: nat)
    | Invalidate(user: User) | Write(user: User, row: Row) | Delete(user: User) | Tick(delta: real)

  datatype Settings = Settings(maxEntries: nat, ttl: real)

  function RowOf(s: State, u: User): Option<Row> {
    if u in s.db then Some(s.db[u]) else None
  }

  function Apply(s: State, step: Step, c: Settings): State {
    match step
    case Begin(i) =>
      if i >= |s.loads| || !s.loads[i].Waiting? then s
      else
        var u := s.loads[i].user;
        if Fresh(s.cache, u, s.now, c.ttl)
        then s.(cache := MovedToEnd(s.cache, u), touches := s.touches + [u],
                loads := s.loads[i := Returned(u, s.now, s.cache.entries[u].snapshot)])
        else s.(loads := s.loads[i := Querying(u, s.now)])
    case Answer(i) =>
      if i >= |s.loads| || !s.loads[i].Querying? then s
      else s.(loads := s.loads[i := Resuming(s.loads[i].user, s.loads[i].start, RowOf(s, s.loads[i].user))])
    case Resume(i) =>
      if i >= |s.loads| || !s.loads[i].Resuming? then s
      else
        var Resuming(u, start, snapshot) := s.loads[i];
        s.(cache := Stored(s.cache, u, start, snapshot, c.maxEntries), touches := s.touches + [u],
           loads := s.loads[i := Returned(u, start, snapshot)])
    case Invalidate(u) => s.(cache := Invalidated(s.cache, u))
    case Write(u, row) => s.(db := s.db[u := row])
    case Delete(u) => s.(db := s.db - {u})
    case Tick(d) => if d <= 0.0 then s else s.(now := s.now + d)
  }

  function After(s: State, steps: seq<Step>, c: Settings): State {
    if steps == [] then s else Apply(After(s, steps[..|steps| - 1], c), steps[|steps| - 1], c)
  }

  ghost predicate Initial(s: State) {
    && s.cache == Cache([], map[]) && s.touches == []
    && forall i | 0 <= i < |s.loads| :: s.loads[i].Waiting?
  }

  // The k-th state of a run.
  function Nth(s: State, steps: seq<Step>, k: nat, c: Settings): State
    requires k <= |steps|
  {
    After(s, steps[..k], c)
  }

  // The snapshot was the user's row in some state of the run, from the k-th on, whose clock showed
  // at least `since`.
  ghost predicate WasRow(s0: State, steps: seq<Step>, from: nat, u: User, snapshot: Option<Row>, since: real, c: Settings) {
    exists k :: from <= k <= |steps| && Nth(s0, steps, k, c).now >= since && RowOf(Nth(s0, steps, k, c), u) == snapshot
  }

  lemma WasRowLater(s0: State, steps: seq<Step>, step: Step, from: nat, u: User, snapshot: Option<Row>, since: real, c: Settings)
    requires WasRow(s0, steps, from, u, snapshot, since, c)
    ensures WasRow(s0, steps + [step], from, u, snapshot, since, c)
  {
    var k :| from <= k <= |steps| && Nth(s0, steps, k, c).now >= since && RowOf(Nth(s0, steps, k, c), u) == snapshot;
    assert (steps + [step])[..k] == steps[..k];
    assert Nth(s0, steps + [step], k, c) == Nth(s0, steps, k, c);
  }

  lemma IsRowNow(s0: State, steps: seq<Step>, from: nat, u: User, since: real, c: Settings)
    requires from <= |steps| && After(s0, steps, c).now >= since
    ensures WasRow(s0, steps, from, u, RowOf(After(s0, steps, c), u), since, c)
  {
    assert steps[..|steps|] == steps;
    assert Nth(s0, steps, |steps|, c) == After(s0, steps, c);
  }

  // --- Size and order ---

  function LastTouch(touches: seq<User>, u: User): int {
    if touches == [] then -1
    else if touches[|touches| - 1] == u then |touches| - 1
    else LastTouch(touches[..|touches| - 1], u)
  }

  ghost predicate InTouchOrder(order: seq<User>, touches: seq<User>) {
    && (forall i | 0 <= i < |order| :: LastTouch(touches, order[i]) >= 0)
    && forall i, j | 0 <= i < j < |order| :: LastTouch(touches, order[i]) < LastTouch(touches, order[j])
  }

  ghost predicate Orderly(s: State, c: Settings) {
    s.cache.Valid() && |s.cache.order| <= c.maxEntries && InTouchOrder(s.cache.order, s.touches)
  }

  lemma {:induction false} WithoutInOrder(order: seq<User>, touches: seq<User>, u: User)
    requires InTouchOrder(order, touches)
    ensures InTouchOrder(Without(order, u), touches)
  {
    if order != [] {
      var rest := Without(order[1..], u);
      WithoutInOrder(order[1..], touches, u);
      forall j | 0 <= j < |rest| ensures LastTouch(touches, order[0]) < LastTouch(touches, rest[j]) {
        WithoutMembers(order[1..], u, rest[j]);
        FirstIsOldest(order, touches, rest[j]);
      }
      PrependInOrder(order[0], rest, touches);
    }
  }

  lemma FirstIsOldest(order: seq<User>, touches: seq<User>, v: User)
    requires order != [] && InTouchOrder(order, touches) && v in order[1..]
    ensures LastTouch(touches, order[0]) < LastTouch(touches, v)
  {
    var k :| 0 <= k < |order[1..]| && order[1..][k] == v;
    assert order[k + 1] == v;
  }

  lemma PrependInOrder(u: User, rest: seq<User>, touches: seq<User>)
    requires InTouchOrder(rest, touches) && LastTouch(touches, u) >= 0
    requires forall j | 0 <= j < |rest| :: LastTouch(touches, u) < LastTouch(touches, rest[j])
    ensures InTouchOrder([u] + rest, touches)
  {
  }

  lemma {:induction false} WithoutSize(order: seq<User>, u: User)
    requires Distinct(order)
    ensures |Without(order, u)| == |order| - if u in order then 1 else 0
  {
    if order != [] {
      WithoutSize(order[1..], u);
    }
  }

  lemma LastTouchMore(touches: seq<User>, u: User, v: User)
    ensures LastTouch(touches + [u], v) == if v == u then |touches| else LastTouch(touches, v)
  {
    assert (touches + [u])[..|touches|] == touches;
  }

  lemma {:induction false} LastTouchBound(touches: seq<User>, u: User)
    ensures LastTouch(touches, u) < |touches|
  {
    if touches != [] {
      LastTouchBound(touches[..|touches| - 1], u);
    }
  }

  // Touching a user puts it last in the order of last touch.
  lemma TouchedInOrder(order: seq<User>, touches: seq<User>, u: User)
    requires InTouchOrder(order, touches)
    ensures InTouchOrder(Without(order, u) + [u], touches + [u])
  {
    var rest := Without(order, u);
    WithoutInOrder(order, touches, u);
    forall i | 0 <= i < |rest| ensures 0 <= LastTouch(touches + [u], rest[i]) == LastTouch(touches, rest[i]) < |touches| {
      WithoutMembers(order, u, rest[i]);
      LastTouchMore(touches, u, rest[i]);
      LastTouchBound(touches, rest[i]);
    }
    LastTouchMore(touches, u, u);
  }

  lemma SuffixInOrder(order: seq<User>, touches: seq<User>, k: nat)
    requires InTouchOrder(order, touches) && k <= |order|
    ensures InTouchOrder(order[k..], touches)
  {
  }

  lemma OrderlyKept(s: State, step: Step, c: Settings)
    requires Orderly(s, c)
    ensures Orderly(Apply(s, step, c), c)
  {
    match step
    case Begin(i) =>
      if i < |s.loads| && s.loads[i].Waiting? && Fresh(s.cache, s.loads[i].user, s.now, c.ttl) {
        var u := s.loads[i].user;
        TouchedInOrder(s.cache.order, s.touches, u);
        WithEntryValid(s.cache, u, s.cache.entries[u]);
        assert s.cache.entries[u := s.cache.entries[u]] == s.cache.entries;
        WithoutSize(s.cache.order, u);
      }
    case Resume(i) =>
      if i < |s.loads| && s.loads[i].Resuming? {
        var u, e := s.loads[i].user, Entry(s.loads[i].start, s.loads[i].snapshot);
        TouchedInOrder(s.cache.order, s.touches, u);
        WithEntryValid(s.cache, u, e);
        var full := WithEntry(s.cache, u, e);
        EvictedOrder(full, c.maxEntries);
        EvictedEntries(full, c.maxEntries);
        SuffixInOrder(full.order, s.touches + [u], |full.order| - |Evicted(full, c.maxEntries).order|);
      }
    case Invalidate(u) =>
      InvalidatedValid(s.cache, u);
      WithoutInOrder(s.cache.order, s.touches, u);
      WithoutSize(s.cache.order, u);
    case _ =>
  }

  /** After every step of every run the cache holds at most `maxEntries` entries, in order of last touch. */
  lemma {:induction false} CacheIsOrderly(s0: State, steps: seq<Step>, c: Settings)
    requires Initial(s0)
    ensures Orderly(After(s0, steps, c), c)
  {
    if steps != [] {
      CacheIsOrderly(s0, steps[..|steps| - 1], c);
      OrderlyKept(After(s0, steps[..|steps| - 1], c), steps[|steps| - 1], c);
    }
  }

  // --- Freshness ---

  // The row of some moment since the load started, or less than the time to live before that.
  ghost predicate WasRecentRow(s0: State, steps: seq<Step>, from: nat, u: User, snapshot: Option<Row>, start: real, c: Settings) {
    exists since :: (since >= start || since > start - c.ttl) && WasRow(s0, steps, from, u, snapshot, since, c)
  }

  ghost predicate LoadSourced(s0: State, steps: seq<Step>, from: nat, load: Load, c: Settings) {
    match load
    case Resuming(u, start, snapshot) => WasRow(s0, steps, from, u, snapshot, start, c)
    case Returned(u, start, snapshot) => WasRecentRow(s0, steps, from, u, snapshot, start, c)
    case Querying(u, start) => start <= After(s0, steps, c).now
    case Waiting(u) => true
  }

  ghost predicate EntrySourced(s0: State, steps: seq<Step>, from: nat, u: User, c: Settings) {
    var cache := After(s0, steps, c).cache;
    u in cache.entries ==> WasRow(s0, steps, from, u, cache.entries[u].snapshot, cache.entries[u].stored, c)
  }

  // Every value held for a user, save by the exempt loads, was its row in a state from `from` on.
  ghost predicate Sourced(s0: State, steps: seq<Step>, from: nat, u: User, exempt: set<nat>, c: Settings) {
    var s := After(s0, steps, c);
    && s.cache.Valid()
    && EntrySourced(s0, steps, from, u, c)
    && forall i: nat | i < |s.loads| && i !in exempt && s.loads[i].user == u :: LoadSourced(s0, steps, from, s.loads[i], c)
  }

  lemma AfterMore(s0: State, steps: seq<Step>, step: Step, c: Settings)
    ensures After(s0, steps + [step], c) == Apply(After(s0, steps, c), step, c)
  {
    assert (steps + [step])[..|steps|] == steps;
  }

  // A load the step does not concern stays sourced.
  lemma LoadStaysSourced(s0: State, steps: seq<Step>, step: Step, from: nat, load: Load, c: Settings)
    requires LoadSourced(s0, steps, from, load, c)
    ensures LoadSourced(s0, steps + [step], from, load, c)
  {
    AfterMore(s0, steps, step, c);
    match load
    case Resuming(u, start, snapshot) => WasRowLater(s0, steps, step, from, u, snapshot, start, c);
    case Returned(u, start, snapshot) =>
      var since :| (since >= start || since > start - c.ttl) && WasRow(s0, steps, from, u, snapshot, since, c);
      WasRowLater(s0, steps, step, from, u, snapshot, since, c);
    case _ =>
  }

  // The load a step moves on is sourced by what it is given.
  lemma MovedLoadIsSourced(s0: State, steps: seq<Step>, step: Step, from: nat, u: User, i: nat, c: Settings)
    requires from <= |steps| && EntrySourced(s0, steps, from, u, c)
    requires var s := After(s0, steps, c);
             i < |s.loads| && s.loads[i].user == u && LoadSourced(s0, steps, from, s.loads[i], c)
    requires step in {Begin(i), Answer(i), Resume(i)}
    ensures LoadSourced(s0, steps + [step], from, After(s0, steps + [step], c).loads[i], c)
  {
    var s := After(s0, steps, c);
    var load := s.loads[i];
    AfterMore(s0, steps, step, c);
    if step == Begin(i) && load.Waiting? && Fresh(s.cache, u, s.now, c.ttl) {
      var e := s.cache.entries[u];
      WasRowLater(s0, steps, step, from, u, e.snapshot, e.stored, c);
      assert e.stored > s.now - c.ttl;
    } else if step == Answer(i) && load.Querying? {
      IsRowNow(s0, steps, from, u, load.start, c);
      WasRowLater(s0, steps, step, from, u, RowOf(s, u), load.start, c);
    } else if step == Resume(i) && load.Resuming? {
      WasRowLater(s0, steps, step, from, u, load.snapshot, load.start, c);
    } else {
      LoadStaysSourced(s0, steps, step, from, load, c);
    }
  }

  lemma EntryStaysSourced(s0: State, steps: seq<Step>, step: Step, from: nat, u: User, exempt: set<nat>, c: Settings)
    requires from <= |steps| && Sourced(s0, steps, from, u, exempt, c) && AllReturned(After(s0, steps, c), exempt)
    ensures EntrySourced(s0, steps + [step], from, u, c)
  {
    var s := After(s0, steps, c);
    AfterMore(s0, steps, step, c);
    if u in s.cache.entries {
      WasRowLater(s0, steps, step, from, u, s.cache.entries[u].snapshot, s.cache.entries[u].stored, c);
    }
    if step.Resume? && step.i < |s.loads| && s.loads[step.i].Resuming? {
      var load := s.loads[step.i];
      WithEntryValid(s.cache, load.user, Entry(load.start, load.snapshot));
      EvictedEntries(WithEntry(s.cache, load.user, Entry(load.start, load.snapshot)), c.maxEntries);
      if load.user == u {
        assert LoadSourced(s0, steps, from, load, c);
        WasRowLater(s0, steps, step, from, u, load.snapshot, load.start, c);
      }
    }
  }

  ghost predicate AllReturned(s: State, exempt: set<nat>) {
    forall i | i in exempt && i < |s.loads| :: s.loads[i].Returned?
  }

  lemma SourcedKept(s0: State, steps: seq<Step>, step: Step, from: nat, u: User, exempt: set<nat>, c: Settings)
    requires from <= |steps| && Sourced(s0, steps, from, u, exempt, c) && AllReturned(After(s0, steps, c), exempt)
    ensures Sourced(s0, steps + [step], from, u, exempt, c) && AllReturned(After(s0, steps + [step], c), exempt)
  {
    var s, t := After(s0, steps, c), After(s0, steps + [step], c);
    AfterMore(s0, steps, step, c);
    EntryStaysSourced(s0, steps, step, from, u, exempt, c);
    CacheStaysValid(s, step, c);
    forall i: nat | i < |t.loads| && i !in exempt && t.loads[i].user == u ensures LoadSourced(s0, steps + [step], from, t.loads[i], c) {
      if step in {Begin(i), Answer(i), Resume(i)} {
        MovedLoadIsSourced(s0, steps, step, from, u, i, c);
      } else {
        LoadStaysSourced(s0, steps, step, from, s.loads[i], c);
      }
    }
  }

  lemma CacheStaysValid(s: State, step: Step, c: Settings)
    requires s.cache.Valid()
    ensures Apply(s, step, c).cache.Valid()
  {
    match step
    case Begin(i) =>
      if i < |s.loads| && s.loads[i].Waiting? && Fresh(s.cache, s.loads[i].user, s.now, c.ttl) {
        var u := s.loads[i].user;
        WithEntryValid(s.cache, u, s.cache.entries[u]);
        assert s.cache.entries[u := s.cache.entries[u]] == s.cache.entries;
      }
    case Resume(i) =>
      if i < |s.loads| && s.loads[i].Resuming? {
        WithEntryValid(s.cache, s.loads[i].user, Entry(s.loads[i].start, s.loads[i].snapshot));
        EvictedEntries(WithEntry(s.cache, s.loads[i].user, Entry(s.loads[i].start, s.loads[i].snapshot)), c.maxEntries);
      }
    case Invalidate(u) => InvalidatedValid(s.cache, u);
    case _ =>
  }

  lemma {:induction false} SourcedAlways(s0: State, steps: seq<Step>, more: seq<Step>, from: nat, u: User, exempt: set<nat>, c: Settings)
    requires from <= |steps| && Sourced(s0, steps, from, u, exempt, c) && AllReturned(After(s0, steps, c), exempt)
    ensures Sourced(s0, steps + more, from, u, exempt, c) && AllReturned(After(s0, steps + more, c), exempt)
  {
    if more == [] {
      assert steps + more == steps;
    } else {
      var n := |more| - 1;
      SourcedAlways(s0, steps, more[..n], from, u, exempt, c);
      SourcedKept(s0, steps + more[..n], more[n], from, u, exempt, c);
      assert steps + more[..n] + [more[n]] == steps + more;
    }
  }

  /** In every interleaving, a snapshot a load returned was the user's row at some moment since the
      load started, or less than the time to live before that. */
  lemma ReturnedIsRecent(s0: State, steps: seq<Step>, i: nat, c: Settings)
    requires Initial(s0) && i < |After(s0, steps, c).loads| && After(s0, steps, c).loads[i].Returned?
    ensures var load := After(s0, steps, c).loads[i];
            WasRecentRow(s0, steps, 0, load.user, load.snapshot, load.start, c)
  {
    var u := After(s0, steps, c).loads[i].user;
    assert Sourced(s0, [], 0, u, {}, c);
    SourcedAlways(s0, [], steps, 0, u, {}, c);
    assert [] + steps == steps;
  }

  /** What a load has stored, another one of the same user is given without asking the database, if and
      only if it begins less than the time to live after the first one began. */
  lemma {:induction false} CacheServes(s: State, i: nat, j: nat, delay: real, c: Settings)
    requires s.cache.Valid() && c.maxEntries >= 1 && delay > 0.0
    requires i < |s.loads| && s.loads[i].Resuming? && j < |s.loads| && s.loads[j].Waiting? && s.loads[i].user == s.loads[j].user
    ensures var t := Apply(Apply(Apply(s, Resume(i), c), Tick(delay), c), Begin(j), c);
            && t.loads[i] == Returned(s.loads[i].user, s.loads[i].start, s.loads[i].snapshot)
            && (if s.now + delay - s.loads[i].start < c.ttl
                then t.loads[j] == Returned(s.loads[i].user, s.now + delay, s.loads[i].snapshot)
                else t.loads[j] == Querying(s.loads[i].user, s.now + delay))
  {
    StoredMeans(s.cache, s.loads[i].user, s.loads[i].start, s.loads[i].snapshot, c.maxEntries);
  }

  // If load i was pending when u was invalidated and has returned after `more`, its snapshot is no
  // older than the invalidation.
  ghost predicate NotOlder(s0: State, before: seq<Step>, u: User, more: seq<Step>, i: nat, c: Settings) {
    var s, all := After(s0, before, c), before + [Invalidate(u)] + more;
    var t := After(s0, all, c);
    i < |s.loads| && s.loads[i].user == u && !s.loads[i].Returned? && i < |t.loads| && t.loads[i].Returned?
    ==> WasRecentRow(s0, all, |before| + 1, u, t.loads[i].snapshot, t.loads[i].start, c)
  }

  // Every answer of the database still on its way to a load of u is u's present row.
  ghost predicate AnswersAreCurrent(s: State, u: User) {
    forall k | 0 <= k < |s.loads| && s.loads[k].Resuming? && s.loads[k].user == u :: s.loads[k].snapshot == RowOf(s, u)
  }

  /** Invalidating a user works, in whatever way the run goes on, if and only if every answer on its
      way to one of the user's loads is the present row. */
  lemma FreshAfterInvalidation(s0: State, before: seq<Step>, u: User, c: Settings)
    requires Initial(s0)
    ensures (forall more, i :: NotOlder(s0, before, u, more, i, c)) <==> AnswersAreCurrent(After(s0, before, c), u)
  {
    var s := After(s0, before, c);
    if AnswersAreCurrent(s, u) {
      forall more, i ensures NotOlder(s0, before, u, more, i, c) {
        CurrentStaysFresh(s0, before, u, more, i, c);
      }
    } else {
      var k: nat :| k < |s.loads| && s.loads[k].Resuming? && s.loads[k].user == u && s.loads[k].snapshot != RowOf(s, u);
      StaleAnswerReturned(s0, before, u, k, c);
    }
  }

  lemma CurrentStaysFresh(s0: State, before: seq<Step>, u: User, more: seq<Step>, i: nat, c: Settings)
    requires Initial(s0) && AnswersAreCurrent(After(s0, before, c), u)
    ensures NotOlder(s0, before, u, more, i, c)
  {
    LoadsKept(s0, before, [Invalidate(u)] + more, c);
    assert before + ([Invalidate(u)] + more) == before + [Invalidate(u)] + more;
    var s, steps := After(s0, before, c), before + [Invalidate(u)];
    var exempt := set k: nat | k < |s.loads| && s.loads[k].Returned?;
    AfterMore(s0, before, Invalidate(u), c);
    CacheIsOrderly(s0, steps, c);
    AlwaysStarted(s0, before, c);
    SourcedAfterInvalidation(s0, before, u, exempt, c);
    SourcedAlways(s0, steps, more, |steps|, u, exempt, c);
  }

  lemma SourcedAfterInvalidation(s0: State, before: seq<Step>, u: User, exempt: set<nat>, c: Settings)
    requires var s := After(s0, before, c);
             && AnswersAreCurrent(s, u) && Started(s) && exempt == set k: nat | k < |s.loads| && s.loads[k].Returned?
    requires After(s0, before + [Invalidate(u)], c).cache.Valid()
    ensures Sourced(s0, before + [Invalidate(u)], |before| + 1, u, exempt, c)
    ensures AllReturned(After(s0, before + [Invalidate(u)], c), exempt)
  {
    var steps := before + [Invalidate(u)];
    AfterMore(s0, before, Invalidate(u), c);
    var t := After(s0, steps, c);
    forall i: nat | i < |t.loads| && i !in exempt && t.loads[i].user == u ensures LoadSourced(s0, steps, |steps|, t.loads[i], c) {
      if t.loads[i].Resuming? {
        IsRowNow(s0, steps, |steps|, u, t.loads[i].start, c);
      }
    }
  }

  // Resuming at once brings the old row back.
  lemma StaleAnswerReturned(s0: State, before: seq<Step>, u: User, k: nat, c: Settings)
    requires var s := After(s0, before, c);
             k < |s.loads| && s.loads[k].Resuming? && s.loads[k].user == u && s.loads[k].snapshot != RowOf(s, u)
    ensures !NotOlder(s0, before, u, [Resume(k)], k, c)
  {
    var s, steps := After(s0, before, c), before + [Invalidate(u)];
    var all := steps + [Resume(k)];
    AfterMore(s0, before, Invalidate(u), c);
    AfterMore(s0, steps, Resume(k), c);
    forall m | |before| + 1 <= m <= |all| ensures RowOf(Nth(s0, all, m, c), u) == RowOf(s, u) {
      if m == |all| { assert all[..m] == all; } else { assert all[..m] == steps; }
    }
  }

  // A pending load's start never lies in the future.
  ghost predicate Started(s: State) {
    forall i | 0 <= i < |s.loads| && (s.loads[i].Querying? || s.loads[i].Resuming?) :: s.loads[i].start <= s.now
  }

  lemma StartedKept(s: State, step: Step, c: Settings)
    requires Started(s)
    ensures Started(Apply(s, step, c))
  {
  }

  lemma {:induction false} AlwaysStarted(s0: State, steps: seq<Step>, c: Settings)
    requires Initial(s0)
    ensures Started(After(s0, steps, c))
  {
    if steps != [] {
      AlwaysStarted(s0, steps[..|steps| - 1], c);
      StartedKept(After(s0, steps[..|steps| - 1], c), steps[|steps| - 1], c);
    }
  }

  // --- The age of a snapshot when its load returns ---

  // The snapshot was the user's row less than the time to live before the present moment.
  ghost predicate WithinTtl(s0: State, steps: seq<Step>, u: User, snapshot: Option<Row>, c: Settings) {
    exists since :: since > After(s0, steps, c).now - c.ttl && WasRow(s0, steps, 0, u, snapshot, since, c)
  }

  /** What comes out of the cache was the stored row less than the time to live before it is returned. */
  lemma HitIsWithinTtl(s0: State, steps: seq<Step>, i: nat, c: Settings)
    requires Initial(s0)
    requires var s := After(s0, steps, c);
             i < |s.loads| && s.loads[i].Waiting? && Fresh(s.cache, s.loads[i].user, s.now, c.ttl)
    ensures var t := After(s0, steps + [Begin(i)], c);
            t.loads[i].Returned? && WithinTtl(s0, steps + [Begin(i)], t.loads[i].user, t.loads[i].snapshot, c)
  {
    var s := After(s0, steps, c);
    var u := s.loads[i].user;
    assert Sourced(s0, [], 0, u, {}, c);
    SourcedAlways(s0, [], steps, 0, u, {}, c);
    assert [] + steps == steps;
    AfterMore(s0, steps, Begin(i), c);
    WasRowLater(s0, steps, Begin(i), 0, u, s.cache.entries[u].snapshot, s.cache.entries[u].stored, c);
    assert s.cache.entries[u].stored > s.now - c.ttl;
  }

  // If, `delay` after the database answered load i, the load is resumed, then the snapshot it returns
  // was the stored row less than the time to live before.
  ghost predicate ResumedWithinTtl(s0: State, steps: seq<Step>, i: nat, delay: real, more: seq<Step>, c: Settings) {
    var s, all := After(s0, steps + [Answer(i)], c), steps + [Answer(i)] + more + [Resume(i)];
    var waiting, t := After(s0, steps + [Answer(i)] + more, c), After(s0, all, c);
    i < |s.loads| && s.loads[i].Resuming? && i < |waiting.loads| && waiting.loads[i] == s.loads[i]
    && waiting.now == s.now + delay && i < |t.loads| && t.loads[i].Returned?
    ==> WithinTtl(s0, all, t.loads[i].user, t.loads[i].snapshot, c)
  }

  /** What comes from the database is that recent, whatever happens meanwhile, if and only if the load
      is resumed less than the time to live after the answer. */
  lemma AnswerIsWithinTtl(s0: State, steps: seq<Step>, i: nat, delay: real, c: Settings)
    requires delay >= 0.0
    requires var s := After(s0, steps, c); i < |s.loads| && s.loads[i].Querying?
    ensures (forall more :: ResumedWithinTtl(s0, steps, i, delay, more, c)) <==> delay < c.ttl
  {
    AfterMore(s0, steps, Answer(i), c);
    if delay < c.ttl {
      forall more ensures ResumedWithinTtl(s0, steps, i, delay, more, c) {
        ResumedSoon(s0, steps, i, delay, more, c);
      }
    } else {
      ResumedLate(s0, steps, i, delay, c);
    }
  }

  lemma ResumedSoon(s0: State, steps: seq<Step>, i: nat, delay: real, more: seq<Step>, c: Settings)
    requires 0.0 <= delay < c.ttl
    requires var s := After(s0, steps, c); i < |s.loads| && s.loads[i].Querying?
    ensures ResumedWithinTtl(s0, steps, i, delay, more, c)
  {
    var answered := steps + [Answer(i)];
    var s, u := After(s0, answered, c), After(s0, steps, c).loads[i].user;
    AfterMore(s0, steps, Answer(i), c);
    AfterMore(s0, answered + more, Resume(i), c);
    IsRowNow(s0, answered, 0, u, s.now, c);
    WasRowMuchLater(s0, answered, more, 0, u, RowOf(s, u), s.now, c);
    WasRowLater(s0, answered + more, Resume(i), 0, u, RowOf(s, u), s.now, c);
  }

  lemma {:induction false} WasRowMuchLater(s0: State, steps: seq<Step>, more: seq<Step>, from: nat, u: User, snapshot: Option<Row>, since: real, c: Settings)
    requires WasRow(s0, steps, from, u, snapshot, since, c)
    ensures WasRow(s0, steps + more, from, u, snapshot, since, c)
  {
    if more == [] {
      assert steps + more == steps;
    } else {
      var n := |more| - 1;
      WasRowMuchLater(s0, steps, more[..n], from, u, snapshot, since, c);
      WasRowLater(s0, steps + more[..n], more[n], from, u, snapshot, since, c);
      assert steps + more[..n] + [more[n]] == steps + more;
    }
  }

  lemma {:induction false} ClockOnlyAdvances(s0: State, steps: seq<Step>, k: nat, c: Settings)
    requires k <= |steps|
    ensures Nth(s0, steps, k, c).now <= After(s0, steps, c).now
  {
    if k == |steps| {
      assert steps[..k] == steps;
    } else {
      var n := |steps| - 1;
      ClockOnlyAdvances(s0, steps[..n], k, c);
      assert steps[..n][..k] == steps[..k];
    }
  }

  function OtherRow(row: Option<Row>): Row {
    match row case None => Row(0, map[]) case Some(r) => r.(version := r.version + 1)
  }

  lemma NthOfPrefix(s0: State, steps: seq<Step>, more: seq<Step>, k: nat, c: Settings)
    requires k <= |steps|
    ensures Nth(s0, steps + more, k, c) == Nth(s0, steps, k, c) && Nth(s0, steps, k, c).now <= After(s0, steps, c).now
    ensures Nth(s0, steps, |steps|, c) == After(s0, steps, c)
  {
    ClockOnlyAdvances(s0, steps, k, c);
    assert (steps + more)[..k] == steps[..k] && steps[..|steps|] == steps;
  }

  // A row written at once, a delay, and the load resumed.
  function RewrittenMeanwhile(u: User, row: Row, delay: real): seq<Step> {
    [Write(u, row), Tick(delay)]
  }

  // After a rewriting, every state with a later clock shows the new row.
  lemma LaterShowsNewRow(s0: State, steps: seq<Step>, u: User, row: Row, delay: real, i: nat, k: nat, c: Settings)
    requires k <= |steps| + 3
    ensures var all := steps + RewrittenMeanwhile(u, row, delay) + [Resume(i)];
            Nth(s0, all, k, c).now > After(s0, steps, c).now ==> RowOf(Nth(s0, all, k, c), u) == Some(row)
  {
    var written, ticked := steps + [Write(u, row)], steps + [Write(u, row)] + [Tick(delay)];
    var all := ticked + [Resume(i)];
    assert steps + RewrittenMeanwhile(u, row, delay) == ticked;
    AfterMore(s0, steps, Write(u, row), c);
    AfterMore(s0, written, Tick(delay), c);
    AfterMore(s0, ticked, Resume(i), c);
    if k <= |steps| {
      NthOfPrefix(s0, steps, RewrittenMeanwhile(u, row, delay) + [Resume(i)], k, c);
      assert all == steps + (RewrittenMeanwhile(u, row, delay) + [Resume(i)]);
    } else if k == |steps| + 1 {
      NthOfPrefix(s0, written, [Tick(delay)] + [Resume(i)], k, c);
      assert all == written + ([Tick(delay)] + [Resume(i)]);
    } else if k == |steps| + 2 {
      NthOfPrefix(s0, ticked, [Resume(i)], k, c);
    } else {
      NthOfPrefix(s0, all, [], k, c);
    }
  }

  lemma OnlyNewRowLater(s0: State, steps: seq<Step>, u: User, delay: real, i: nat, c: Settings)
    ensures var s := After(s0, steps, c);
            var all := steps + RewrittenMeanwhile(u, OtherRow(RowOf(s, u)), delay) + [Resume(i)];
            forall k | 0 <= k <= |all| && Nth(s0, all, k, c).now > s.now :: RowOf(Nth(s0, all, k, c), u) != RowOf(s, u)
  {
    var s := After(s0, steps, c);
    var all := steps + RewrittenMeanwhile(u, OtherRow(RowOf(s, u)), delay) + [Resume(i)];
    forall k | 0 <= k <= |all| && Nth(s0, all, k, c).now > s.now ensures RowOf(Nth(s0, all, k, c), u) != RowOf(s, u) {
      LaterShowsNewRow(s0, steps, u, OtherRow(RowOf(s, u)), delay, i, k, c);
    }
  }

  // The row is rewritten as soon as the database has answered, and the load resumes after the delay.
  lemma ResumedLate(s0: State, steps: seq<Step>, i: nat, delay: real, c: Settings)
    requires delay >= 0.0 && delay >= c.ttl
    requires var s := After(s0, steps, c); i < |s.loads| && s.loads[i].Querying?
    ensures exists more :: !ResumedWithinTtl(s0, steps, i, delay, more, c)
  {
    var answered := steps + [Answer(i)];
    AfterMore(s0, steps, Answer(i), c);
    var s, u := After(s0, answered, c), After(s0, steps, c).loads[i].user;
    var row := OtherRow(RowOf(s, u));
    var more := RewrittenMeanwhile(u, row, delay);
    var all := answered + more + [Resume(i)];
    OnlyNewRowLater(s0, answered, u, delay, i, c);
    Resumed(s0, answered, u, row, delay, i, c);
    NotWithinTtl(s0, all, u, RowOf(s, u), s.now, c);
    assert !ResumedWithinTtl(s0, steps, i, delay, more, c);
  }

  lemma Resumed(s0: State, steps: seq<Step>, u: User, row: Row, delay: real, i: nat, c: Settings)
    requires delay >= 0.0
    requires var s := After(s0, steps, c); i < |s.loads| && s.loads[i].Resuming?
    ensures var s := After(s0, steps, c);
            var w := After(s0, steps + RewrittenMeanwhile(u, row, delay), c);
            var t := After(s0, steps + RewrittenMeanwhile(u, row, delay) + [Resume(i)], c);
            && w.loads == s.loads && w.now == s.now + delay && t.now == w.now
            && |t.loads| == |s.loads| && t.loads[i] == Returned(s.loads[i].user, s.loads[i].start, s.loads[i].snapshot)
  {
    AfterRewriting(s0, steps, u, row, delay, c);
    AfterMore(s0, steps + RewrittenMeanwhile(u, row, delay), Resume(i), c);
    var s := After(s0, steps, c);
    ResumedFrom(Apply(Apply(s, Write(u, row), c), Tick(delay), c), i, c);
  }

  lemma AfterRewriting(s0: State, steps: seq<Step>, u: User, row: Row, delay: real, c: Settings)
    ensures After(s0, steps + RewrittenMeanwhile(u, row, delay), c)
            == Apply(Apply(After(s0, steps, c), Write(u, row), c), Tick(delay), c)
  {
    assert steps + RewrittenMeanwhile(u, row, delay) == steps + [Write(u, row)] + [Tick(delay)];
    AfterMore(s0, steps, Write(u, row), c);
    AfterMore(s0, steps + [Write(u, row)], Tick(delay), c);
  }

  lemma ResumedFrom(s: State, i: nat, c: Settings)
    requires i < |s.loads| && s.loads[i].Resuming?
    ensures var t := Apply(s, Resume(i), c);
            && t.now == s.now && |t.loads| == |s.loads|
            && t.loads[i] == Returned(s.loads[i].user, s.loads[i].start, s.loads[i].snapshot)
  {
  }

  lemma NotWithinTtl(s0: State, steps: seq<Step>, u: User, snapshot: Option<Row>, until: real, c: Settings)
    requires until <= After(s0, steps, c).now - c.ttl
    requires forall k | 0 <= k <= |steps| && Nth(s0, steps, k, c).now > until :: RowOf(Nth(s0, steps, k, c), u) != snapshot
    ensures !WithinTtl(s0, steps, u, snapshot, c)
  {
  }

  // Loads keep their places and users.
  ghost predicate SameLoads(s: State, t: State) {
    |s.loads| == |t.loads| && forall i | 0 <= i < |s.loads| :: s.loads[i].user == t.loads[i].user
  }

  lemma SameLoadsStep(s: State, t: State, step: Step, c: Settings)
    requires SameLoads(s, t)
    ensures SameLoads(s, Apply(t, step, c))
  {
  }

  lemma {:induction false} LoadsKept(s: State, steps: seq<Step>, more: seq<Step>, c: Settings)
    ensures SameLoads(After(s, steps, c), After(s, steps + more, c))
  {
    if more == [] {
      assert steps + more == steps;
    } else {
      var n := |more| - 1;
      LoadsKept(s, steps, more[..n], c);
      AfterMore(s, steps + more[..n], more[n], c);
      assert steps + more[..n] + [more[n]] == steps + more;
      SameLoadsStep(After(s, steps, c), After(s, steps + more[..n], c), more[n], c);
    }
  }

  /** An instance of the failing runs: an answer already on its way puts the old row back into the cache, and
      the next load returns it although the row was rewritten and invalidated before that load began. */
  lemma LateAnswerRevivesOldRow(u: User, row: Row, c: Settings)
    requires c.maxEntries >= 1 && c.ttl > 0.0
    ensures var s0 := State(0.0, map[], Cache([], map[]), [Waiting(u), Waiting(u)], []);
            var s := After(s0, [Begin(0), Answer(0), Write(u, row), Invalidate(u), Resume(0), Begin(1)], c);
            |s.loads| == 2 && s.loads[1] == Returned(u, 0.0, None) && RowOf(s, u) == Some(row)
  {
    var s0 := State(0.0, map[], Cache([], map[]), [Waiting(u), Waiting(u)], []);
    AfterSix(s0, Begin(0), Answer(0), Write(u, row), Invalidate(u), Resume(0), Begin(1), c);
    var s1 := s0.(loads := [Querying(u, 0.0), Waiting(u)]);
    assert Apply(s0, Begin(0), c) == s1;
    var s2 := s0.(loads := [Resuming(u, 0.0, None), Waiting(u)]);
    assert Apply(s1, Answer(0), c) == s2;
    var s3 := s2.(db := map[u := row]);
    assert Apply(s2, Write(u, row), c) == s3;
    assert Apply(s3, Invalidate(u), c) == s3;
    StoredAlone(u, c);
    var s5 := s3.(cache := Cache([u], map[u := Entry(0.0, None)]), touches := [u],
                  loads := [Returned(u, 0.0, None), Waiting(u)]);
    assert Apply(s3, Resume(0), c) == s5;
    assert Fresh(s5.cache, u, s5.now, c.ttl);
  }

  lemma StoredAlone(u: User, c: Settings)
    requires c.maxEntries >= 1
    ensures Stored(Cache([], map[]), u, 0.0, None, c.maxEntries) == Cache([u], map[u := Entry(0.0, None)])
  {
    assert Without([], u) + [u] == [u];
  }

  lemma AfterSix(s: State, s1: Step, s2: Step, s3: Step, s4: Step, s5: Step, s6: Step, c: Settings)
    ensures After(s, [s1, s2, s3, s4, s5, s6], c)
            == Apply(Apply(Apply(Apply(Apply(Apply(s, s1, c), s2, c), s3, c), s4, c), s5, c), s6, c)
  {
    AfterMore(s, [], s1, c);
    AfterMore(s, [s1], s2, c);
    AfterMore(s, [s1, s2], s3, c);
    AfterMore(s, [s1, s2, s3], s4, c);
    AfterMore(s, [s1, s2, s3, s4], s5, c);
    AfterMore(s, [s1, s2, s3, s4, s5], s6, c);
    assert [] + [s1] == [s1] && [s1] + [s2] == [s1, s2] && [s1, s2] + [s3] == [s1, s2, s3];
    assert [s1, s2, s3] + [s4] == [s1, s2, s3, s4] && [s1, s2, s3, s4] + [s5] == [s1, s2, s3, s4, s5];
    assert [s1, s2, s3, s4, s5] + [s6] == [s1, s2, s3, s4, s5, s6];
  }
}
