/** The SSH connection pool: a dictionary of entries under one lock, three counters, and a background
    monitor. Every locked method is one atomic step; the clock and the health of connections are
    arguments, so that runs quantify over all interleavings, clocks and failures. */
module ConnectionPool {
  import opened Wrappers

  type Key = string

  /** `ConnectionInfo`; `id` identifies the connection object. */
  datatype Entry = Entry(id: nat, createdAt: int, lastUsed: int, uses: nat, inUse: bool)

  datatype Limits = Limits(maxConnections: nat, maxIdle: int, maxAge: int)

  /** The manager's state. `displaced` and `retired` are not stored by the source: they count entries
      overwritten in the dictionary, and add up the use counts of all entries that left it. */
  datatype Pool = Pool(
    entries: map<Key, Entry>, created: nat, reused: nat, closed: nat,
    nextId: nat, displaced: nat, retired: int)

  type Health = nat -> bool

  // ----- The atomic operations -----

  function Age(e: Entry, now: int): int { now - e.createdAt }

  /** Not due for cleanup: healthy, not idle too long, not too old. */
  predicate IsFresh(e: Entry, lim: Limits, now: int, ok: Health) {
    ok(e.id) && now - e.lastUsed <= lim.maxIdle && Age(e, now) <= lim.maxAge
  }

  predicate IsStale(e: Entry, lim: Limits, now: int, ok: Health) {
    !e.inUse && !IsFresh(e, lim, now, ok)
  }

  function StaleKeys(p: Pool, lim: Limits, now: int, ok: Health): set<Key> {
    set k | k in p.entries && IsStale(p.entries[k], lim, now, ok)
  }

  ghost function Uses(es: map<Key, Entry>): nat {
    if es == map[] then 0
    else
      var k :| k in es;
      es[k].uses + Uses(es - {k})
  }

  /** Closing and removing the entries of `ks`. */
  ghost function CloseAll(p: Pool, ks: set<Key>): Pool
    requires ks <= p.entries.Keys
  {
    p.(entries := p.entries - ks, closed := p.closed + |ks|,
       retired := p.retired + Uses(p.entries) - Uses(p.entries - ks))
  }

  ghost function Cleanup(p: Pool, lim: Limits, now: int, ok: Health): Pool {
    CloseAll(p, StaleKeys(p, lim, now, ok))
  }

  ghost function Close(p: Pool, k: Key): Pool {
    if k in p.entries then CloseAll(p, {k}) else p
  }

  predicate Usable(e: Entry, lim: Limits, now: int, ok: Health) {
    ok(e.id) && Age(e, now) < lim.maxAge
  }

  /** The pool after a request found no entry to reuse, just before it connects. */
  ghost function BeforeConnect(p: Pool, k: Key, lim: Limits, now: int, ok: Health): Pool {
    var p1 := if k in p.entries && !Usable(p.entries[k], lim, now, ok) then Close(p, k) else p;
    if |p1.entries| >= lim.maxConnections then Cleanup(p1, lim, now, ok) else p1
  }

  ghost function Create(p: Pool, k: Key, now: int): Pool {
    var over := k in p.entries;
    Pool(p.entries[k := Entry(p.nextId, now, now, 1, true)], p.created + 1, p.reused, p.closed, p.nextId + 1,
         if over then p.displaced + 1 else p.displaced,
         if over then p.retired + p.entries[k].uses else p.retired)
  }

  predicate Reuses(p: Pool, k: Key, lim: Limits, now: int, ok: Health) {
    k in p.entries && Usable(p.entries[k], lim, now, ok) && !p.entries[k].inUse
  }

  ghost function Get(p: Pool, k: Key, lim: Limits, now: int, ok: Health, connects: bool): (Pool, Option<nat>) {
    if Reuses(p, k, lim, now, ok) then
      var e := p.entries[k];
      (p.(entries := p.entries[k := e.(inUse := true, uses := e.uses + 1, lastUsed := now)], reused := p.reused + 1),
       Some(e.id))
    else
      var q := BeforeConnect(p, k, lim, now, ok);
      if connects then (Create(q, k, now), Some(q.nextId)) else (q, None)
  }

  function Release(p: Pool, k: Key, now: int): Pool {
    if k in p.entries then p.(entries := p.entries[k := p.entries[k].(inUse := false, lastUsed := now)]) else p
  }

  // ----- Use counts -----

  lemma {:induction false} UsesRemove(es: map<Key, Entry>, k: Key)
    requires k in es
    ensures Uses(es) == es[k].uses + Uses(es - {k})
    decreases es
  {
    var c :| c in es && Uses(es) == es[c].uses + Uses(es - {c});
    if c != k {
      UsesRemove(es - {c}, k);
      UsesRemove(es - {k}, c);
      assert es - {c} - {k} == es - {k} - {c};
    }
  }

  lemma UsesPut(es: map<Key, Entry>, k: Key, e: Entry)
    ensures Uses(es[k := e]) == e.uses + Uses(es - {k})
  {
    UsesRemove(es[k := e], k);
    assert es[k := e] - {k} == es - {k};
  }

  lemma UsesWithout(es: map<Key, Entry>, k: Key)
    ensures Uses(es) == (if k in es then es[k].uses else 0) + Uses(es - {k})
  {
    if k in es {
      UsesRemove(es, k);
    } else {
      assert es - {k} == es;
    }
  }

  lemma CloseOneMore(p: Pool, done: set<Key>, k: Key)
    requires done <= p.entries.Keys && k in p.entries && k !in done
    ensures Close(CloseAll(p, done), k) == CloseAll(p, done + {k})
  {
    assert p.entries - done - {k} == p.entries - (done + {k});
  }

  lemma CloseNone(p: Pool)
    ensures CloseAll(p, {}) == p
  {
    assert p.entries - {} == p.entries;
  }

  // ----- The manager -----

  class Manager {
    const limits: Limits
    var connections: map<Key, Entry>
    var totalCreated: nat
    var totalReused: nat
    var totalClosed: nat
    var nextId: nat
    ghost var displaced: nat
    ghost var retired: int

    ghost function Abs(): Pool
      reads this
    {
      Pool(connections, totalCreated, totalReused, totalClosed, nextId, displaced, retired)
    }

    constructor (limits: Limits)
      ensures Abs() == EMPTY && this.limits == limits
    {
      this.limits := limits;
      connections := map[];
      totalCreated, totalReused, totalClosed, nextId := 0, 0, 0, 0;
      displaced, retired := 0, 0;
    }

    /** `_close_connection` */
    method CloseKey(k: Key)
      modifies this
      ensures Abs() == Close(old(Abs()), k)
    {
      if k in connections {
        UsesRemove(connections, k);
        retired := retired + connections[k].uses;
        connections := connections - {k};
        totalClosed := totalClosed + 1;
      }
    }

    /** `_cleanup_stale_connections_internal`: first collect the keys, then close them. */
    method CleanupStale(now: int, ok: Health) returns (cleaned: nat)
      modifies this
      ensures Abs() == Cleanup(old(Abs()), limits, now, ok)
      ensures cleaned == |StaleKeys(old(Abs()), limits, now, ok)|
    {
      hide Close, CloseAll, Uses;
      var todo := CollectStale(now, ok);
      cleaned := CloseKeys(todo);
    }

    /** The first loop: the keys of entries not in use that are due for cleanup. */
    method CollectStale(now: int, ok: Health) returns (keys: set<Key>)
      ensures keys == StaleKeys(Abs(), limits, now, ok)
    {
      keys := {};
      var unseen := connections.Keys;
      while unseen != {}
        invariant unseen <= connections.Keys
        invariant keys == set k | k in connections && k !in unseen && IsStale(connections[k], limits, now, ok)
        decreases unseen
      {
        var k :| k in unseen;
        unseen := unseen - {k};
        var e := connections[k];
        if !e.inUse {
          if !ok(e.id) || now - e.lastUsed > limits.maxIdle || Age(e, now) > limits.maxAge {
            keys := keys + {k};
          }
        }
      }
    }

    /** The second loop: close the entries of `keys` one by one. */
    method CloseKeys(keys: set<Key>) returns (cleaned: nat)
      requires keys <= connections.Keys
      modifies this
      ensures Abs() == CloseAll(old(Abs()), keys)
      ensures cleaned == |keys|
    {
      hide Close, CloseAll, Uses;
      ghost var before, done := Abs(), {};
      cleaned := 0;
      var todo := keys;
      CloseNone(before);
      while todo != {}
        invariant done !! todo && done + todo == keys && cleaned == |done|
        invariant Abs() == CloseAll(before, done)
        decreases todo
      {
        var k :| k in todo;
        CloseOneMore(before, done, k);
        CloseKey(k);
        cleaned := cleaned + 1;
        done, todo := done + {k}, todo - {k};
      }
    }

    method GetConnection(k: Key, now: int, ok: Health, connects: bool) returns (id: Option<nat>)
      modifies this
      ensures (Abs(), id) == Get(old(Abs()), k, limits, now, ok, connects)
    {
      hide Uses, Close, Cleanup, Create;
      if k in connections {
        var e := connections[k];
        if ok(e.id) && Age(e, now) < limits.maxAge {
          if !e.inUse {
            connections := connections[k := e.(inUse := true, uses := e.uses + 1, lastUsed := now)];
            totalReused := totalReused + 1;
            return Some(e.id);
          }
        } else {
          CloseKey(k);
        }
      }
      if |connections| >= limits.maxConnections {
        var _ := CleanupStale(now, ok);
      }
      if !connects {
        return None;
      }
      id := Some(nextId);
      AddConnection(k, now);
    }

    /** The new entry, acquired at once, takes the key whether or not an entry is there. */
    method AddConnection(k: Key, now: int)
      modifies this
      ensures Abs() == Create(old(Abs()), k, now)
    {
      if k in connections {
        displaced, retired := displaced + 1, retired + connections[k].uses;
      }
      var e := Entry(nextId, now, now, 0, false);
      e := e.(inUse := true, uses := e.uses + 1, lastUsed := now);
      nextId := nextId + 1;
      connections := connections[k := e];
      totalCreated := totalCreated + 1;
    }

    method ReleaseConnection(k: Key, now: int)
      modifies this
      ensures Abs() == Release(old(Abs()), k, now)
    {
      if k in connections {
        connections := connections[k := connections[k].(inUse := false, lastUsed := now)];
      }
    }

    /** `cleanup_all` */
    method CleanupAll()
      modifies this
      ensures Abs() == CloseAll(old(Abs()), old(Abs()).entries.Keys)
    {
      var _ := CloseKeys(connections.Keys);
    }
  }

  const EMPTY := Pool(map[], 0, 0, 0, 0, 0, 0)

  // ----- Cleanup -----

  /** Cleanup removes exactly the idle stale entries, touches no other, and repeating it at the same clock
      and health changes nothing. */
  lemma CleanupExact(p: Pool, lim: Limits, now: int, ok: Health)
    ensures var q := Cleanup(p, lim, now, ok);
            && (forall k :: k in q.entries <==>
                  && k in p.entries
                  && var e := p.entries[k];
                     e.inUse || (ok(e.id) && now - e.lastUsed <= lim.maxIdle && now - e.createdAt <= lim.maxAge))
            && (forall k :: k in q.entries ==> q.entries[k] == p.entries[k])
            && q.closed - p.closed == |p.entries| - |q.entries|
            && Cleanup(q, lim, now, ok) == q
  {
    var q := Cleanup(p, lim, now, ok);
    RemovedCount(p.entries, StaleKeys(p, lim, now, ok));
    assert StaleKeys(q, lim, now, ok) == {};
    assert q.entries - {} == q.entries;
  }

  lemma RemovedCount(es: map<Key, Entry>, ks: set<Key>)
    requires ks <= es.Keys
    ensures |es - ks| == |es| - |ks|
  {
    assert (es - ks).Keys == es.Keys - ks;
  }

  // ----- What a request is given -----

  /** The key's connection is there, healthy, younger than the maximum age, and idle. */
  predicate Available(p: Pool, k: Key, lim: Limits, now: int, ok: Health) {
    && k in p.entries
    && var e := p.entries[k]; ok(e.id) && now - e.createdAt < lim.maxAge && !e.inUse
  }

  /** The key's connection is there, but dead or too old. */
  predicate Spent(p: Pool, k: Key, lim: Limits, now: int, ok: Health) {
    && k in p.entries
    && var e := p.entries[k]; !ok(e.id) || now - e.createdAt >= lim.maxAge
  }

  /** A get returns a connection exactly if the key's own is available or a new one connects. In the first
      case it is that one, and nothing else in the pool changes but its use; in the second case it is new,
      made now and used once. So no connection that is dead or too old at that clock is ever handed out. */
  lemma GetGivesExactly(p: Pool, k: Key, lim: Limits, now: int, ok: Health, connects: bool)
    ensures var (q, id) := Get(p, k, lim, now, ok, connects);
            && (id.Some? <==> Available(p, k, lim, now, ok) || connects)
            && (id.Some? ==> k in q.entries && q.entries[k].id == id.value && q.entries[k].inUse)
            && (if Available(p, k, lim, now, ok) then
                  var e := p.entries[k];
                  && id == Some(e.id)
                  && q == p.(entries := p.entries[k := e.(inUse := true, uses := e.uses + 1, lastUsed := now)],
                             reused := p.reused + 1)
                else if connects then
                  && id == Some(p.nextId) && q.nextId == p.nextId + 1 && q.created == p.created + 1
                  && q.reused == p.reused && q.entries[k] == Entry(p.nextId, now, now, 1, true)
                else q.nextId == p.nextId && q.created == p.created && q.reused == p.reused)
  {
    hide Uses;
  }

  function SpentKeys(p: Pool, k: Key, lim: Limits, now: int, ok: Health): set<Key> {
    if Spent(p, k, lim, now, ok) then {k} else {}
  }

  lemma SpentCloses(p: Pool, k: Key, lim: Limits, now: int, ok: Health)
    ensures var p1 := if k in p.entries && !Usable(p.entries[k], lim, now, ok) then Close(p, k) else p;
            var spent := SpentKeys(p, k, lim, now, ok);
            && p1.entries == p.entries - spent && p1.closed == p.closed + |spent|
            && |p1.entries| == |p.entries| - |spent|
            && StaleKeys(p1, lim, now, ok) == StaleKeys(p, lim, now, ok) - spent
  {
    hide Uses;
    RemovedCount(p.entries, SpentKeys(p, k, lim, now, ok));
    NoKeysRemoved(p.entries);
  }

  lemma BeforeConnectCloses(p: Pool, k: Key, lim: Limits, now: int, ok: Health)
    ensures var q := BeforeConnect(p, k, lim, now, ok);
            var spent := SpentKeys(p, k, lim, now, ok);
            var stale := StaleKeys(p, lim, now, ok) - spent;
            var full := |p.entries| - |spent| >= lim.maxConnections;
            && q.entries == p.entries - spent - (if full then stale else {})
            && q.closed == p.closed + |spent| + if full then |stale| else 0
  {
    hide Uses, SpentKeys, StaleKeys, Usable, Close, Cleanup;
    SpentCloses(p, k, lim, now, ok);
    var p1 := if k in p.entries && !Usable(p.entries[k], lim, now, ok) then Close(p, k) else p;
    CleanupCloses(p1, lim, now, ok);
    NoKeysRemoved(p1.entries);
  }

  lemma CleanupCloses(p: Pool, lim: Limits, now: int, ok: Health)
    ensures var q := Cleanup(p, lim, now, ok);
            var stale := StaleKeys(p, lim, now, ok);
            q.entries == p.entries - stale && q.closed == p.closed + |stale|
  {
    hide Uses, StaleKeys;
  }

  lemma NoKeysRemoved(es: map<Key, Entry>)
    ensures es - {} == es
  {
  }

  /** A get that does not reuse closes the key's connection if it is spent, and, if the pool is then still at
      its limit, every stale one. Nothing else leaves the pool but what the new connection displaces. */
  lemma GetClosesExactly(p: Pool, k: Key, lim: Limits, now: int, ok: Health, connects: bool)
    requires !Available(p, k, lim, now, ok)
    ensures var q := Get(p, k, lim, now, ok, connects).0;
            var spent := SpentKeys(p, k, lim, now, ok);
            var stale := StaleKeys(p, lim, now, ok) - spent;
            var full := |p.entries| - |spent| >= lim.maxConnections;
            var left := p.entries - spent - (if full then stale else {});
            && (if connects then k in q.entries && q.entries == left[k := q.entries[k]] else q.entries == left)
            && q.closed == p.closed + |spent| + if full then |stale| else 0
  {
    BeforeConnectCloses(p, k, lim, now, ok);
    assert !Reuses(p, k, lim, now, ok);
    hide Uses, SpentKeys, StaleKeys, BeforeConnect;
  }

  /** A release starts the idle time anew: within `maxIdle` of it, a healthy and young enough connection is
      not stale, and from then on, unless used, it is. */
  lemma ReleaseRestartsIdle(p: Pool, k: Key, lim: Limits, now: int, later: int, ok: Health)
    requires k in p.entries
    ensures var q := Release(p, k, now);
            && k in q.entries && !q.entries[k].inUse && q == p.(entries := p.entries[k := q.entries[k]])
            && (k in StaleKeys(q, lim, later, ok) <==>
                  !ok(p.entries[k].id) || later - now > lim.maxIdle || later - p.entries[k].createdAt > lim.maxAge)
  {
  }

  // ----- A pool above its limit -----

  ghost predicate BusyOrFresh(p: Pool, lim: Limits, now: int, ok: Health) {
    forall k :: k in p.entries ==> p.entries[k].inUse || IsFresh(p.entries[k], lim, now, ok)
  }

  /** When a successful get that leaves the pool above its limit implies every entry in use or fresh at
      that clock: always if it creates a connection; if it reuses one, exactly if the pool was within its
      limit or nothing but the reused entry was stale. */
  lemma AboveLimitExactly(p: Pool, k: Key, lim: Limits, now: int, ok: Health)
    ensures var q := Get(p, k, lim, now, ok, true).0;
            (|q.entries| > lim.maxConnections ==> BusyOrFresh(q, lim, now, ok))
            <==> !Reuses(p, k, lim, now, ok) || |p.entries| <= lim.maxConnections || StaleKeys(p, lim, now, ok) <= {k}
  {
    var q := Get(p, k, lim, now, ok, true).0;
    if Reuses(p, k, lim, now, ok) {
      PutCount(p.entries, k, q.entries[k]);
      assert StaleKeys(q, lim, now, ok) == StaleKeys(p, lim, now, ok) - {k};
      StaleOrNot(q, lim, now, ok);
    } else {
      var p1 := if k in p.entries && !Usable(p.entries[k], lim, now, ok) then Close(p, k) else p;
      PutCount(p1.entries, k, Entry(p1.nextId, now, now, 1, true));
    }
  }

  lemma StaleOrNot(p: Pool, lim: Limits, now: int, ok: Health)
    ensures BusyOrFresh(p, lim, now, ok) <==> StaleKeys(p, lim, now, ok) == {}
  {
    assert forall k :: k in p.entries ==>
      (k in StaleKeys(p, lim, now, ok) <==> !p.entries[k].inUse && !IsFresh(p.entries[k], lim, now, ok));
  }

  // ----- Clients, the monitor and interleavings -----

  /** One client's grip on a connection, from a successful get to its release. */
  datatype Grip = Grip(key: Key, id: nat)

  datatype World = World(pool: Pool, held: map<nat, Grip>, tickets: nat, now: int)

  datatype Step =
    | Request(k: Key, connects: bool)
    | GiveBack(ticket: nat)
    | Discard(ticket: nat)
    | Monitor
    | Shutdown
    | Tick(seconds: nat)

  ghost function Next(w: World, s: Step, lim: Limits, ok: Health): World {
    match s
    case Request(k, connects) =>
      var (p, id) := Get(w.pool, k, lim, w.now, ok, connects);
      if id.Some? then w.(pool := p, held := w.held[w.tickets := Grip(k, id.value)], tickets := w.tickets + 1)
      else w.(pool := p)
    case GiveBack(t) =>
      if t in w.held then w.(pool := Release(w.pool, w.held[t].key, w.now), held := w.held - {t}) else w
    case Discard(t) =>
      if t in w.held then w.(pool := Close(w.pool, w.held[t].key), held := w.held - {t}) else w
    case Monitor => w.(pool := Cleanup(w.pool, lim, w.now, ok))
    case Shutdown => w.(pool := CloseAll(w.pool, w.pool.entries.Keys))
    case Tick(d) => w.(now := w.now + d)
  }

  const FRESH_WORLD := World(EMPTY, map[], 0, 0)

  /** The world after the steps `ss`, step `i` meeting the connection health `oks(i)`. */
  ghost function Reach(ss: seq<Step>, lim: Limits, oks: nat -> Health): World {
    if |ss| == 0 then FRESH_WORLD
    else Next(Reach(ss[..|ss| - 1], lim, oks), ss[|ss| - 1], lim, oks(|ss| - 1))
  }

  // ----- Conservation, in every run -----

  ghost predicate Conserved(p: Pool) {
    && p.created == p.closed + |p.entries| + p.displaced
    && p.created + p.reused == Uses(p.entries) + p.retired
  }

  lemma CloseAllConserves(p: Pool, ks: set<Key>)
    requires ks <= p.entries.Keys && Conserved(p)
    ensures Conserved(CloseAll(p, ks))
  {
    RemovedCount(p.entries, ks);
  }

  lemma PutCount(es: map<Key, Entry>, k: Key, e: Entry)
    ensures |es[k := e]| == if k in es then |es| else |es| + 1
  {
    assert es[k := e].Keys == es.Keys + {k};
  }

  lemma CreateConserves(p: Pool, k: Key, now: int)
    requires Conserved(p)
    ensures Conserved(Create(p, k, now))
  {
    var e := Entry(p.nextId, now, now, 1, true);
    UsesPut(p.entries, k, e);
    UsesWithout(p.entries, k);
    PutCount(p.entries, k, e);
  }

  lemma UpdateConserves(p: Pool, k: Key, e: Entry, reused: nat)
    requires Conserved(p) && k in p.entries && e.uses + p.reused == p.entries[k].uses + reused
    ensures Conserved(p.(entries := p.entries[k := e], reused := reused))
  {
    UsesPut(p.entries, k, e);
    UsesRemove(p.entries, k);
    PutCount(p.entries, k, e);
  }

  lemma GetConserves(p: Pool, k: Key, lim: Limits, now: int, ok: Health, connects: bool)
    requires Conserved(p)
    ensures Conserved(Get(p, k, lim, now, ok, connects).0)
  {
    if Reuses(p, k, lim, now, ok) {
      var e := p.entries[k];
      UpdateConserves(p, k, e.(inUse := true, uses := e.uses + 1, lastUsed := now), p.reused + 1);
    } else {
      if k in p.entries {
        CloseAllConserves(p, {k});
      }
      var p1 := if k in p.entries && !Usable(p.entries[k], lim, now, ok) then Close(p, k) else p;
      CloseAllConserves(p1, StaleKeys(p1, lim, now, ok));
      CreateConserves(BeforeConnect(p, k, lim, now, ok), k, now);
    }
  }

  lemma NextConserves(w: World, s: Step, lim: Limits, ok: Health)
    requires Conserved(w.pool)
    ensures Conserved(Next(w, s, lim, ok).pool)
  {
    hide Get, Conserved, Uses;
    match s
    case Request(k, connects) => GetConserves(w.pool, k, lim, w.now, ok, connects);
    case GiveBack(t) => if t in w.held { ReleaseConserves(w.pool, w.held[t].key, w.now); }
    case Discard(t) =>
      if t in w.held && w.held[t].key in w.pool.entries { CloseAllConserves(w.pool, {w.held[t].key}); }
    case Monitor => CloseAllConserves(w.pool, StaleKeys(w.pool, lim, w.now, ok));
    case Shutdown => CloseAllConserves(w.pool, w.pool.entries.Keys);
    case Tick(_) =>
  }

  lemma ReleaseConserves(p: Pool, k: Key, now: int)
    requires Conserved(p)
    ensures Conserved(Release(p, k, now))
  {
    if k in p.entries {
      UpdateConserves(p, k, p.entries[k].(inUse := false, lastUsed := now), p.reused);
    }
  }

  /** In every interleaving: created = closed + pool size + displaced, and created + reused is the sum of
      the use counts of all entries ever made. */
  lemma {:induction false} AllRunsConserve(ss: seq<Step>, lim: Limits, oks: nat -> Health)
    ensures Conserved(Reach(ss, lim, oks).pool)
  {
    hide Next;
    if |ss| > 0 {
      AllRunsConserve(ss[..|ss| - 1], lim, oks);
      NextConserves(Reach(ss[..|ss| - 1], lim, oks), ss[|ss| - 1], lim, oks(|ss| - 1));
    }
  }

  /** `displaced` counts exactly the successful creations over an entry that is usable but in use. */
  lemma DisplacesExactly(p: Pool, k: Key, lim: Limits, now: int, ok: Health, connects: bool)
    ensures Get(p, k, lim, now, ok, connects).0.displaced ==
            var over := k in p.entries && Usable(p.entries[k], lim, now, ok) && p.entries[k].inUse;
            p.displaced + if connects && over then 1 else 0
  {
  }

  // ----- Which connection is whose -----

  ghost predicate Holds(w: World, t: nat, id: nat) {
    t in w.held && w.held[t].id == id
  }

  /** Connections in the pool are in use exactly while held, and no connection has two holders. */
  ghost predicate Orderly(w: World) {
    && (forall k :: k in w.pool.entries ==>
          (w.pool.entries[k].inUse <==> exists t :: Holds(w, t, w.pool.entries[k].id)))
    && (forall t, u :: t in w.held && u in w.held && w.held[t].id == w.held[u].id ==> t == u)
  }

  /** Connections are told apart by their ids, and tickets are never given out again. */
  ghost predicate Identified(w: World) {
    && (forall k :: k in w.pool.entries ==> w.pool.entries[k].id < w.pool.nextId)
    && (forall t :: t in w.held ==> t < w.tickets && w.held[t].id < w.pool.nextId)
    && (forall k, l :: k in w.pool.entries && l in w.pool.entries && w.pool.entries[k].id == w.pool.entries[l].id ==>
          k == l)
    && (forall t, k :: t in w.held && k in w.pool.entries && w.held[t].id == w.pool.entries[k].id ==>
          w.held[t].key == k)
  }

  /** A client gives back a connection whose key has meanwhile gone to another connection, in use. */
  ghost predicate Stray(w: World, s: Step) {
    && s.GiveBack? && s.ticket in w.held
    && var g := w.held[s.ticket];
       g.key in w.pool.entries && w.pool.entries[g.key].inUse && w.pool.entries[g.key].id != g.id
  }

  /** No step of the run is stray. */
  ghost predicate NoStray(ss: seq<Step>, lim: Limits, oks: nat -> Health) {
    |ss| == 0 ||
    var front := ss[..|ss| - 1];
    NoStray(front, lim, oks) && !Stray(Reach(front, lim, oks), ss[|ss| - 1])
  }

  /** The world is orderly at the start of the run and after each of its steps. */
  ghost predicate AlwaysOrderly(ss: seq<Step>, lim: Limits, oks: nat -> Health) {
    Orderly(Reach(ss, lim, oks)) && (|ss| > 0 ==> AlwaysOrderly(ss[..|ss| - 1], lim, oks))
  }

  /** The world `w'` has some of the entries of `w`, and the same holders. */
  lemma FewerEntries(w: World, w': World)
    requires w'.held == w.held && w'.tickets == w.tickets && w'.pool.nextId == w.pool.nextId
    requires forall k :: k in w'.pool.entries ==> k in w.pool.entries && w'.pool.entries[k] == w.pool.entries[k]
    ensures Identified(w) ==> Identified(w')
    ensures Orderly(w) ==> Orderly(w')
  {
    if Orderly(w) {
      forall k | k in w'.pool.entries
        ensures w'.pool.entries[k].inUse <==> exists t :: Holds(w', t, w'.pool.entries[k].id)
      {
        assert forall t :: Holds(w, t, w.pool.entries[k].id) <==> Holds(w', t, w.pool.entries[k].id);
      }
    }
  }

  /** A connection was created for key `k` and handed out. */
  ghost function WithCreated(w: World, k: Key): World {
    w.(pool := Create(w.pool, k, w.now), held := w.held[w.tickets := Grip(k, w.pool.nextId)], tickets := w.tickets + 1)
  }

  /** Key `k` now stands for the entry `e`, in use, and a new ticket was handed out for it. */
  ghost predicate HandsOut(w: World, w': World, k: Key, e: Entry) {
    && w'.pool.entries == w.pool.entries[k := e] && e.inUse
    && w'.held == w.held[w.tickets := Grip(k, e.id)] && w'.tickets == w.tickets + 1
    && e.id < w'.pool.nextId && w.pool.nextId <= w'.pool.nextId
  }

  lemma HandsOutIdentified(w: World, w': World, k: Key, e: Entry)
    requires Identified(w) && HandsOut(w, w', k, e)
    requires e.id == w.pool.nextId || (k in w.pool.entries && e.id == w.pool.entries[k].id)
    ensures Identified(w')
  {
  }

  lemma HandsOutOrderly(w: World, w': World, k: Key, e: Entry)
    requires Identified(w) && HandsOut(w, w', k, e) && Orderly(w)
    requires forall t :: t in w.held ==> w.held[t].id != e.id
    requires forall j :: j in w.pool.entries && j != k ==> w.pool.entries[j].id != e.id
    ensures Orderly(w')
  {
    assert Holds(w', w.tickets, e.id);
    forall j | j in w'.pool.entries && j != k
      ensures w'.pool.entries[j].inUse <==> exists t :: Holds(w', t, w'.pool.entries[j].id)
    {
      assert w.tickets !in w.held;
      assert forall t :: Holds(w, t, w.pool.entries[j].id) <==> Holds(w', t, w.pool.entries[j].id);
    }
  }

  lemma ReuseHandsOut(w: World, k: Key, lim: Limits, ok: Health, connects: bool) returns (e: Entry)
    requires Identified(w) && Reuses(w.pool, k, lim, w.now, ok)
    ensures HandsOut(w, Next(w, Request(k, connects), lim, ok), k, e)
    ensures k in w.pool.entries && e.id == w.pool.entries[k].id && !w.pool.entries[k].inUse
  {
    e := Next(w, Request(k, connects), lim, ok).pool.entries[k];
  }

  lemma CreateHandsOut(w: World, w': World, k: Key) returns (e: Entry)
    requires w' == WithCreated(w, k)
    ensures HandsOut(w, w', k, e) && e.id == w.pool.nextId
  {
    e := w'.pool.entries[k];
  }

  lemma IdleIsUnheld(w: World, k: Key)
    requires Orderly(w) && k in w.pool.entries && !w.pool.entries[k].inUse
    ensures forall t :: t in w.held ==> w.held[t].id != w.pool.entries[k].id
  {
    assert forall t :: t in w.held && w.held[t].id == w.pool.entries[k].id ==> Holds(w, t, w.pool.entries[k].id);
  }

  lemma ReuseOrderly(w: World, k: Key, lim: Limits, ok: Health, connects: bool)
    requires Identified(w) && Reuses(w.pool, k, lim, w.now, ok)
    ensures var w' := Next(w, Request(k, connects), lim, ok); Identified(w') && (Orderly(w) ==> Orderly(w'))
  {
    var w' := Next(w, Request(k, connects), lim, ok);
    var e := ReuseHandsOut(w, k, lim, ok, connects);
    hide Next, HandsOut, Orderly;
    HandsOutIdentified(w, w', k, e);
    if Orderly(w) {
      IdleIsUnheld(w, k);
      HandsOutOrderly(w, w', k, e);
    }
  }

  lemma CreateOrderly(w: World, w': World, k: Key)
    requires Identified(w)
    requires w' == WithCreated(w, k)
    ensures Identified(w') && (Orderly(w) ==> Orderly(w'))
  {
    hide Create, HandsOut, Orderly;
    var e := CreateHandsOut(w, w', k);
    HandsOutIdentified(w, w', k, e);
    if Orderly(w) {
      HandsOutOrderly(w, w', k, e);
    }
  }

  lemma RequestOrderly(w: World, k: Key, lim: Limits, ok: Health, connects: bool)
    requires Identified(w)
    ensures var w' := Next(w, Request(k, connects), lim, ok); Identified(w') && (Orderly(w) ==> Orderly(w'))
  {
    hide Orderly, Identified;
    if Reuses(w.pool, k, lim, w.now, ok) {
      ReuseOrderly(w, k, lim, ok, connects);
    } else {
      BeforeConnectKeeps(w.pool, k, lim, w.now, ok);
      hide Uses, BeforeConnect, Create;
      var w1 := w.(pool := BeforeConnect(w.pool, k, lim, w.now, ok));
      FewerEntries(w, w1);
      if connects {
        CreateOrderly(w1, Next(w, Request(k, connects), lim, ok), k);
      }
    }
  }

  /** Making room only removes entries that are idle or, under the requested key, unusable. */
  lemma BeforeConnectKeeps(p: Pool, k: Key, lim: Limits, now: int, ok: Health)
    ensures var q := BeforeConnect(p, k, lim, now, ok);
            && q.nextId == p.nextId
            && (forall j :: j in q.entries ==> j in p.entries && q.entries[j] == p.entries[j])
            && (forall j :: j in p.entries && j != k && p.entries[j].inUse ==> j in q.entries)
  {
    hide Uses;
  }

  lemma GiveBackIdentified(w: World, t: nat, lim: Limits, ok: Health)
    requires Identified(w) && t in w.held
    ensures Identified(Next(w, GiveBack(t), lim, ok))
  {
    hide Get, Cleanup, CloseAll, Uses;
  }

  /** For all keys but the one given back nothing changes. */
  lemma GiveBackElsewhere(w: World, t: nat, j: Key, lim: Limits, ok: Health)
    requires Identified(w) && Orderly(w) && t in w.held && j in w.pool.entries && j != w.held[t].key
    ensures var w' := Next(w, GiveBack(t), lim, ok);
            j in w'.pool.entries && (w'.pool.entries[j].inUse <==> exists u :: Holds(w', u, w'.pool.entries[j].id))
  {
    hide Get, Cleanup, CloseAll, Uses;
    var w' := Next(w, GiveBack(t), lim, ok);
    assert forall u :: Holds(w, u, w.pool.entries[j].id) <==> Holds(w', u, w.pool.entries[j].id);
  }

  /** The entry under the key given back is idle afterwards; nobody holds it exactly if the step was not
      stray. */
  lemma GiveBackThere(w: World, t: nat, lim: Limits, ok: Health)
    requires Identified(w) && Orderly(w) && t in w.held && w.held[t].key in w.pool.entries
    ensures var k, w' := w.held[t].key, Next(w, GiveBack(t), lim, ok);
            && k in w'.pool.entries && !w'.pool.entries[k].inUse
            && (Stray(w, GiveBack(t)) <==> exists u :: Holds(w', u, w'.pool.entries[k].id))
  {
    hide Get, Cleanup, CloseAll, Uses;
    var Grip(k, id) := w.held[t];
    var w' := Next(w, GiveBack(t), lim, ok);
    var e := w.pool.entries[k];
    assert w'.pool.entries[k].id == e.id;
    if Stray(w, GiveBack(t)) {
      var u :| Holds(w, u, e.id);
      assert Holds(w', u, e.id);
    } else {
      assert forall u :: Holds(w', u, e.id) ==> Holds(w, u, e.id) && u != t;
      assert e.id == id ==> Holds(w, t, e.id);
    }
  }

  lemma GiveBackOrderly(w: World, t: nat, lim: Limits, ok: Health)
    requires Identified(w) && t in w.held
    ensures var w' := Next(w, GiveBack(t), lim, ok);
            && Identified(w')
            && (Orderly(w) ==> (Orderly(w') <==> !Stray(w, GiveBack(t))))
  {
    hide Get, Cleanup, CloseAll, Uses, Identified;
    GiveBackIdentified(w, t, lim, ok);
    if Orderly(w) {
      var w' := Next(w, GiveBack(t), lim, ok);
      if w.held[t].key in w.pool.entries {
        GiveBackThere(w, t, lim, ok);
      }
      forall j | j in w'.pool.entries && j != w.held[t].key
        ensures w'.pool.entries[j].inUse <==> exists u :: Holds(w', u, w'.pool.entries[j].id)
      {
        GiveBackElsewhere(w, t, j, lim, ok);
      }
    }
  }

  lemma DiscardOrderly(w: World, t: nat, lim: Limits, ok: Health)
    requires Identified(w) && t in w.held
    ensures var w' := Next(w, Discard(t), lim, ok); Identified(w') && (Orderly(w) ==> Orderly(w'))
  {
    hide Uses;
    var k := w.held[t].key;
    var w' := Next(w, Discard(t), lim, ok);
    if Orderly(w) {
      forall j | j in w'.pool.entries
        ensures w'.pool.entries[j].inUse <==> exists u :: Holds(w', u, w'.pool.entries[j].id)
      {
        assert forall u :: Holds(w, u, w.pool.entries[j].id) <==> Holds(w', u, w.pool.entries[j].id);
      }
    }
  }

  /** One step keeps the order exactly if it is not stray. */
  lemma NextOrderly(w: World, s: Step, lim: Limits, ok: Health)
    requires Identified(w)
    ensures var w' := Next(w, s, lim, ok);
            Identified(w') && (Orderly(w) ==> (Orderly(w') <==> !Stray(w, s)))
  {
    hide Orderly, Identified, Uses, Get;
    match s
    case Request(k, connects) => RequestOrderly(w, k, lim, ok, connects);
    case GiveBack(t) => if t in w.held { GiveBackOrderly(w, t, lim, ok); }
    case Discard(t) => if t in w.held { DiscardOrderly(w, t, lim, ok); }
    case _ => FewerEntries(w, Next(w, s, lim, ok));
  }

  lemma {:induction false} AllRunsIdentified(ss: seq<Step>, lim: Limits, oks: nat -> Health)
    ensures Identified(Reach(ss, lim, oks))
  {
    hide Next, Orderly, Stray;
    if |ss| > 0 {
      AllRunsIdentified(ss[..|ss| - 1], lim, oks);
      NextOrderly(Reach(ss[..|ss| - 1], lim, oks), ss[|ss| - 1], lim, oks(|ss| - 1));
    }
  }

  /** In every interleaving: connections are in use exactly while held and never have two holders, all the
      time, if and only if no client ever gives back a connection that has lost its key to another one in
      use. */
  lemma {:induction false} OrderlyExactlyWithoutStray(ss: seq<Step>, lim: Limits, oks: nat -> Health)
    ensures AlwaysOrderly(ss, lim, oks) <==> NoStray(ss, lim, oks)
  {
    hide Next, Orderly, Stray, Identified;
    if |ss| == 0 {
      NothingHeld(lim, oks);
    } else {
      var m := |ss| - 1;
      var front := ss[..m];
      OrderlyExactlyWithoutStray(front, lim, oks);
      AllRunsIdentified(front, lim, oks);
      NextOrderly(Reach(front, lim, oks), ss[m], lim, oks(m));
    }
  }

  lemma NothingHeld(lim: Limits, oks: nat -> Health)
    ensures Orderly(Reach([], lim, oks))
  {
  }

  /** In an orderly world the monitor never closes a connection that somebody holds, nor does a request
      for another key. */
  lemma MonitorSparesHeld(w: World, t: nat, k: Key, s: Step, lim: Limits, ok: Health)
    requires Orderly(w) && t in w.held && k in w.pool.entries && w.pool.entries[k].id == w.held[t].id
    requires s.Monitor? || (s.Request? && s.k != k)
    ensures var w' := Next(w, s, lim, ok); k in w'.pool.entries && w'.pool.entries[k] == w.pool.entries[k]
  {
    hide Uses;
    assert Holds(w, t, w.pool.entries[k].id);
  }

  // ----- Runs in which no key is requested while held -----

  ghost predicate Free(w: World, k: Key) {
    forall t :: t in w.held ==> w.held[t].key != k
  }

  ghost predicate Disciplined(ss: seq<Step>, lim: Limits, oks: nat -> Health) {
    |ss| == 0 ||
    var front, s := ss[..|ss| - 1], ss[|ss| - 1];
    Disciplined(front, lim, oks) && (s.Request? ==> Free(Reach(front, lim, oks), s.k))
  }

  /** Nothing was displaced, no key is held twice, and a held key in the pool stands for the held
      connection. */
  ghost predicate Settled(w: World) {
    && w.pool.displaced == 0
    && (forall t, u :: t in w.held && u in w.held && w.held[t].key == w.held[u].key ==> t == u)
    && (forall t :: t in w.held && w.held[t].key in w.pool.entries ==> w.pool.entries[w.held[t].key].id == w.held[t].id)
  }

  /** Every held connection is in the pool, in use, under its key. */
  ghost predicate AllPooled(w: World) {
    forall t :: t in w.held ==>
      && w.held[t].key in w.pool.entries
      && w.pool.entries[w.held[t].key].id == w.held[t].id && w.pool.entries[w.held[t].key].inUse
  }

  lemma FreeMeansIdle(w: World, k: Key)
    requires Identified(w) && Orderly(w) && Free(w, k) && k in w.pool.entries
    ensures !w.pool.entries[k].inUse
  {
  }

  lemma HandsOutSettled(w: World, w': World, k: Key, e: Entry)
    requires Identified(w) && HandsOut(w, w', k, e) && Settled(w) && Free(w, k) && w'.pool.displaced == 0
    ensures Settled(w')
  {
  }

  lemma FewerEntriesSettled(w: World, w': World, k: Key)
    requires Settled(w) && Free(w, k) && w'.held == w.held && w'.pool.displaced == 0
    requires forall j :: j in w'.pool.entries ==> j in w.pool.entries && w'.pool.entries[j] == w.pool.entries[j]
    ensures Settled(w') && Free(w', k)
  {
  }

  lemma RequestSettled(w: World, k: Key, lim: Limits, ok: Health, connects: bool)
    requires Identified(w) && Orderly(w) && Settled(w) && Free(w, k)
    ensures Settled(Next(w, Request(k, connects), lim, ok))
  {
    if k in w.pool.entries {
      FreeMeansIdle(w, k);
    }
    assert w.pool.displaced == 0;
    hide Orderly, Identified, HandsOut, Settled, Free, Uses, BeforeConnect;
    DisplacesExactly(w.pool, k, lim, w.now, ok, connects);
    var w' := Next(w, Request(k, connects), lim, ok);
    if Reuses(w.pool, k, lim, w.now, ok) {
      var e := ReuseHandsOut(w, k, lim, ok, connects);
      HandsOutSettled(w, w', k, e);
    } else {
      DisplacesExactly(w.pool, k, lim, w.now, ok, false);
      var w1 := w.(pool := BeforeConnect(w.pool, k, lim, w.now, ok));
      BeforeConnectKeeps(w.pool, k, lim, w.now, ok);
      FewerEntries(w, w1);
      FewerEntriesSettled(w, w1, k);
      if connects {
        hide Create;
        var e := CreateHandsOut(w1, w', k);
        HandsOutSettled(w1, w', k, e);
      }
    }
  }

  lemma ReturnSettled(w: World, s: Step, lim: Limits, ok: Health)
    requires Settled(w) && (s.GiveBack? || s.Discard?)
    ensures Settled(Next(w, s, lim, ok))
  {
    hide Uses, Get, Cleanup;
  }

  lemma NextSettled(w: World, s: Step, lim: Limits, ok: Health)
    requires Identified(w) && Orderly(w) && Settled(w) && (s.Request? ==> Free(w, s.k))
    ensures Settled(Next(w, s, lim, ok)) && !Stray(w, s)
    ensures !s.Shutdown? ==> !Parting(w, s, lim, ok)
  {
    hide Uses, Orderly, Identified;
    match s
    case Request(k, connects) =>
      RequestSettled(w, k, lim, ok, connects);
    case GiveBack(_) => ReturnSettled(w, s, lim, ok);
    case Discard(_) => ReturnSettled(w, s, lim, ok);
    case _ =>
  }

  /** If no key is requested while held, connections are in use exactly while held, no connection has two
      holders, nothing is displaced, and until a shutdown every held connection stays in the pool. */
  lemma {:induction false} DisciplinedRunsAreOrderly(ss: seq<Step>, lim: Limits, oks: nat -> Health)
    requires Disciplined(ss, lim, oks)
    ensures var w := Reach(ss, lim, oks);
            Orderly(w) && Settled(w) && (Shutdown !in ss ==> AllPooled(w))
    ensures NoStray(ss, lim, oks) && (Shutdown !in ss ==> NoParting(ss, lim, oks))
  {
    hide Next, Orderly, Identified, Stray, AllPooled, Parting;
    if |ss| == 0 {
      NothingHeld(lim, oks);
      NothingToPool(lim, oks);
    } else {
      var front, s := ss[..|ss| - 1], ss[|ss| - 1];
      var w := Reach(front, lim, oks);
      DisciplinedRunsAreOrderly(front, lim, oks);
      AllRunsIdentified(front, lim, oks);
      NextSettled(w, s, lim, oks(|ss| - 1));
      NextOrderly(w, s, lim, oks(|ss| - 1));
      if Shutdown !in ss {
        assert ss == front + [s];
        NextPooled(w, s, lim, oks(|ss| - 1));
      }
    }
  }

  // ----- Who closes whose connection -----

  /** The connection that ticket `t` was given is in the pool, and so it is under its key. */
  ghost predicate Pooled(w: World, t: nat) {
    && t in w.held && w.held[t].key in w.pool.entries
    && w.pool.entries[w.held[t].key].id == w.held[t].id
  }

  /** A step that takes the connection of ticket `t` out of the pool, other than by displacing it. */
  ghost predicate Closes(w: World, s: Step, t: nat, lim: Limits, ok: Health)
    requires Pooled(w, t)
  {
    var k := w.held[t].key;
    match s
    case Request(j, _) => j == k && !Usable(w.pool.entries[k], lim, w.now, ok)
    case Discard(u) => u in w.held && w.held[u].key == k
    case Shutdown => true
    case _ => false
  }

  /** A step that puts another connection in the place of that of ticket `t`. */
  ghost predicate Displaces(w: World, s: Step, t: nat, lim: Limits, ok: Health)
    requires Pooled(w, t)
  {
    s.Request? && s.k == w.held[t].key && s.connects && Usable(w.pool.entries[s.k], lim, w.now, ok)
  }

  /** The connection of ticket `t` leaves the pool in step `s` by being closed or displaced, or stays. */
  ghost predicate Leaves(w: World, s: Step, t: nat, lim: Limits, ok: Health)
    requires Pooled(w, t)
  {
    var Grip(k, id) := w.held[t];
    var p' := Next(w, s, lim, ok).pool;
    && (k in p'.entries && p'.entries[k].id == id <==> !Closes(w, s, t, lim, ok) && !Displaces(w, s, t, lim, ok))
    && (Displaces(w, s, t, lim, ok) ==> p'.displaced == w.pool.displaced + 1)
    && (Closes(w, s, t, lim, ok) ==> p'.closed > w.pool.closed && p'.displaced == w.pool.displaced)
  }

  /** A held connection leaves the pool exactly by such a step. So the steps that close a connection
      somebody else holds are: a request for its key that finds it unusable, a discard by a client whose
      own connection lost that key, and a shutdown. The monitor is not among them. */
  lemma HeldLeavesExactly(w: World, s: Step, t: nat, lim: Limits, ok: Health)
    requires Identified(w) && Orderly(w) && Pooled(w, t)
    ensures Leaves(w, s, t, lim, ok)
  {
    HeldIsBusy(w, t);
    hide Orderly, Identified;
    if s.Request? {
      RequestForHeld(w.pool, w.held[t].key, s.k, lim, w.now, ok, s.connects);
      hide Uses, BeforeConnect, Create;
      DisplacesExactly(w.pool, s.k, lim, w.now, ok, s.connects);
    } else {
      OtherStepLeaves(w, s, t, lim, ok);
    }
  }

  lemma HeldIsBusy(w: World, t: nat)
    requires Identified(w) && Orderly(w) && Pooled(w, t)
    ensures w.pool.entries[w.held[t].key].inUse && w.held[t].id < w.pool.nextId
  {
    assert Holds(w, t, w.pool.entries[w.held[t].key].id);
  }

  lemma OtherStepLeaves(w: World, s: Step, t: nat, lim: Limits, ok: Health)
    requires Pooled(w, t) && w.pool.entries[w.held[t].key].inUse && !s.Request?
    ensures Leaves(w, s, t, lim, ok)
  {
    hide Uses, Get;
    var k := w.held[t].key;
    if s.Shutdown? {
      assert k in w.pool.entries.Keys;
    }
  }

  /** What a request for key `j` does to an entry in use under key `k`. */
  lemma RequestForHeld(p: Pool, k: Key, j: Key, lim: Limits, now: int, ok: Health, connects: bool)
    requires k in p.entries && p.entries[k].inUse && p.entries[k].id < p.nextId
    ensures var q := Get(p, j, lim, now, ok, connects).0;
            && (k in q.entries && q.entries[k].id == p.entries[k].id
                <==> j != k || (Usable(p.entries[k], lim, now, ok) && !connects))
            && (j == k && !Usable(p.entries[k], lim, now, ok) ==> q.closed > p.closed)
  {
    hide Uses;
    BeforeConnectKeeps(p, j, lim, now, ok);
  }

  /** A request for a held key that is answered or finds the connection unusable, or a shutdown. */
  ghost predicate Parting(w: World, s: Step, lim: Limits, ok: Health) {
    || (s.Shutdown? && w.held != map[])
    || (s.Request? && !Free(w, s.k) && s.k in w.pool.entries
        && (s.connects || !Usable(w.pool.entries[s.k], lim, w.now, ok)))
  }

  ghost predicate NoParting(ss: seq<Step>, lim: Limits, oks: nat -> Health) {
    |ss| == 0 ||
    var front, s := ss[..|ss| - 1], ss[|ss| - 1];
    NoParting(front, lim, oks) && !Parting(Reach(front, lim, oks), s, lim, oks(|ss| - 1))
  }

  ghost predicate AlwaysPooled(ss: seq<Step>, lim: Limits, oks: nat -> Health) {
    var w := Reach(ss, lim, oks);
    Orderly(w) && AllPooled(w) && (|ss| > 0 ==> AlwaysPooled(ss[..|ss| - 1], lim, oks))
  }

  lemma AllPooledMeans(w: World)
    requires Orderly(w)
    ensures AllPooled(w) <==> forall t :: t in w.held ==> Pooled(w, t)
  {
    forall t | Pooled(w, t) ensures w.pool.entries[w.held[t].key].inUse {
      assert Holds(w, t, w.pool.entries[w.held[t].key].id);
    }
  }

  ghost predicate HandedOut(w: World, w': World) {
    && w.tickets !in w.held && w.tickets in w'.held
    && w'.held == w.held[w.tickets := w'.held[w.tickets]] && Pooled(w', w.tickets)
  }

  lemma HandsOutPooled(w: World, w': World, k: Key, e: Entry)
    requires w.tickets !in w.held && HandsOut(w, w', k, e)
    ensures HandedOut(w, w')
  {
  }

  lemma TicketIsNew(w: World)
    requires Identified(w)
    ensures w.tickets !in w.held
  {
  }

  /** What a request that reuses nothing does. */
  lemma ConnectStep(w: World, k: Key, lim: Limits, ok: Health, connects: bool)
    requires !Reuses(w.pool, k, lim, w.now, ok)
    ensures var w1 := w.(pool := BeforeConnect(w.pool, k, lim, w.now, ok));
            Next(w, Request(k, connects), lim, ok) == if connects then WithCreated(w1, k) else w1
  {
    hide Reuses, BeforeConnect, Create;
  }

  /** A request hands out a pooled connection or nothing, and changes no other ticket. */
  lemma NewTicketPooled(w: World, k: Key, lim: Limits, ok: Health, connects: bool)
    requires Identified(w)
    ensures var w' := Next(w, Request(k, connects), lim, ok);
            w'.held == w.held || HandedOut(w, w')
  {
    TicketIsNew(w);
    hide Identified, Reuses, Next, HandsOut, BeforeConnect, WithCreated, Pooled;
    var w' := Next(w, Request(k, connects), lim, ok);
    if Reuses(w.pool, k, lim, w.now, ok) {
      var e := ReuseHandsOut(w, k, lim, ok, connects);
      HandsOutPooled(w, w', k, e);
    } else {
      ConnectStep(w, k, lim, ok, connects);
      if connects {
        var w1 := w.(pool := BeforeConnect(w.pool, k, lim, w.now, ok));
        var e := CreateHandsOut(w1, w', k);
        HandsOutPooled(w1, w', k, e);
      }
    }
  }

  ghost predicate PooledBefore(w: World, s: Step, lim: Limits, ok: Health) {
    forall t :: t in w.held ==> Pooled(w, t) && Leaves(w, s, t, lim, ok)
  }

  lemma PooledAfterRequest(w: World, s: Step, lim: Limits, ok: Health)
    requires PooledBefore(w, s, lim, ok) && s.Request?
    requires var w' := Next(w, s, lim, ok);
             w'.held == w.held || HandedOut(w, w')
    ensures (forall t :: t in Next(w, s, lim, ok).held ==> Pooled(Next(w, s, lim, ok), t)) <==> !Parting(w, s, lim, ok)
  {
    hide Next, Usable;
    var w' := Next(w, s, lim, ok);
    assert forall t :: t in w.held ==> t in w'.held && w'.held[t] == w.held[t];
    assert forall t :: t in w.held ==> (Pooled(w', t) <==> !Closes(w, s, t, lim, ok) && !Displaces(w, s, t, lim, ok));
    if Parting(w, s, lim, ok) {
      var t :| t in w.held && w.held[t].key == s.k;
      assert !Pooled(w', t);
    }
  }

  lemma PooledAfter(w: World, s: Step, lim: Limits, ok: Health)
    requires PooledBefore(w, s, lim, ok) && !s.Request?
    requires forall t, u :: t in w.held && u in w.held && w.held[t].key == w.held[u].key ==> t == u
    ensures (forall t :: t in Next(w, s, lim, ok).held ==> Pooled(Next(w, s, lim, ok), t)) <==> !Parting(w, s, lim, ok)
  {
    hide Get, Cleanup, CloseAll;
    var w' := Next(w, s, lim, ok);
    assert forall t :: t in w'.held ==> t in w.held && w'.held[t] == w.held[t];
    assert forall t :: t in w'.held ==> (Pooled(w', t) <==> !Closes(w, s, t, lim, ok) && !Displaces(w, s, t, lim, ok));
    if s.Shutdown? && w.held != map[] {
      var t :| t in w.held;
      assert !Pooled(w', t);
    }
  }

  /** If all held connections are pooled, a step leaves it so exactly if it is not a parting one. */
  lemma NextPooled(w: World, s: Step, lim: Limits, ok: Health)
    requires Identified(w) && Orderly(w) && AllPooled(w)
    ensures var w' := Next(w, s, lim, ok);
            Orderly(w') && (AllPooled(w') <==> !Parting(w, s, lim, ok))
  {
    hide *;
    KeysDiffer(w);
    NotStray(w, s);
    NextOrderly(w, s, lim, ok);
    AllPooledMeans(Next(w, s, lim, ok));
    EachLeaves(w, s, lim, ok);
    if s.Request? {
      NewTicketPooled(w, s.k, lim, ok, s.connects);
      PooledAfterRequest(w, s, lim, ok);
    } else {
      PooledAfter(w, s, lim, ok);
    }
  }

  lemma EachLeaves(w: World, s: Step, lim: Limits, ok: Health)
    requires Identified(w) && Orderly(w) && AllPooled(w)
    ensures PooledBefore(w, s, lim, ok)
  {
    AllPooledMeans(w);
    hide Orderly, Identified, AllPooled, Pooled, Leaves;
    forall t | t in w.held ensures Pooled(w, t) && Leaves(w, s, t, lim, ok) {
      HeldLeavesExactly(w, s, t, lim, ok);
    }
  }

  lemma NotStray(w: World, s: Step)
    requires AllPooled(w)
    ensures !Stray(w, s)
  {
  }

  /** In every interleaving: every held connection is in the pool under its key, in use and with one holder,
      at all times, if and only if no request for a held key is answered or finds the connection unusable,
      and no shutdown comes while something is held. */
  lemma {:induction false} HeldStayPooledExactly(ss: seq<Step>, lim: Limits, oks: nat -> Health)
    ensures AlwaysPooled(ss, lim, oks) <==> NoParting(ss, lim, oks)
  {
    hide Next, Orderly, Identified, AllPooled, Parting;
    if |ss| == 0 {
      NothingHeld(lim, oks);
      NothingToPool(lim, oks);
    } else {
      var front, s := ss[..|ss| - 1], ss[|ss| - 1];
      HeldStayPooledExactly(front, lim, oks);
      AllRunsIdentified(front, lim, oks);
      if AlwaysPooled(front, lim, oks) {
        NextPooled(Reach(front, lim, oks), s, lim, oks(|ss| - 1));
      }
    }
  }

  lemma NothingToPool(lim: Limits, oks: nat -> Health)
    ensures AllPooled(Reach([], lim, oks))
  {
  }

  lemma KeysDiffer(w: World)
    requires Orderly(w) && AllPooled(w)
    ensures forall t, u :: t in w.held && u in w.held && w.held[t].key == w.held[u].key ==> t == u
  {
  }

  lemma NothingStale(p: Pool, lim: Limits, now: int, ok: Health)
    requires StaleKeys(p, lim, now, ok) == {}
    ensures Cleanup(p, lim, now, ok) == p
  {
    CloseNone(p);
  }

  lemma ReachNothing(lim: Limits, oks: nat -> Health)
    ensures Reach([], lim, oks) == FRESH_WORLD
  {
  }

  lemma ReachOneMore(ss: seq<Step>, s: Step, lim: Limits, oks: nat -> Health)
    ensures Reach(ss + [s], lim, oks) == Next(Reach(ss, lim, oks), s, lim, oks(|ss|))
  {
    assert (ss + [s])[..|ss|] == ss;
  }

  /** A request that finds nothing to reuse and nothing to clean up creates, displacing what was there. */
  lemma PlainCreate(w: World, k: Key, lim: Limits, ok: Health)
    requires k in w.pool.entries ==> w.pool.entries[k].inUse && Usable(w.pool.entries[k], lim, w.now, ok)
    requires StaleKeys(w.pool, lim, w.now, ok) == {}
    ensures Next(w, Request(k, true), lim, ok) ==
            WithCreated(w, k)
  {
    NothingStale(w.pool, lim, w.now, ok);
  }

  /** Two requests for different keys, in a pool that is full after the first. */
  lemma TwoCreated(lim: Limits, oks: nat -> Health)
    ensures Reach([Request("a", true), Request("b", true)], lim, oks) ==
            World(Create(Create(EMPTY, "a", 0), "b", 0), map[0 := Grip("a", 0), 1 := Grip("b", 1)], 2, 0)
  {
    hide Reach, Uses, Cleanup, CloseAll;
    var a, b := Request("a", true), Request("b", true);
    ReachNothing(lim, oks);
    ReachOneMore([], a, lim, oks);
    ReachOneMore([a], b, lim, oks);
    assert [] + [a] == [a] && [a] + [b] == [a, b];
    PlainCreate(FRESH_WORLD, "a", lim, oks(0));
    PlainCreate(Reach([a], lim, oks), "b", lim, oks(1));
  }

  ghost predicate TwoIdle(w: World) {
    && w.pool.entries == map["a" := Entry(0, 0, 0, 1, false), "b" := Entry(1, 0, 0, 1, false)]
    && w.now == 1000
  }

  lemma BothGivenBack(w: World, lim: Limits, oks: nat -> Health)
    requires w == World(Create(Create(EMPTY, "a", 0), "b", 0), map[0 := Grip("a", 0), 1 := Grip("b", 1)], 2, 0)
    ensures TwoIdle(Next(Next(Next(w, GiveBack(0), lim, oks(2)), GiveBack(1), lim, oks(3)), Tick(1000), lim, oks(4)))
  {
    hide Uses, Cleanup, CloseAll, Get;
    var w1 := Next(w, GiveBack(0), lim, oks(2));
    assert w1.pool.entries == map["a" := Entry(0, 0, 0, 1, false), "b" := Entry(1, 0, 0, 1, true)];
    assert w1.held[1] == Grip("b", 1);
  }

  lemma ReuseAboveLimit(w: World, lim: Limits, ok: Health)
    requires TwoIdle(w) && lim == Limits(1, 300, 3600) && forall id :: ok(id)
    ensures var q := Next(w, Request("a", true), lim, ok).pool;
            && Reuses(w.pool, "a", lim, w.now, ok)
            && |q.entries| > 1 && "b" in q.entries && IsStale(q.entries["b"], lim, w.now, ok)
  {
    hide Uses, BeforeConnect, Create;
    var q := Next(w, Request("a", true), lim, ok).pool;
    assert q.entries.Keys == {"a", "b"};
  }

  /** A run in which a reusing get leaves the pool above its limit with a stale entry in it. */
  lemma ReuseLeavesStale(oks: nat -> Health)
    requires forall i, id :: oks(i)(id)
    ensures var lim := Limits(1, 300, 3600);
            var ss := [Request("a", true), Request("b", true)] + [GiveBack(0)] + [GiveBack(1)] + [Tick(1000)];
            var w := Reach(ss, lim, oks);
            var q := Reach(ss + [Request("a", true)], lim, oks).pool;
            && Reuses(w.pool, "a", lim, w.now, oks(5)) && |q.entries| > lim.maxConnections
            && "b" in q.entries && IsStale(q.entries["b"], lim, w.now, oks(5))
  {
    hide *;
    var lim := Limits(1, 300, 3600);
    var s2 := [Request("a", true), Request("b", true)];
    var s3 := s2 + [GiveBack(0)];
    var s4 := s3 + [GiveBack(1)];
    var s5 := s4 + [Tick(1000)];
    TwoCreated(lim, oks);
    ReachOneMore(s2, GiveBack(0), lim, oks);
    ReachOneMore(s3, GiveBack(1), lim, oks);
    ReachOneMore(s4, Tick(1000), lim, oks);
    ReachOneMore(s5, Request("a", true), lim, oks);
    BothGivenBack(Reach(s2, lim, oks), lim, oks);
    ReuseAboveLimit(Reach(s5, lim, oks), lim, oks(5));
  }

  lemma FirstOfKey(k: Key, lim: Limits, ok: Health)
    ensures Next(FRESH_WORLD, Request(k, true), lim, ok) == World(Create(EMPTY, k, 0), map[0 := Grip(k, 0)], 1, 0)
  {
    hide Get, Cleanup, Uses;
    PlainCreate(FRESH_WORLD, k, lim, ok);
  }

  lemma SecondOfKey(k: Key, lim: Limits, ok: Health)
    requires lim.maxAge > 0 && ok(0)
    ensures var w := World(Create(EMPTY, k, 0), map[0 := Grip(k, 0)], 1, 0);
            Next(w, Request(k, true), lim, ok) ==
            World(Create(w.pool, k, 0), map[0 := Grip(k, 0)][1 := Grip(k, 1)], 2, 0)
  {
    hide Get, Cleanup, Uses;
    PlainCreate(World(Create(EMPTY, k, 0), map[0 := Grip(k, 0)], 1, 0), k, lim, ok);
  }

  /** The discipline is needed: a second request for a held key, one release, a third request, and two
      clients hold the same connection. */
  lemma RequestWhileHeldSharesConnection(lim: Limits, k: Key, oks: nat -> Health)
    requires lim.maxAge > 0 && forall i, id :: oks(i)(id)
    ensures var ss := [Request(k, true)] + [Request(k, true)] + [GiveBack(0)] + [Request(k, true)];
            var w := Reach(ss, lim, oks);
            1 in w.held && 2 in w.held && w.held[1] == w.held[2] && w.pool.displaced == 1
  {
    hide *;
    var r := Request(k, true);
    var s1 := [r];
    var s2 := s1 + [r];
    var s3 := s2 + [GiveBack(0)];
    ReachNothing(lim, oks);
    ReachOneMore([], r, lim, oks);
    assert [] + [r] == s1;
    ReachOneMore(s1, r, lim, oks);
    ReachOneMore(s2, GiveBack(0), lim, oks);
    ReachOneMore(s3, r, lim, oks);
    FirstOfKey(k, lim, oks(0));
    SecondOfKey(k, lim, oks(1));
    SharedAfterRelease(Reach(s1, lim, oks), k, lim, oks(1), oks(2), oks(3));
  }

  lemma SharedAfterRelease(w1: World, k: Key, lim: Limits, ok1: Health, ok2: Health, ok3: Health)
    requires w1 == World(Create(EMPTY, k, 0), map[0 := Grip(k, 0)], 1, 0)
    requires lim.maxAge > 0 && ok1(0) && ok3(1)
    requires Next(w1, Request(k, true), lim, ok1) ==
             World(Create(w1.pool, k, 0), map[0 := Grip(k, 0)][1 := Grip(k, 1)], 2, 0)
    ensures var w2 := Next(w1, Request(k, true), lim, ok1);
            var w := Next(Next(w2, GiveBack(0), lim, ok2), Request(k, true), lim, ok3);
            1 in w.held && 2 in w.held && w.held[1] == w.held[2] && w.pool.displaced == 1
  {
    hide Uses, Cleanup, CloseAll, BeforeConnect;
    var w2 := World(Create(w1.pool, k, 0), map[0 := Grip(k, 0)][1 := Grip(k, 1)], 2, 0);
    var w3 := Next(w2, GiveBack(0), lim, ok2);
    assert w3.pool.entries[k] == Entry(1, 0, 0, 1, false) && w3.held[1] == Grip(k, 1);
    assert Reuses(w3.pool, k, lim, 0, ok3);
  }
}
