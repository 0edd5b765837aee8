/** The pool of forwarding connections: slots reserved under a lock, connections made outside it. */
module ConnectionPool {

  datatype Conn = Conn(socket: nat, lastUsed: int)

  /** One remote target's connections. */
  datatype Pool = Pool(idle: seq<Conn>, inUse: int)

  datatype Taken = Reuse(socket: nat) | Reserve | Temporary

  // ---------------------------------------------------------------------------
  // The critical sections
  // ---------------------------------------------------------------------------

  /** How many idle connections there are up to and including the last healthy one. */
  function Usable(idle: seq<Conn>, healthy: set<nat>): (u: nat)
    ensures u <= |idle|
    ensures u > 0 ==> idle[u - 1].socket in healthy
    ensures forall i :: u <= i < |idle| ==> idle[i].socket !in healthy
  {
    if idle == [] then 0
    else if idle[|idle| - 1].socket in healthy then |idle|
    else Usable(idle[..|idle| - 1], healthy)
  }

  /** The most recently returned healthy connection, else a new one if there is room, else one outside the pool. */
  function TakeFrom(p: Pool, max: int, healthy: set<nat>): (Pool, Taken) {
    var u := Usable(p.idle, healthy);
    if u > 0 then (Pool(p.idle[..u - 1], p.inUse + 1), Reuse(p.idle[u - 1].socket))
    else if p.inUse < max then (Pool([], p.inUse + 1), Reserve)
    else (Pool([], p.inUse), Temporary)
  }

  ghost predicate AnyHealthy(idle: seq<Conn>, healthy: set<nat>) {
    exists i :: 0 <= i < |idle| && idle[i].socket in healthy
  }

  /** This is the last healthy one. */
  ghost predicate LastHealthy(idle: seq<Conn>, healthy: set<nat>, u: nat) {
    u < |idle| && idle[u].socket in healthy && forall i :: u < i < |idle| ==> idle[i].socket !in healthy
  }

  /** What taking a connection must come to: the last healthy idle one, those after it destroyed; with
      none, a slot while fewer than `max` are in use; and otherwise a connection the pool does not count. */
  ghost predicate TakesRightly(p: Pool, max: int, healthy: set<nat>, q: Pool, t: Taken) {
    match t
    case Reuse(x) =>
      LastHealthy(p.idle, healthy, |q.idle|) && x == p.idle[|q.idle|].socket && q == Pool(p.idle[..|q.idle|],
          p.inUse + 1)
    case Reserve => !AnyHealthy(p.idle, healthy) && p.inUse < max && q == Pool([], p.inUse + 1)
    case Temporary => !AnyHealthy(p.idle, healthy) && p.inUse >= max && q == Pool([], p.inUse)
  }

  /** And it comes to exactly one of the three. */
  lemma TakeDecides(p: Pool, max: int, healthy: set<nat>)
    ensures var (q, t) := TakeFrom(p, max, healthy);
      && TakesRightly(p, max, healthy, q, t)
      && (t.Reuse? <==> AnyHealthy(p.idle, healthy))
      && (t.Reserve? <==> !AnyHealthy(p.idle, healthy) && p.inUse < max)
      && (t.Temporary? <==> !AnyHealthy(p.idle, healthy) && p.inUse >= max)
  {
    var u := Usable(p.idle, healthy);
    if u > 0 { assert LastHealthy(p.idle, healthy, u - 1); }
  }

  /** The connections a sweep spares. */
  function Spared(idle: seq<Conn>, now: int, timeout: int): seq<Conn> {
    if idle == [] then []
    else
      var n := |idle| - 1;
      Spared(idle[..n], now, timeout) + if now - idle[n].lastUsed > timeout then [] else [idle[n]]
  }

  /** Sparing looks at each connection by itself, and keeps their order. */
  lemma {:induction false} SparedSplits(a: seq<Conn>, b: seq<Conn>, now: int, timeout: int)
    ensures Spared(a + b, now, timeout) == Spared(a, now, timeout) + Spared(b, now, timeout)
    decreases |b|
  {
    if b == [] {
      assert a + b == a;
    } else {
      var n := |b| - 1;
      assert (a + b)[..|a| + n] == a + b[..n];
      SparedSplits(a, b[..n], now, timeout);
    }
  }

  lemma SparedOne(x: Conn, now: int, timeout: int)
    ensures Spared([x], now, timeout) == if now - x.lastUsed <= timeout then [x] else []
  {
  }

  class RemotePool {
    const maxSize: int
    var idle: seq<Conn>
    var inUse: int

    constructor (maxSize: int)
      ensures this.maxSize == maxSize && Value() == Pool([], 0)
    {
      this.maxSize := maxSize;
      idle, inUse := [], 0;
    }

    function Value(): Pool reads this { Pool(idle, inUse) }

    method Take(healthy: set<nat>) returns (t: Taken, destroyed: seq<Conn>)
      modifies this
      ensures (Value(), t) == TakeFrom(old(Value()), maxSize, healthy)
      ensures TakesRightly(old(Value()), maxSize, healthy, Value(), t)
      ensures t.Reuse? <==> AnyHealthy(old(idle), healthy)
      ensures t.Reserve? <==> !AnyHealthy(old(idle), healthy) && old(inUse) < maxSize
      ensures destroyed == old(idle)[Usable(old(idle), healthy)..]
    {
      TakeDecides(Value(), maxSize, healthy);
      destroyed := [];
      ghost var all := idle;
      while idle != []
        invariant idle + destroyed == all && inUse == old(inUse)
        invariant Usable(all, healthy) == Usable(idle, healthy)
        decreases |idle|
      {
        var conn := idle[|idle| - 1];
        assert idle == idle[..|idle| - 1] + [conn];
        idle := idle[..|idle| - 1];
        if conn.socket in healthy {
          inUse := inUse + 1;
          assert all[|idle|..] == [conn] + destroyed;
          assert all[..|idle|] == idle;
          return Reuse(conn.socket), destroyed;
        }
        destroyed := [conn] + destroyed;
      }
      if inUse < maxSize {
        inUse := inUse + 1;
        return Reserve, destroyed;
      }
      return Temporary, destroyed;
    }

    method PutBack(c: Conn)
      modifies this
      ensures Value() == Pool(old(idle) + [c], old(inUse) - 1)
    {
      inUse := inUse - 1;
      idle := idle + [c];
    }

    method Sweep(now: int, timeout: int)
      modifies this`idle
      ensures idle == Spared(old(idle), now, timeout)
    {
      var survivors := [];
      for i := 0 to |idle|
        invariant survivors == Spared(idle[..i], now, timeout)
      {
        assert idle[..i + 1][..i] == idle[..i];
        if now - idle[i].lastUsed <= timeout { survivors := survivors + [idle[i]]; }
      }
      assert idle[..|idle|] == idle;
      idle := survivors;
    }
  }

  // ---------------------------------------------------------------------------
  // Many callers
  // ---------------------------------------------------------------------------

  type Key = string

  /** Where a call of forward_publish stands. */
  datatype Phase =
    | Starting
    | Connecting
    | Opened(socket: nat)
    | Using(socket: nat)
    | Giving
    | Done

  /** `pooled` says that a slot of the target's pool is counted for this call. */
  datatype Caller = Caller(key: Key, phase: Phase, pooled: bool)

  datatype Place = Idle(key: Key) | With(caller: nat)

  /** `live` holds every socket made and not destroyed, and where it is. */
  datatype System = System(pools: map<Key, Pool>, callers: map<nat, Caller>, live: map<nat, Place>, next: nat)

  datatype Action =
    | Begin(c: nat, key: Key)
    | Acquire(c: nat, healthy: set<nat>)
    | Create(c: nat, ok: bool)
    | Connect(c: nat, ok: bool)
    | Rollback(c: nat)
    | PutBack(c: nat, now: int)
    | Destroy(c: nat)
    | Sweep(key: Key, now: int, timeout: int)

  predicate Enabled(s: System, a: Action) {
    match a
    case Begin(c, _) => c !in s.callers
    case Sweep(k, _, _) => k in s.pools
    case _ => a.c in s.callers && s.callers[a.c].key in s.pools && Possible(s.callers[a.c], a)
  }

  predicate Possible(c: Caller, a: Action) {
    match a
    case Acquire(_, _) => c.phase.Starting?
    case Create(_, _) => c.phase.Connecting?
    case Connect(_, _) => c.phase.Opened?
    case Rollback(_) => c.phase.Giving?
    case PutBack(_, _) => c.phase.Using? && c.pooled
    case Destroy(_) => c.phase.Using?
    case _ => false
  }

  function Sockets(l: seq<Conn>): set<nat> { set i | 0 <= i < |l| :: l[i].socket }

  function Step(s: System, c: nat, to: Caller): System { s.(callers := s.callers[c := to]) }

  /** A pool for the target is there before its lock is taken. */
  function Opening(s: System, k: Key): map<Key, Pool> {
    if k in s.pools then s.pools else s.pools[k := Pool([], 0)]
  }

  function Next(max: int, s: System, a: Action): System
    requires Enabled(s, a)
  {
    match a
    case Begin(c, k) => Step(s, c, Caller(k, Starting, false)).(pools := Opening(s, k))
    case Acquire(c, healthy) =>
      var k := s.callers[c].key;
      var p := s.pools[k];
      var (q, t) := TakeFrom(p, max, healthy);
      var gone := s.live - Sockets(p.idle[Usable(p.idle, healthy)..]);
      (match t
       case Reuse(x) => Step(s, c, Caller(k, Using(x), true)).(pools := s.pools[k := q], live := gone[x := With(c)])
       case Reserve => Step(s, c, Caller(k, Connecting, true)).(pools := s.pools[k := q], live := gone)
       case Temporary => Step(s, c, Caller(k, Connecting, false)).(pools := s.pools[k := q], live := gone))
    case Create(c, ok) =>
      var me := s.callers[c];
      if ok then Step(s, c, me.(phase := Opened(s.next))).(live := s.live[s.next := With(c)], next := s.next + 1)
      else Step(s, c, me.(phase := Giving))
    case Connect(c, ok) =>
      var me := s.callers[c];
      if ok then Step(s, c, me.(phase := Using(me.phase.socket)))
      else Step(s, c, me.(phase := Giving)).(live := s.live - {me.phase.socket})
    case Rollback(c) =>
      var me := s.callers[c];
      var p := s.pools[me.key];
      Step(s, c, Caller(me.key, Done, false)).(pools := s.pools[me.key := if me.pooled
          then p.(inUse := p.inUse - 1) else p])
    case PutBack(c, now) =>
      var me := s.callers[c];
      var p := s.pools[me.key];
      Step(s, c, Caller(me.key, Done, false)).(
        pools := s.pools[me.key := Pool(p.idle + [Conn(me.phase.socket, now)], p.inUse - 1)],
        live := s.live[me.phase.socket := Idle(me.key)])
    case Destroy(c) =>
      var me := s.callers[c];
      Step(s, c, me.(phase := Giving)).(live := s.live - {me.phase.socket})
    case Sweep(k, now, timeout) =>
      var p := s.pools[k];
      var kept := Spared(p.idle, now, timeout);
      s.(pools := s.pools[k := p.(idle := kept)], live := s.live - (Sockets(p.idle) - Sockets(kept)))
  }

  /** A call that takes from its target's pool is using the connection it found, or makes one, counted
      by the pool exactly when it found or reserved it. */
  lemma AcquireDecides(max: int, s: System, c: nat, healthy: set<nat>)
    requires Enabled(s, Acquire(c, healthy))
    ensures var k := s.callers[c].key; var s', p := Next(max, s, Acquire(c, healthy)), s.pools[k];
      && k in s'.pools && c in s'.callers
      && var me, q := s'.callers[c], s'.pools[k];
      && me.key == k && (me.pooled <==> AnyHealthy(p.idle, healthy) || p.inUse < max)
      && q.inUse == p.inUse + (if me.pooled then 1 else 0)
      && (me.phase.Using? <==> AnyHealthy(p.idle, healthy)) && (me.phase.Connecting? <==> !AnyHealthy(p.idle, healthy))
      && (me.phase.Using? ==>
            && LastHealthy(p.idle, healthy, |q.idle|)
            && me.phase.socket == p.idle[|q.idle|].socket && q.idle == p.idle[..|q.idle|])
      && (me.phase.Connecting? ==> q.idle == [])
  {
    TakeDecides(s.pools[s.callers[c].key], max, healthy);
  }

  /** A call that gives its connection back leaves it the latest idle one of its pool, and its slot free;
      and one that gives up a slot it had reserved or used leaves the idle ones alone. */
  lemma GiveBackDecides(max: int, s: System, a: Action)
    requires Enabled(s, a) && (a.PutBack? || a.Rollback?)
    ensures var me := s.callers[a.c]; var s', p := Next(max, s, a), s.pools[me.key];
      && me.key in s'.pools && a.c in s'.callers && s'.callers[a.c] == Caller(me.key, Done, false)
      && (a.PutBack? ==> s'.pools[me.key] == Pool(p.idle + [Conn(me.phase.socket, a.now)], p.inUse - 1))
      && (a.Rollback? ==> s'.pools[me.key] == Pool(p.idle, p.inUse - if me.pooled then 1 else 0))
      && (forall k :: k in s.pools && k != me.key ==> k in s'.pools && s'.pools[k] == s.pools[k])
  {
  }

  // ---------------------------------------------------------------------------
  // What every step keeps
  // ---------------------------------------------------------------------------

  /** The calls a target's pool counts. */
  function Holders(callers: map<nat, Caller>, k: Key): set<nat> {
    set c | c in callers && callers[c].pooled && callers[c].key == k
  }

  lemma HoldersMoved(callers: map<nat, Caller>, c: nat, to: Caller, k: Key)
    requires c in callers ==> callers[c].key == to.key
    ensures var was := c in callers && callers[c].pooled && to.key == k;
      var now := to.pooled && to.key == k;
      |Holders(callers[c := to], k)| == |Holders(callers, k)| + (if now then 1 else 0) - (if was then 1 else 0)
  {
    var rest := Holders(callers, k) - {c};
    assert Holders(callers, k) == if c in Holders(callers, k) then rest + {c} else rest;
    assert Holders(callers[c := to], k) == if to.pooled && to.key == k then rest + {c} else rest;
  }

  /** in_use_count is exact and, with the idle connections, within the limit. */
  ghost predicate SlotOk(max: int, p: Pool, held: nat) {
    p.inUse == held && (|p.idle| + p.inUse == 0 || |p.idle| + p.inUse <= max)
  }

  ghost predicate SlotsOk(max: int, pools: map<Key, Pool>, callers: map<nat, Caller>) {
    && (forall c :: c in callers ==>
          callers[c].key in pools && (callers[c].phase.Starting? || callers[c].phase.Done? ==> !callers[c].pooled))
    && (forall k :: k in pools ==> SlotOk(max, pools[k], |Holders(callers, k)|))
  }

  lemma {:induction false} SparedLength(idle: seq<Conn>, now: int, timeout: int)
    ensures |Spared(idle, now, timeout)| <= |idle|
  {
    if idle != [] { SparedLength(idle[..|idle| - 1], now, timeout); }
  }

  /** One pool and one of its callers change together. */
  lemma SlotsMoved(max: int, pools: map<Key, Pool>, callers: map<nat, Caller>, c: nat, to: Caller, q: Pool)
    requires SlotsOk(max, pools, callers) && to.key in pools && (c in callers ==> callers[c].key == to.key)
    requires to.phase.Starting? || to.phase.Done? ==> !to.pooled
    requires var p := pools[to.key]; var was := c in callers && callers[c].pooled;
      && q.inUse == p.inUse + (if to.pooled then 1 else 0) - (if was then 1 else 0)
      && (|q.idle| + q.inUse == 0 || |q.idle| + q.inUse <= max)
    ensures SlotsOk(max, pools[to.key := q], callers[c := to])
  {
    var qs := pools[to.key := q];
    forall k | k in qs ensures SlotOk(max, qs[k], |Holders(callers[c := to], k)|) {
      HoldersMoved(callers, c, to, k);
      assert SlotOk(max, pools[k], |Holders(callers, k)|);
    }
  }

  lemma NewPool(max: int, pools: map<Key, Pool>, callers: map<nat, Caller>, k: Key)
    requires SlotsOk(max, pools, callers) && k !in pools
    ensures SlotsOk(max, pools[k := Pool([], 0)], callers)
  {
    assert Holders(callers, k) == {};
  }

  lemma HoldersCount(callers: map<nat, Caller>, c: nat)
    requires c in callers && callers[c].pooled
    ensures |Holders(callers, callers[c].key)| >= 1
  {
    assert c in Holders(callers, callers[c].key);
  }

  lemma AcquireSlots(max: int, s: System, a: Action)
    requires SlotsOk(max, s.pools, s.callers) && Enabled(s, a) && a.Acquire?
    ensures var t := Next(max, s, a); SlotsOk(max, t.pools, t.callers)
  {
    var t, k := Next(max, s, a), s.callers[a.c].key;
    assert SlotOk(max, s.pools[k], |Holders(s.callers, k)|);
    SlotsMoved(max, s.pools, s.callers, a.c, t.callers[a.c], t.pools[k]);
  }

  /** A call that changes no pool, or gives its slot back. */
  lemma CallSlots(max: int, s: System, a: Action)
    requires SlotsOk(max, s.pools, s.callers) && Enabled(s, a) && !a.Begin? && !a.Sweep? && !a.Acquire?
    ensures var t := Next(max, s, a); SlotsOk(max, t.pools, t.callers)
  {
    var t, k := Next(max, s, a), s.callers[a.c].key;
    assert SlotOk(max, s.pools[k], |Holders(s.callers, k)|);
    if s.callers[a.c].pooled { HoldersCount(s.callers, a.c); }
    assert t.callers == s.callers[a.c := t.callers[a.c]];
    assert t.pools == s.pools[k := t.pools[k]];
    SlotsMoved(max, s.pools, s.callers, a.c, t.callers[a.c], t.pools[k]);
  }

  lemma BeginSlots(max: int, s: System, a: Action)
    requires SlotsOk(max, s.pools, s.callers) && Enabled(s, a) && a.Begin?
    ensures var t := Next(max, s, a); SlotsOk(max, t.pools, t.callers)
  {
    var t := Next(max, s, a);
    if a.key !in s.pools { NewPool(max, s.pools, s.callers, a.key); }
    assert SlotOk(max, t.pools[a.key], |Holders(s.callers, a.key)|);
    SlotsMoved(max, t.pools, s.callers, a.c, t.callers[a.c], t.pools[a.key]);
    assert t.pools[a.key := t.pools[a.key]] == t.pools;
  }

  lemma StepSlots(max: int, s: System, a: Action)
    requires SlotsOk(max, s.pools, s.callers) && Enabled(s, a)
    ensures var t := Next(max, s, a); SlotsOk(max, t.pools, t.callers)
  {
    if a.Begin? { BeginSlots(max, s, a); }
    else if a.Acquire? { AcquireSlots(max, s, a); }
    else if a.Sweep? {
      SparedLength(s.pools[a.key].idle, a.now, a.timeout);
      assert SlotOk(max, s.pools[a.key], |Holders(s.callers, a.key)|);
    }
    else { CallSlots(max, s, a); }
  }

  predicate HasSocket(c: Caller, x: nat) {
    (c.phase.Opened? || c.phase.Using?) && c.phase.socket == x
  }

  ghost predicate Distinct(l: seq<Conn>) {
    forall i, j :: 0 <= i < j < |l| ==> l[i].socket != l[j].socket
  }

  /** The idle list of a target holds sockets recorded as idle there, each once. */
  ghost predicate IdleOk(k: Key, l: seq<Conn>, live: map<nat, Place>) {
    Distinct(l) && forall i :: 0 <= i < |l| ==> l[i].socket in live && live[l[i].socket] == Idle(k)
  }

  /** A live socket is where it is recorded to be. */
  ghost predicate PlaceOk(x: nat, at: Place, pools: map<Key, Pool>, callers: map<nat, Caller>) {
    match at
    case Idle(k) => k in pools && x in Sockets(pools[k].idle)
    case With(c) => c in callers && HasSocket(callers[c], x)
  }

  ghost predicate PlacesOk(s: System) {
    && (forall k :: k in s.pools ==> IdleOk(k, s.pools[k].idle, s.live))
    && (forall c, x :: c in s.callers && HasSocket(s.callers[c], x) ==> x in s.live && s.live[x] == With(c))
    && (forall x :: x in s.live ==> x < s.next && PlaceOk(x, s.live[x], s.pools, s.callers))
  }

  /** Destroying idle connections of one target. */
  lemma Shrunk(s: System, k: Key, q: Pool)
    requires PlacesOk(s) && k in s.pools && Distinct(q.idle) && Sockets(q.idle) <= Sockets(s.pools[k].idle)
    ensures PlacesOk(s.(pools := s.pools[k := q], live := s.live - (Sockets(s.pools[k].idle) - Sockets(q.idle))))
  {
    var p, gone := s.pools[k], Sockets(s.pools[k].idle) - Sockets(q.idle);
    var t := s.(pools := s.pools[k := q], live := s.live - gone);
    forall x | x in gone ensures x in s.live && s.live[x] == Idle(k) {
      var i :| 0 <= i < |p.idle| && p.idle[i].socket == x;
    }
    forall i | 0 <= i < |q.idle| ensures q.idle[i].socket in t.live && t.live[q.idle[i].socket] == Idle(k) {
      assert q.idle[i].socket in Sockets(q.idle);
      var j :| 0 <= j < |p.idle| && p.idle[j].socket == q.idle[i].socket;
    }
    forall m | m in t.pools ensures IdleOk(m, t.pools[m].idle, t.live) {
      if m != k { assert IdleOk(m, s.pools[m].idle, s.live); }
    }
    forall x | x in t.live ensures x < t.next && PlaceOk(x, t.live[x], t.pools, t.callers) {
      assert PlaceOk(x, s.live[x], s.pools, s.callers);
    }
  }

  /** An idle connection handed to a caller without one. */
  lemma HandedOut(s: System, k: Key, q: Pool, c: nat, to: Caller, conn: Conn)
    requires PlacesOk(s) && k in s.pools && c in s.callers && (forall y :: !HasSocket(s.callers[c], y))
    requires s.pools[k].idle == q.idle + [conn] && to.phase == Using(conn.socket)
    ensures PlacesOk(s.(pools := s.pools[k := q], callers := s.callers[c := to],
        live := s.live[conn.socket := With(c)]))
  {
    var p, x := s.pools[k], conn.socket;
    var t := s.(pools := s.pools[k := q], callers := s.callers[c := to], live := s.live[x := With(c)]);
    assert IdleOk(k, p.idle, s.live) && p.idle[|q.idle|].socket == x;
    forall m | m in t.pools ensures IdleOk(m, t.pools[m].idle, t.live) {
      assert IdleOk(m, s.pools[m].idle, s.live);
      if m == k { assert forall i :: 0 <= i < |q.idle| ==> q.idle[i] == p.idle[i]; }
    }
    forall y | y in t.live ensures y < t.next && PlaceOk(y, t.live[y], t.pools, t.callers) {
      assert PlaceOk(y, s.live[y], s.pools, s.callers);
      if y != x && s.live[y] == Idle(k) {
        var i :| 0 <= i < |p.idle| && p.idle[i].socket == y;
        assert i < |q.idle| && q.idle[i].socket == y;
      }
    }
  }

  /** A caller that has no socket before or after, and a pool that keeps its idle list. */
  lemma Unmoved(s: System, k: Key, q: Pool, c: nat, to: Caller)
    requires PlacesOk(s) && k in s.pools && q.idle == s.pools[k].idle
    requires (c in s.callers ==> forall x :: !HasSocket(s.callers[c], x)) && (forall x :: !HasSocket(to, x))
    ensures PlacesOk(s.(pools := s.pools[k := q], callers := s.callers[c := to]))
  {
    var t := s.(pools := s.pools[k := q], callers := s.callers[c := to]);
    forall m | m in t.pools ensures IdleOk(m, t.pools[m].idle, t.live) {
      assert IdleOk(m, s.pools[m].idle, s.live);
    }
    forall x | x in t.live ensures x < t.next && PlaceOk(x, t.live[x], t.pools, t.callers) {
      assert PlaceOk(x, s.live[x], s.pools, s.callers);
    }
  }

  lemma {:induction false} SparedSubset(idle: seq<Conn>, now: int, timeout: int)
    requires Distinct(idle)
    ensures Distinct(Spared(idle, now, timeout)) && Sockets(Spared(idle, now, timeout)) <= Sockets(idle)
  {
    if idle != [] {
      var n := |idle| - 1;
      var kept := Spared(idle[..n], now, timeout);
      SparedSubset(idle[..n], now, timeout);
      forall i | 0 <= i < |kept| ensures kept[i].socket in Sockets(idle) && kept[i].socket != idle[n].socket {
        assert kept[i].socket in Sockets(kept);
        var j :| 0 <= j < n && idle[..n][j].socket == kept[i].socket;
        assert idle[j].socket == kept[i].socket;
      }
      forall x | x in Sockets(Spared(idle, now, timeout)) ensures x in Sockets(idle) {
        if x !in Sockets(kept) { assert x == idle[n].socket; }
      }
    }
  }

  lemma PrefixSockets(l: seq<Conn>, u: nat)
    requires Distinct(l) && u <= |l|
    ensures Distinct(l[..u]) && Sockets(l[..u]) <= Sockets(l) && Sockets(l[u..]) == Sockets(l) - Sockets(l[..u])
  {
    forall x | x in Sockets(l[..u]) ensures x in Sockets(l) && x !in Sockets(l[u..]) {
      var i :| 0 <= i < u && l[..u][i].socket == x;
      assert l[i].socket == x;
    }
    forall x | x in Sockets(l[u..]) ensures x in Sockets(l) {
      var i :| 0 <= i < |l| - u && l[u..][i].socket == x;
      assert l[u + i].socket == x;
    }
    forall x | x in Sockets(l) ensures x in Sockets(l[..u]) || x in Sockets(l[u..]) {
      var i :| 0 <= i < |l| && l[i].socket == x;
      if i < u { assert l[..u][i].socket == x; } else { assert l[u..][i - u].socket == x; }
    }
  }

  lemma AcquirePlaces(max: int, s: System, a: Action)
    requires PlacesOk(s) && Enabled(s, a) && a.Acquire?
    ensures PlacesOk(Next(max, s, a))
  {
    var k := s.callers[a.c].key;
    var p := s.pools[k];
    var u := Usable(p.idle, a.healthy);
    assert IdleOk(k, p.idle, s.live);
    PrefixSockets(p.idle, u);
    var q, r := p.(idle := p.idle[..u]), TakeFrom(p, max, a.healthy).0;
    Shrunk(s, k, q);
    var m := s.(pools := s.pools[k := q], live := s.live - Sockets(p.idle[u..]));
    var t := Next(max, s, a);
    assert m.pools[k := r] == s.pools[k := r];
    if u > 0 {
      assert q.idle == r.idle + [p.idle[u - 1]];
      HandedOut(m, k, r, a.c, t.callers[a.c], p.idle[u - 1]);
    } else {
      assert q.idle == r.idle == [];
      Unmoved(m, k, r, a.c, t.callers[a.c]);
    }
  }

  /** A caller's socket becomes the newest idle one. */
  lemma Returned(s: System, k: Key, q: Pool, c: nat, to: Caller, conn: Conn)
    requires PlacesOk(s) && k in s.pools && c in s.callers && HasSocket(s.callers[c], conn.socket)
    requires q.idle == s.pools[k].idle + [conn] && (forall x :: !HasSocket(to, x))
    ensures PlacesOk(s.(pools := s.pools[k := q], callers := s.callers[c := to],
        live := s.live[conn.socket := Idle(k)]))
  {
    var t := s.(pools := s.pools[k := q], callers := s.callers[c := to], live := s.live[conn.socket := Idle(k)]);
    var p, x := s.pools[k], conn.socket;
    assert x in s.live && s.live[x] == With(c);
    forall m | m in t.pools ensures IdleOk(m, t.pools[m].idle, t.live) {
      assert IdleOk(m, s.pools[m].idle, s.live);
    }
    forall y | y in t.live ensures y < t.next && PlaceOk(y, t.live[y], t.pools, t.callers) {
      assert PlaceOk(y, s.live[y], s.pools, s.callers);
      if y == x {
        assert q.idle[|p.idle|].socket == x;
      } else if s.live[y] == Idle(k) {
        var i :| 0 <= i < |p.idle| && p.idle[i].socket == y;
        assert q.idle[i].socket == y;
      }
    }
  }

  lemma Made(s: System, c: nat, to: Caller)
    requires PlacesOk(s) && c in s.callers && (forall x :: !HasSocket(s.callers[c], x)) && to.phase == Opened(s.next)
    ensures PlacesOk(s.(callers := s.callers[c := to], live := s.live[s.next := With(c)], next := s.next + 1))
  {
    var t := s.(callers := s.callers[c := to], live := s.live[s.next := With(c)], next := s.next + 1);
    forall d, y | d in t.callers && HasSocket(t.callers[d], y) ensures y in t.live && t.live[y] == With(d) {
      if d != c { assert HasSocket(s.callers[d], y) && y in s.live; }
    }
    forall m | m in t.pools ensures IdleOk(m, t.pools[m].idle, t.live) {
      assert IdleOk(m, s.pools[m].idle, s.live);
    }
    forall y | y in t.live ensures y < t.next && PlaceOk(y, t.live[y], t.pools, t.callers) {
      if y != s.next { assert PlaceOk(y, s.live[y], s.pools, s.callers); }
    }
  }

  lemma Destroyed(s: System, c: nat, to: Caller, x: nat)
    requires PlacesOk(s) && c in s.callers && HasSocket(s.callers[c], x) && (forall y :: !HasSocket(to, y))
    ensures PlacesOk(s.(callers := s.callers[c := to], live := s.live - {x}))
  {
    var t := s.(callers := s.callers[c := to], live := s.live - {x});
    assert x in s.live && s.live[x] == With(c);
    forall d, y | d in t.callers && HasSocket(t.callers[d], y) ensures y in t.live && t.live[y] == With(d) {
      if d != c { assert HasSocket(s.callers[d], y) && y in s.live; }
    }
    forall m | m in t.pools ensures IdleOk(m, t.pools[m].idle, t.live) {
      assert IdleOk(m, s.pools[m].idle, s.live);
    }
    forall y | y in t.live ensures y < t.next && PlaceOk(y, t.live[y], t.pools, t.callers) {
      assert PlaceOk(y, s.live[y], s.pools, s.callers);
    }
  }

  lemma Kept(s: System, c: nat, to: Caller)
    requires PlacesOk(s) && c in s.callers && (forall x :: HasSocket(s.callers[c], x) == HasSocket(to, x))
    ensures PlacesOk(s.(callers := s.callers[c := to]))
  {
    forall y | y in s.live ensures PlaceOk(y, s.live[y], s.pools, s.callers[c := to]) {
      assert PlaceOk(y, s.live[y], s.pools, s.callers);
    }
  }

  lemma BeginPlaces(max: int, s: System, a: Action)
    requires PlacesOk(s) && Enabled(s, a) && a.Begin?
    ensures PlacesOk(Next(max, s, a))
  {
    var m := s.(pools := Opening(s, a.key));
    assert PlacesOk(m);
    Unmoved(m, a.key, m.pools[a.key], a.c, Caller(a.key, Starting, false));
    assert m.pools[a.key := m.pools[a.key]] == m.pools;
  }

  lemma StepPlaces(max: int, s: System, a: Action)
    requires PlacesOk(s) && Enabled(s, a)
    ensures PlacesOk(Next(max, s, a))
  {
    match a {
      case Begin(_, _) => BeginPlaces(max, s, a);
      case Acquire(_, _) => AcquirePlaces(max, s, a);
      case PutBack(_, now) => PutBackPlaces(max, s, a);
      case Sweep(_, _, _) => SweepPlaces(max, s, a);
      case _ => OwnPlaces(max, s, a);
    }
  }

  lemma PutBackPlaces(max: int, s: System, a: Action)
    requires PlacesOk(s) && Enabled(s, a) && a.PutBack?
    ensures PlacesOk(Next(max, s, a))
  {
    var me := s.callers[a.c];
    var p := s.pools[me.key];
    var conn := Conn(me.phase.socket, a.now);
    Returned(s, me.key, Pool(p.idle + [conn], p.inUse - 1), a.c, Caller(me.key, Done, false), conn);
  }

  lemma SweepPlaces(max: int, s: System, a: Action)
    requires PlacesOk(s) && Enabled(s, a) && a.Sweep?
    ensures PlacesOk(Next(max, s, a))
  {
    var p := s.pools[a.key];
    assert IdleOk(a.key, p.idle, s.live);
    SparedSubset(p.idle, a.now, a.timeout);
    Shrunk(s, a.key, p.(idle := Spared(p.idle, a.now, a.timeout)));
  }

  /** A caller on its own: it makes, keeps or destroys its socket, or gives a slot back. */
  lemma OwnPlaces(max: int, s: System, a: Action)
    requires PlacesOk(s) && Enabled(s, a) && (a.Create? || a.Connect? || a.Destroy? || a.Rollback?)
    ensures PlacesOk(Next(max, s, a))
  {
    var t, me := Next(max, s, a), s.callers[a.c];
    var to := t.callers[a.c];
    match a {
      case Create(_, ok) => if ok { Made(s, a.c, to); } else { Kept(s, a.c, to); }
      case Connect(_, ok) => if ok { Kept(s, a.c, to); } else { Destroyed(s, a.c, to, me.phase.socket); }
      case Destroy(_) => Destroyed(s, a.c, to, me.phase.socket);
      case Rollback(_) => Unmoved(s, me.key, t.pools[me.key], a.c, to);
    }
  }

  const EMPTY := System(map[], map[], map[], 0)

  predicate IsStep(max: int, s: System, a: Action, t: System) {
    Enabled(s, a) && t == Next(max, s, a)
  }

  ghost predicate IsRun(max: int, acts: seq<Action>, run: seq<System>) {
    && |run| == |acts| + 1 && run[0] == EMPTY
    && forall i {:trigger acts[i]} :: 0 <= i < |acts| ==> IsStep(max, run[i], acts[i], run[i + 1])
  }

  lemma {:induction false} RunKeeps(max: int, acts: seq<Action>, run: seq<System>, n: nat)
    requires IsRun(max, acts, run) && n < |run|
    ensures SlotsOk(max, run[n].pools, run[n].callers) && PlacesOk(run[n])
  {
    if n > 0 {
      RunKeeps(max, acts, run, n - 1);
      StepSlots(max, run[n - 1], acts[n - 1]);
      StepPlaces(max, run[n - 1], acts[n - 1]);
    }
  }

  /** In every state of every run: a target's idle connections and slots in use are within its limit,
      whatever that is, and the slots in use are exactly those of the calls under way. */
  lemma SlotsAreExact(max: int, acts: seq<Action>, run: seq<System>, n: nat, k: Key)
    requires IsRun(max, acts, run) && n < |run| && k in run[n].pools
    ensures |run[n].pools[k].idle| + run[n].pools[k].inUse <= if max > 0 then max else 0
    ensures run[n].pools[k].inUse == |Holders(run[n].callers, k)|
  {
    RunKeeps(max, acts, run, n);
    assert SlotOk(max, run[n].pools[k], |Holders(run[n].callers, k)|);
  }

  /** And every live socket is in exactly one place: once in the idle list of one target, or with one call. */
  lemma SocketsHaveOnePlace(max: int, acts: seq<Action>, run: seq<System>, n: nat, x: nat)
    requires IsRun(max, acts, run) && n < |run|
    ensures x in run[n].live <==> (exists k :: k in run[n].pools && x in Sockets(run[n].pools[k].idle)) ||
                                  (exists c :: c in run[n].callers && HasSocket(run[n].callers[c], x))
    ensures forall k, m :: k in run[n].pools && m in run[n].pools && k != m ==>
        Sockets(run[n].pools[k].idle) !! Sockets(run[n].pools[m].idle)
    ensures forall k :: k in run[n].pools ==> Distinct(run[n].pools[k].idle)
    ensures forall c, d :: c in run[n].callers && d in run[n].callers ==>
        HasSocket(run[n].callers[c], x) && HasSocket(run[n].callers[d], x) ==> c == d
    ensures forall c, k :: c in run[n].callers && k in run[n].pools && HasSocket(run[n].callers[c], x) ==>
        x !in Sockets(run[n].pools[k].idle)
  {
    RunKeeps(max, acts, run, n);
    OnePlace(run[n], x);
  }

  lemma IdleIsIdle(s: System, k: Key, x: nat)
    requires PlacesOk(s) && k in s.pools && x in Sockets(s.pools[k].idle)
    ensures x in s.live && s.live[x] == Idle(k)
  {
    assert IdleOk(k, s.pools[k].idle, s.live);
    var i :| 0 <= i < |s.pools[k].idle| && s.pools[k].idle[i].socket == x;
  }

  lemma OnePlace(s: System, x: nat)
    requires PlacesOk(s)
    ensures x in s.live <==> (exists k :: k in s.pools && x in Sockets(s.pools[k].idle)) ||
                             (exists c :: c in s.callers && HasSocket(s.callers[c], x))
    ensures forall k, m :: k in s.pools && m in s.pools && k != m ==>
        Sockets(s.pools[k].idle) !! Sockets(s.pools[m].idle)
    ensures forall k :: k in s.pools ==> Distinct(s.pools[k].idle)
    ensures forall c, d :: c in s.callers && d in s.callers ==>
        HasSocket(s.callers[c], x) && HasSocket(s.callers[d], x) ==> c == d
    ensures forall c, k :: c in s.callers && k in s.pools && HasSocket(s.callers[c], x) ==>
        x !in Sockets(s.pools[k].idle)
  {
    forall k, y | k in s.pools && y in Sockets(s.pools[k].idle)
        ensures y in s.live && s.live[y] == Idle(k) { IdleIsIdle(s, k, y); }
    if x in s.live { assert PlaceOk(x, s.live[x], s.pools, s.callers); }
    forall k | k in s.pools ensures Distinct(s.pools[k].idle) { assert IdleOk(k, s.pools[k].idle, s.live); }
  }
}
