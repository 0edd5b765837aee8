/** The cache half of one shard: a map of leases plus a list of its keys, most recently
    touched first. `Shard` is the mutable structure; `Lru` is its value, on which the
    authorization protocol is built. */
module LeaseCache {

  datatype Lru<!K(==), V> = Lru(entries: map<K, V>, order: seq<K>)

  ghost predicate NoDup<T>(s: seq<T>) {
    s == [] || (s[0] !in s[1..] && NoDup(s[1..]))
  }

  /** The list names every entry exactly once. */
  ghost predicate Consistent<K(!new), V>(c: Lru<K, V>) {
    NoDup(c.order) && forall k :: k in c.order <==> k in c.entries
  }

  function Without<T(==, !new)>(s: seq<T>, x: T): (r: seq<T>)
    ensures forall y :: y in r <==> y in s && y != x
    ensures NoDup(s) ==> NoDup(r)
  {
    if s == [] then [] else
      var r := Without(s[1..], x);
      if s[0] == x then r else
        assert ([s[0]] + r)[1..] == r;
        [s[0]] + r
  }

  function Touched<K(!new), V>(c: Lru<K, V>, k: K): Lru<K, V> {
    Lru(c.entries, [k] + Without(c.order, k))
  }

  function Dropped<K(!new), V>(c: Lru<K, V>, k: K): Lru<K, V> {
    Lru(c.entries - {k}, Without(c.order, k))
  }

  /** Evicts from the back until there is room for one more entry. */
  function Evicted<K(!new), V>(c: Lru<K, V>, room: nat): (r: Lru<K, V>)
    decreases |c.order|
  {
    if |c.entries| < room || c.order == [] then c else
      var n := |c.order| - 1;
      Evicted(Lru(c.entries - {c.order[n]}, c.order[..n]), room)
  }

  function Stored<K(!new), V>(c: Lru<K, V>, k: K, v: V, room: nat): Lru<K, V> {
    var d := Evicted(Dropped(c, k), room);
    Lru(d.entries[k := v], [k] + d.order)
  }

  lemma SizeIsLength<K(!new), V>(c: Lru<K, V>)
    requires Consistent(c)
    ensures |c.order| == |c.entries|
    decreases |c.order|
  {
    if c.order == [] {
      assert c.entries.Keys == {};
    } else {
      var k := c.order[0];
      var rest := Lru(c.entries - {k}, c.order[1..]);
      assert c.order == [k] + rest.order;
      SizeIsLength(rest);
      assert c.entries.Keys == rest.entries.Keys + {k};
    }
  }

  lemma {:induction false} NoDupPrefix<T>(s: seq<T>, n: nat)
    requires NoDup(s) && n <= |s|
    ensures NoDup(s[..n])
    ensures forall y :: y in s[n..] ==> y !in s[..n]
  {
    if n > 0 {
      NoDupPrefix(s[1..], n - 1);
      assert s[..n][1..] == s[1..][..n - 1] && s[n..] == s[1..][n - 1..];
      assert s[..n] == [s[0]] + s[1..][..n - 1];
      assert forall y :: y in s[n..] ==> y in s[1..];
    }
  }

  /** Evicting one key keeps the list and the map in step. */
  lemma PopConsistent<K(!new), V>(c: Lru<K, V>)
    requires Consistent(c) && c.order != []
    ensures var n := |c.order| - 1; Consistent(Lru(c.entries - {c.order[n]}, c.order[..n]))
  {
    var n := |c.order| - 1;
    NoDupPrefix(c.order, n);
    assert c.order == c.order[..n] + [c.order[n]] && c.order[n..] == [c.order[n]];
  }

  /** Eviction keeps a prefix of the list, and exactly the entries of that prefix. */
  lemma {:induction false} EvictedIsPrefix<K(!new), V>(c: Lru<K, V>, room: nat)
    requires Consistent(c)
    ensures var r := Evicted(c, room);
      && Consistent(r)
      && r.order <= c.order
      && (room >= 1 ==> |r.entries| == if |c.entries| < room then |c.entries| else room - 1)
      && (forall k :: k in r.entries ==> k in c.entries && r.entries[k] == c.entries[k])
    decreases |c.order|
  {
    SizeIsLength(c);
    if !(|c.entries| < room || c.order == []) {
      PopConsistent(c);
      var n := |c.order| - 1;
      var rest := Lru(c.entries - {c.order[n]}, c.order[..n]);
      SizeIsLength(rest);
      EvictedIsPrefix(rest, room);
    }
  }

  lemma StoredConsistent<K(!new), V>(c: Lru<K, V>, k: K, v: V, room: nat)
    requires Consistent(c) && room >= 1
    ensures var r := Stored(c, k, v, room);
      && Consistent(r)
      && |r.entries| == (if |Dropped(c, k).entries| < room then |Dropped(c, k).entries| + 1 else room)
      && k in r.entries && r.entries[k] == v
      && (forall x :: x in r.entries && x != k ==> x in c.entries && r.entries[x] == c.entries[x])
  {
    var d := Dropped(c, k);
    assert Consistent(d);
    var e := Evicted(d, room);
    EvictedIsPrefix(d, room);
    ConsConsistent(e, k, v);
    assert Stored(c, k, v, room) == Lru(e.entries[k := v], [k] + e.order);
  }

  lemma ConsConsistent<K(!new), V>(c: Lru<K, V>, k: K, v: V)
    requires Consistent(c) && k !in c.entries
    ensures var r := Lru(c.entries[k := v], [k] + c.order); Consistent(r) && |r.entries| == |c.entries| + 1
  {
    assert ([k] + c.order)[1..] == c.order;
    assert c.entries[k := v].Keys == c.entries.Keys + {k};
  }

  // ---------------------------------------------------------------------------
  // The reference: a map whose keys carry the time of their last touch
  // ---------------------------------------------------------------------------

  datatype Stamped<!K(==), V> = Stamped(values: map<K, V>, stamps: map<K, nat>, clock: nat)

  ghost predicate Descending<T>(s: seq<T>, stamps: map<T, nat>) {
    s == [] ||
    (s[0] in stamps && (forall y :: y in s[1..] ==>
        y in stamps && stamps[y] < stamps[s[0]]) && Descending(s[1..], stamps))
  }

  /** The list is the reference map's keys, latest stamp first. */
  ghost predicate Refines<K(!new), V>(c: Lru<K, V>, m: Stamped<K, V>) {
    && Consistent(c)
    && c.entries == m.values
    && m.stamps.Keys == c.entries.Keys
    && (forall k :: k in m.stamps ==> m.stamps[k] < m.clock)
    && Descending(c.order, m.stamps)
  }

  ghost predicate Older<T>(stamps: map<T, nat>, a: T, b: T) {
    a in stamps && b in stamps && stamps[a] < stamps[b]
  }

  ghost function Stamp<K(!new), V>(m: Stamped<K, V>, k: K, v: V): Stamped<K, V> {
    Stamped(m.values[k := v], m.stamps[k := m.clock], m.clock + 1)
  }

  ghost function Forget<K(!new), V>(m: Stamped<K, V>, gone: set<K>): Stamped<K, V> {
    Stamped(m.values - gone, m.stamps - gone, m.clock)
  }

  /** Filtering a list, or cutting off its tail, does not reorder it. */
  lemma {:induction false} WithoutDescending<T(!new)>(s: seq<T>, x: T, stamps: map<T, nat>, stamps': map<T, nat>)
    requires Descending(s, stamps)
    requires forall y :: y in s && y != x ==> y in stamps && y in stamps' && stamps'[y] == stamps[y]
    ensures Descending(Without(s, x), stamps')
  {
    if s != [] {
      WithoutDescending(s[1..], x, stamps, stamps');
      assert ([s[0]] + Without(s[1..], x))[1..] == Without(s[1..], x);
    }
  }

  lemma {:induction false} PrefixDescending<T(!new)>(s: seq<T>, n: nat, stamps: map<T, nat>, stamps': map<T, nat>)
    requires Descending(s, stamps) && n <= |s|
    requires forall y :: y in s[..n] ==> y in stamps && y in stamps' && stamps'[y] == stamps[y]
    ensures Descending(s[..n], stamps')
  {
    if n > 0 {
      assert s[..n] == [s[0]] + s[1..][..n - 1];
      PrefixDescending(s[1..], n - 1, stamps, stamps');
      assert s[..n][1..] == s[1..][..n - 1];
      assert forall y :: y in s[1..][..n - 1] ==> y in s[1..];
    }
  }

  lemma {:induction false} PrefixIsNewer<T(!new)>(s: seq<T>, n: nat, stamps: map<T, nat>, kept: T, gone: T)
    requires Descending(s, stamps) && n <= |s| && kept in s[..n] && gone in s[n..]
    ensures Older(stamps, gone, kept)
  {
    assert s[..n] == [s[0]] + s[1..][..n - 1] && s[n..] == s[1..][n - 1..];
    if kept == s[0] {
      assert gone in s[1..];
    } else {
      PrefixIsNewer(s[1..], n - 1, stamps, kept, gone);
    }
  }

  lemma DroppedRefines<K(!new), V>(c: Lru<K, V>, m: Stamped<K, V>, k: K)
    requires Refines(c, m)
    ensures Refines(Dropped(c, k), Forget(m, {k}))
  {
    WithoutDescending(c.order, k, m.stamps, Forget(m, {k}).stamps);
  }

  /** A touch is a fresh stamp. */
  lemma TouchedRefines<K(!new), V>(c: Lru<K, V>, m: Stamped<K, V>, k: K)
    requires Refines(c, m) && k in c.entries
    ensures Refines(Touched(c, k), Stamp(m, k, c.entries[k]))
  {
    var m', rest := Stamp(m, k, c.entries[k]), Without(c.order, k);
    WithoutDescending(c.order, k, m.stamps, m'.stamps);
    assert ([k] + rest)[1..] == rest;
  }

  /** Eviction takes the keys touched longest ago: every key it removes is older than every
      key it keeps. */
  lemma {:induction false} EvictedAreOldest<K(!new), V>(c: Lru<K, V>, m: Stamped<K, V>, room: nat, gone: K, kept: K)
    requires Refines(c, m)
    requires gone in c.entries && gone !in Evicted(c, room).entries && kept in Evicted(c, room).entries
    ensures Older(m.stamps, gone, kept)
  {
    EvictedIsPrefix(c, room);
    var n := |Evicted(c, room).order|;
    assert c.order == c.order[..n] + c.order[n..] && Evicted(c, room).order == c.order[..n];
    PrefixIsNewer(c.order, n, m.stamps, kept, gone);
  }

  /** Some key has a stamp no other key is below. */
  lemma {:induction false} LeastExists<K(!new)>(stamps: map<K, nat>)
    requires stamps != map[]
    ensures exists k :: k in stamps && Below(stamps, k)
    decreases |stamps|
  {
    var k :| k in stamps;
    var rest := stamps - {k};
    assert rest.Keys == stamps.Keys - {k};
    if rest == map[] {
      assert Below(stamps, k) by { assert forall x :: x in stamps && x != k ==> x in rest; }
    } else {
      LeastExists(rest);
      var l :| l in rest && Below(rest, l);
      assert forall x :: x in stamps ==> x in rest || x == k;
      assert Below(stamps, if stamps[k] <= stamps[l] then k else l);
    }
  }

  ghost predicate Below<K(!new)>(stamps: map<K, nat>, k: K)
    requires k in stamps
  {
    forall x :: x in stamps ==> stamps[k] <= stamps[x]
  }

  ghost function Least<K(!new)>(stamps: map<K, nat>): (k: K)
    requires stamps != map[]
    ensures k in stamps && Below(stamps, k)
  {
    LeastExists(stamps);
    var k :| k in stamps && Below(stamps, k);
    k
  }

  /** Eviction as the reference has it: forget the key with the least stamp until there is room. */
  ghost function EvictOldest<K(!new), V>(m: Stamped<K, V>, room: nat): Stamped<K, V>
    decreases |m.stamps|
  {
    if |m.stamps| < room || m.stamps == map[] then m
    else
      var k := Least(m.stamps);
      assert (m.stamps - {k}).Keys == m.stamps.Keys - {k};
      EvictOldest(Forget(m, {k}), room)
  }

  /** The last of the list is the key with the least stamp. */
  lemma LastIsLeast<K(!new), V>(c: Lru<K, V>, m: Stamped<K, V>)
    requires Refines(c, m) && c.order != []
    ensures m.stamps != map[] && Least(m.stamps) == c.order[|c.order| - 1]
  {
    var n := |c.order| - 1;
    var last := c.order[n];
    assert c.order == c.order[..n] + [last] && c.order[n..] == [last];
    assert last in c.order;
    var k := Least(m.stamps);
    assert k in c.order;
    if k != last { PrefixIsNewer(c.order, n, m.stamps, k, last); }
  }

  lemma PopRefines<K(!new), V>(c: Lru<K, V>, m: Stamped<K, V>)
    requires Refines(c, m) && c.order != []
    ensures var n := |c.order| - 1; Refines(Lru(c.entries - {c.order[n]}, c.order[..n]), Forget(m, {c.order[n]}))
  {
    var n := |c.order| - 1;
    PopConsistent(c);
    var r, m' := Lru(c.entries - {c.order[n]}, c.order[..n]), Forget(m, {c.order[n]});
    assert forall y :: y in r.order ==> y in r.entries;
    PrefixDescending(c.order, n, m.stamps, m'.stamps);
  }

  /** Evicting from the back of the list is forgetting the keys touched longest ago. */
  lemma {:induction false} EvictedRefines<K(!new), V>(c: Lru<K, V>, m: Stamped<K, V>, room: nat)
    requires Refines(c, m)
    ensures Refines(Evicted(c, room), EvictOldest(m, room))
    decreases |c.order|
  {
    SizeIsLength(c);
    assert |m.stamps.Keys| == |c.entries.Keys|;
    if c.order == [] {
      assert m.stamps == map[];
    } else if |c.entries| >= room {
      LastIsLeast(c, m);
      PopRefines(c, m);
      var n := |c.order| - 1;
      EvictedRefines(Lru(c.entries - {c.order[n]}, c.order[..n]), Forget(m, {c.order[n]}), room);
    }
  }

  lemma {:induction false} ConsRefines<K(!new), V>(c: Lru<K, V>, m: Stamped<K, V>, k: K, v: V)
    requires Refines(c, m) && k !in c.entries
    ensures Refines(Lru(c.entries[k := v], [k] + c.order), Stamp(m, k, v))
  {
    var stamps := m.stamps[k := m.clock];
    assert c.order[..|c.order|] == c.order && ([k] + c.order)[1..] == c.order;
    assert forall y :: y in c.order ==> y in c.entries && y != k;
    PrefixDescending(c.order, |c.order|, m.stamps, stamps);
    assert Descending([k] + c.order, stamps);
  }

  /** A store on the reference alone: the old entry of k forgotten, the oldest keys forgotten
      until k fits, and k stamped now. */
  ghost function StampStored<K(!new), V>(m: Stamped<K, V>, k: K, v: V, room: nat): Stamped<K, V> {
    Stamp(EvictOldest(Forget(m, {k}), room), k, v)
  }

  lemma {:induction false} StoredRefines<K(!new), V>(c: Lru<K, V>, m: Stamped<K, V>, k: K, v: V, room: nat)
    requires Refines(c, m)
    ensures Refines(Stored(c, k, v, room), StampStored(m, k, v, room))
  {
    var d, md := Dropped(c, k), Forget(m, {k});
    DroppedRefines(c, m, k);
    EvictedRefines(d, md, room);
    EvictedIsPrefix(d, room);
    ConsRefines(Evicted(d, room), EvictOldest(md, room), k, v);
  }

  /** What a store evicts was touched before everything it keeps. */
  lemma {:induction false} StoredEvictsOldest<K(!new), V>(
    c: Lru<K, V>, m: Stamped<K, V>, k: K, v: V, room: nat, gone: K, kept: K)
    requires Refines(c, m)
    requires gone in c.entries && gone !in Stored(c, k, v, room).entries
    requires kept in Stored(c, k, v, room).entries && kept != k
    ensures Older(m.stamps, gone, kept)
  {
    DroppedRefines(c, m, k);
    EvictedAreOldest(Dropped(c, k), Forget(m, {k}), room, gone, kept);
  }

  lemma StoredEvictsOnlyOldest<K(!new), V>(c: Lru<K, V>, m: Stamped<K, V>, k: K, v: V, room: nat)
    requires Refines(c, m)
    ensures var r := Stored(c, k, v, room);
      forall gone, kept :: gone in c.entries && gone !in r.entries && kept in r.entries && kept != k ==>
          Older(m.stamps, gone, kept)
  {
    var r := Stored(c, k, v, room);
    forall gone, kept | gone in c.entries && gone !in r.entries && kept in r.entries && kept != k
      ensures Older(m.stamps, gone, kept)
    {
      StoredEvictsOldest(c, m, k, v, room, gone, kept);
    }
  }

  // ---------------------------------------------------------------------------
  // The structure the provider updates in place
  // ---------------------------------------------------------------------------

  class Shard<K(==, !new), V> {
    var entries: map<K, V>
    var order: seq<K>
    ghost var reference: Stamped<K, V>

    ghost predicate Valid() reads this { Refines(View(), reference) }

    function View(): Lru<K, V> reads this { Lru(entries, order) }

    constructor ()
      ensures Valid() && View() == Lru(map[], [])
    {
      entries, order, reference := map[], [], Stamped(map[], map[], 0);
    }

    method Clear()
      modifies this
      ensures Valid() && View() == Lru(map[], [])
    {
      entries, order, reference := map[], [], Stamped(map[], map[], 0);
    }

    method Touch(k: K)
      requires Valid() && k in entries
      modifies this
      ensures Valid() && View() == Touched(old(View()), k)
      ensures reference == Stamp(old(reference), k, old(entries[k]))
    {
      TouchedRefines(View(), reference, k);
      reference := Stamp(reference, k, entries[k]);
      order := [k] + Without(order, k);
    }

    method Erase(k: K)
      requires Valid()
      modifies this
      ensures Valid() && View() == Dropped(old(View()), k)
    {
      DroppedRefines(View(), reference, k);
      reference := Forget(reference, {k});
      entries, order := entries - {k}, Without(order, k);
    }

    /** Drops entries from the back of the list until there is room for one more. */
    method Evict(room: nat)
      requires Consistent(View()) && room >= 1
      modifies this`entries, this`order
      ensures View() == Evicted(old(View()), room)
    {
      while |entries| >= room
        invariant Consistent(View()) && Evicted(View(), room) == Evicted(old(View()), room)
        decreases |order|
      {
        SizeIsLength(View());
        PopConsistent(View());
        entries, order := entries - {order[|order| - 1]}, order[..|order| - 1];
      }
    }

    /** Replaces the entry of k, evicting until it fits. */
    method Store(k: K, v: V, room: nat)
      requires Valid() && room >= 1
      modifies this
      ensures Valid() && View() == Stored(old(View()), k, v, room)
      ensures reference == StampStored(old(reference), k, v, room)
      ensures |entries| == if |old(entries) - {k}| < room then |old(entries) - {k}| + 1 else room
      ensures forall gone, kept :: gone in old(entries) && gone !in entries && kept in entries && kept != k
                                   ==> Older(old(reference).stamps, gone, kept)
    {
      ghost var before, m := View(), reference;
      DroppedRefines(before, m, k);
      entries, order := entries - {k}, Without(order, k);
      Evict(room);
      entries, order := entries[k := v], [k] + order;
      reference := StampStored(m, k, v, room);
      StoredRefines(before, m, k, v, room);
      StoredConsistent(before, k, v, room);
      StoredEvictsOnlyOldest(before, m, k, v, room);
    }
  }
}
