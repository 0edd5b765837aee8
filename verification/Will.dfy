/** What becomes of a client's will over the whole life of its connection. */
module Will {

  /** What the connection loop meets: packets as their handlers see them, or the end of the stream. */
  datatype Event =
    | Connect(accepted: bool, named: bool, will: bool, memory: bool, acknowledged: bool)
    | Connack(success: bool, expiry: nat)
    | Disconnect(normal: bool, hasExpiry: bool, expiry: nat)
    | Other(result: int)
    | Lost

  datatype Story = NoWill | Kept | Discarded

  /** The story a client tells before its CONNECT: section 3.1.2.5 of MQTT Version 5.0. A will
      exists once the server has accepted a CONNECT that carries one and stored it. */
  function Before(durable: bool, expiry: nat, events: seq<Event>): Story {
    if events == [] then NoWill
    else
      match events[0]
      case Connect(accepted, _, will, memory, acknowledged) =>
        if !accepted || !will || !memory then NoWill
        else if !acknowledged then Kept
        else After(durable, expiry, events[1..])
      case Other(result) => if result == 0 then Before(durable, expiry, events[1..]) else NoWill
      case _ => NoWill
  }

  /** And after it: only a DISCONNECT with reason 0x00 that is itself in order deletes the will. It is
      not in order when it gives an expiry to a durable session that has none; a client's own
      CONNACK, which the server takes at its word, replaces the expiry it has. */
  function After(durable: bool, expiry: nat, events: seq<Event>): Story
    decreases |events|
  {
    if events == [] then Kept
    else
      match events[0]
      case Disconnect(normal, hasExpiry, e) =>
        if normal && !(durable && hasExpiry && expiry == 0 && e != 0) then Discarded else Kept
      case Connack(success, e) => if success then After(durable, e, events[1..]) else Kept
      case Other(result) => if result == 0 then After(durable, expiry, events[1..]) else Kept
      case _ => Kept
  }

  // The same stories, said of the whole sequence at once.

  /** Packet i is the CONNECT that left a will: nothing but handled packets came before it. */
  ghost predicate StoredAt(events: seq<Event>, i: nat) {
    && i < |events| && (forall k :: 0 <= k < i ==> events[k] == Other(0))
    && events[i].Connect? && events[i].accepted && events[i].will && events[i].memory
  }

  /** The session expiry after the first d packets since the CONNECT: the last CONNACK's. */
  function ExpiryBefore(expiry: nat, events: seq<Event>, d: nat): nat
    requires d <= |events|
  {
    if d == 0 then expiry
    else if events[d - 1].Connack? then events[d - 1].expiry
    else ExpiryBefore(expiry, events, d - 1)
  }

  /** Packet d since the CONNECT is the DISCONNECT that deletes the will: it has reason 0x00 and is in
      order, and every packet before it was handled. */
  ghost predicate DeletedAt(durable: bool, expiry: nat, events: seq<Event>, d: nat) {
    && d < |events| && (forall k :: 0 <= k < d ==> events[k] == Other(0) || (events[k].Connack? && events[k].success))
    && events[d].Disconnect? && events[d].normal
    && (durable && events[d].hasExpiry && ExpiryBefore(expiry, events, d) == 0 ==> events[d].expiry == 0)
  }

  ghost predicate Deleted(durable: bool, expiry: nat, events: seq<Event>) {
    exists d :: 0 <= d < |events| && DeletedAt(durable, expiry, events, d)
  }

  lemma {:induction false} ExpiryShift(expiry: nat, events: seq<Event>, d: nat)
    requires 1 <= d <= |events|
    ensures ExpiryBefore(expiry, events, d)
            == ExpiryBefore(if events[0].Connack? then events[0].expiry else expiry, events[1..], d - 1)
  {
    if d > 1 { ExpiryShift(expiry, events, d - 1); }
  }

  lemma DeletedShift(durable: bool, expiry: nat, events: seq<Event>, d: nat)
    requires 1 <= d < |events| && (events[0] == Other(0) || (events[0].Connack? && events[0].success))
    ensures DeletedAt(durable, expiry, events, d) <==>
            DeletedAt(durable, if events[0].Connack? then events[0].expiry else expiry, events[1..], d - 1)
  {
    ExpiryShift(expiry, events, d);
    assert forall k :: 0 <= k < d - 1 ==> events[1..][k] == events[k + 1];
    assert forall k :: 1 <= k < d ==> events[k] == events[1..][k - 1];
  }

  lemma {:induction false} AfterExactly(durable: bool, expiry: nat, events: seq<Event>)
    ensures After(durable, expiry, events) == Discarded <==> Deleted(durable, expiry, events)
    ensures After(durable, expiry, events) != NoWill
    decreases |events|
  {
    if events != [] {
      var e := events[0];
      if e == Other(0) || (e.Connack? && e.success) {
        var f := if e.Connack? then e.expiry else expiry;
        AfterExactly(durable, f, events[1..]);
        if d :| 0 <= d < |events| - 1 && DeletedAt(durable, f, events[1..], d) {
          DeletedShift(durable, expiry, events, d + 1);
          assert DeletedAt(durable, expiry, events, d + 1);
        }
        if d :| 0 <= d < |events| && DeletedAt(durable, expiry, events, d) { DeletedShift(durable, expiry, events, d); }
      } else {
        assert DeletedAt(durable, expiry, events, 0) <==> After(durable, expiry, events) == Discarded;
      }
    }
  }

  lemma StoredShift(events: seq<Event>, i: nat)
    requires 1 <= i < |events| && events[0] == Other(0)
    ensures StoredAt(events, i) <==> StoredAt(events[1..], i - 1)
  {
    assert forall k :: 1 <= k < i ==> events[k] == events[1..][k - 1];
  }

  /** There is a will exactly when some CONNECT left one, and it is deleted exactly when that CONNECT was
      acknowledged and a DISCONNECT after it deletes it. */
  lemma {:induction false} StoryExactly(durable: bool, expiry: nat, events: seq<Event>)
    ensures Before(durable, expiry, events) != NoWill <==> exists i :: 0 <= i < |events| && StoredAt(events, i)
    ensures forall i :: 0 <= i < |events| && StoredAt(events, i) ==>
      (Before(durable, expiry, events) == Discarded <==>
         events[i].acknowledged && Deleted(durable, expiry, events[i + 1..]))
    ensures forall i :: 0 <= i < |events| && StoredAt(events, i) ==> Named(events) == events[i].named
    decreases |events|
  {
    if events != [] {
      if events[0] == Other(0) {
        StoryExactly(durable, expiry, events[1..]);
        if i :| 0 <= i < |events| - 1 && StoredAt(events[1..], i) { StoredShift(events, i + 1); }
        forall i | 0 <= i < |events| && StoredAt(events, i)
          ensures StoredAt(events[1..], i - 1) && events[1..][i..] == events[i + 1..]
        {
          StoredShift(events, i);
        }
      } else {
        assert StoredAt(events, 0) <==> Before(durable, expiry, events) != NoWill by {
          AfterExactly(durable, expiry, events[1..]);
        }
        AfterExactly(durable, expiry, events[1..]);
      }
    }
  }

  lemma {:induction false} SameStory(durable: bool, e: nat, f: nat, events: seq<Event>)
    requires !durable || (e == 0 <==> f == 0)
    ensures After(durable, e, events) == After(durable, f, events)
  {
    if events != [] && events[0].Other? { SameStory(durable, e, f, events[1..]); }
  }

  /** When a CONNACK from the client makes no difference to its will, whatever follows. */
  lemma ConnackMatters(durable: bool, expiry: nat, e: nat)
    ensures (forall rest :: After(durable, expiry, [Connack(true, e)] + rest) == After(durable, expiry, rest))
            <==> !durable || (expiry == 0 <==> e == 0)
  {
    if !durable || (expiry == 0 <==> e == 0) {
      forall rest ensures After(durable, expiry, [Connack(true, e)] + rest) == After(durable, expiry, rest) {
        assert ([Connack(true, e)] + rest)[1..] == rest;
        SameStory(durable, e, expiry, rest);
      }
    } else {
      var rest := [Disconnect(true, true, 1)];
      assert ([Connack(true, e)] + rest)[1..] == rest;
      assert After(durable, expiry, [Connack(true, e)] + rest) != After(durable, expiry, rest);
    }
  }

  /** The client was given a name by the CONNECT that was accepted. */
  function Named(events: seq<Event>): bool {
    events != [] && match events[0]
                    case Connect(_, named, _, _, _) => named
                    case Other(result) => result == 0 && Named(events[1..])
                    case _ => false
  }

  class Handler {
    const managed: bool
    const durable: bool
    const authCopies: bool
    const maxExpiry: nat
    /** The session expiry its CONNECT leaves it with. */
    const firstExpiry: nat
    var open: bool
    var connected: bool
    var named: bool
    var expiry: nat
    var present: bool
    var settled: bool
    var discard: bool
    /** How many times a will has been handed to the scheduler. */
    var scheduled: nat

    constructor (managed: bool, durable: bool, authCopies: bool, maxExpiry: nat, firstExpiry: nat)
      ensures this.managed == managed && this.durable == durable && this.authCopies == authCopies
      ensures this.firstExpiry == firstExpiry
      ensures open && !connected && !present && !settled && scheduled == 0 && expiry == firstExpiry
    {
      this.managed, this.durable, this.authCopies, this.maxExpiry, this.firstExpiry := managed, durable, authCopies,
          maxExpiry, firstExpiry;
      open, connected, named, expiry := true, false, false, firstExpiry;
      present, settled, discard, scheduled := false, false, false, 0;
    }

    method RememberWill(will: bool, memory: bool) returns (ok: bool)
      modifies this`present, this`settled, this`discard
      ensures !settled && !discard && present == (will && memory) && ok == (will ==> memory)
    {
      present, settled, discard := false, false, false;
      if !will { return true; }
      if !memory { return false; }
      present := true;
      return true;
    }

    method DisposeWill()
      modifies this`settled, this`scheduled
      ensures settled == (old(settled) || present)
      ensures scheduled == old(scheduled) +
        if present && !old(settled) && !discard && managed && named && authCopies then 1 else 0
    {
      if !present || settled { return; }
      settled := true;
      if discard || !managed || !named { return; }
      if !authCopies { return; }
      scheduled := scheduled + 1;
    }

    method Cleanup()
      modifies this`open, this`connected, this`settled, this`scheduled
      ensures !open && settled == (old(settled) || present) && connected == (old(connected) && !(managed && named))
      ensures scheduled == old(scheduled) +
        if present && !old(settled) && !discard && managed && named && authCopies then 1 else 0
    {
      open := false;
      DisposeWill();
      if connected && managed && named { connected := false; }
    }

    method HandleConnect(e: Event) returns (ok: bool)
      requires e.Connect?
      modifies this`open, this`connected, this`named, this`present, this`settled, this`discard
      ensures old(connected) ==> !ok && unchanged(this)
      ensures !old(connected) ==> ok == (e.accepted && (e.will ==> e.memory) && e.acknowledged)
      ensures !old(connected) && e.accepted ==>
          named == e.named && present == (e.will && e.memory) && !settled && !discard
      ensures !old(connected) && !e.accepted ==>
          present == old(present) && settled == old(settled) && discard == old(discard)
      ensures ok ==> connected && open == old(open)
    {
      if connected { return false; }
      if !e.accepted {
        open := false;
        return false;
      }
      named, connected := e.named, true;
      var stored := RememberWill(e.will, e.memory);
      if !stored {
        connected, open := false, false;
        return false;
      }
      return e.acknowledged;
    }

    method HandleConnack(e: Event) returns (ok: bool)
      requires e.Connack?
      modifies this`expiry
      ensures ok <==> connected && e.success
      ensures expiry == if ok then e.expiry else old(expiry)
    {
      if !connected || !e.success { return false; }
      expiry := e.expiry;
      return true;
    }

    method HandleDisconnect(e: Event) returns (ok: bool)
      requires e.Disconnect?
      modifies this
      ensures ok <==> old(connected) && !(durable && e.hasExpiry && old(expiry) == 0 && e.expiry != 0)
      ensures present == old(present) && named == old(named)
      ensures !ok ==> settled == old(settled) && discard == old(discard) && scheduled == old(scheduled)
      ensures ok ==> !open && settled == (old(settled) || present) && discard == e.normal
      ensures ok ==> expiry == if !e.hasExpiry then old(expiry) else if durable && maxExpiry < e.expiry
          then maxExpiry else e.expiry
      ensures ok ==>
        scheduled == old(scheduled) + if present && !old(settled) && !e.normal && managed && named && authCopies
            then 1 else 0
    {
      if !connected { return false; }
      if durable && e.hasExpiry {
        if expiry == 0 && e.expiry != 0 {
          open := false;
          return false;
        }
        expiry := if e.expiry < maxExpiry then e.expiry else maxExpiry;
      } else if e.hasExpiry {
        expiry := e.expiry;
      }
      discard := e.normal;
      Cleanup();
      open := false;
      return true;
    }

    /** The packets, until one fails or the socket is gone. */
    method ProcessLoop(events: seq<Event>)
      requires open && !connected && !present && !settled && scheduled == 0 && expiry == firstExpiry
      modifies this
      ensures present <==> Before(durable, firstExpiry, events) != NoWill
      ensures present ==> named == Named(events)
      ensures !present ==> scheduled == 0
      ensures !settled ==> scheduled == 0 && (present ==> !discard && Before(durable, firstExpiry, events) == Kept)
      ensures settled && present ==>
        scheduled == if Before(durable, firstExpiry, events) == Kept && managed && named && authCopies then 1 else 0
    {
      var ok := true;
      for i := 0 to |events|
        invariant ok && open && !settled && scheduled == 0 && (!connected ==> expiry == firstExpiry)
        invariant !connected ==>
            !present && Before(durable, firstExpiry, events) == Before(durable, firstExpiry, events[i..])
        invariant !connected ==> Named(events) == Named(events[i..])
        invariant connected && !present ==> Before(durable, firstExpiry, events) == NoWill
        invariant present ==> connected && !discard && named == Named(events)
        invariant present ==> Before(durable, firstExpiry, events) == After(durable, expiry, events[i..])
      {
        assert events[i..][0] == events[i] && events[i..][1..] == events[i + 1..];
        match events[i] {
          case Connect(_, _, _, _, _) => ok := HandleConnect(events[i]);
          case Connack(_, _) => ok := HandleConnack(events[i]);
          case Disconnect(_, _, _) => ok := HandleDisconnect(events[i]);
          case Other(result) => ok := result == 0;
          case Lost => ok := false;
        }
        if !ok || !open { return; }
      }
    }
  }

  /** A connection from its first byte until its handler is destroyed. The clean-up runs up to three
      times, and the will is scheduled once when it was stored and not deleted, and otherwise never. */
  method Lifetime(events: seq<Event>, managed: bool, durable: bool, authCopies: bool, maxExpiry: nat, expiry: nat)
    returns (scheduled: nat)
    ensures scheduled == if Before(durable, expiry, events) == Kept && managed && Named(events) && authCopies
        then 1 else 0
  {
    var h := new Handler(managed, durable, authCopies, maxExpiry, expiry);
    h.ProcessLoop(events);
    h.Cleanup();
    h.Cleanup();
    scheduled := h.scheduled;
  }
}
