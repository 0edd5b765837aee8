/** The incremental reader that cuts a connection's byte stream into MQTT packets. */
module PacketReader {
  import opened Basics
  import opened Bytes
  import opened PacketCourse
  import opened PacketDecoder

  datatype Phase = ReadHeader | ReadRemaining | ReadPayload

  /** The reader's registers agree with the bytes of the packet it has so far. */
  ghost predicate Agrees(limit: nat, phase: Phase, needed: nat, remaining: nat, headerSize: nat, got: seq<byte>) {
    match phase
    case ReadHeader => got == [] && needed == 1
    case ReadRemaining => 1 <= |got| <= 4 && Continued(got, |got|) && (|got| > 1 ==>
        remaining == Partial(got, |got|)) && needed == 1
    case ReadPayload =>
      && HeadFrom(got, 1, 0) == Complete(headerSize, remaining)
      && |got| <= headerSize + remaining <= limit
      && (|got| < headerSize + remaining ==> needed == headerSize + remaining - |got|)
  }

  ghost predicate Whole(phase: Phase, remaining: nat, headerSize: nat, got: seq<byte>) {
    phase == ReadPayload && |got| == headerSize + remaining
  }

  /** The registers know whether the packet is whole, and what is missing when it is not. */
  lemma AgreesDecides(limit: nat, phase: Phase, needed: nat, remaining: nat, headerSize: nat, got: seq<byte>)
    requires Agrees(limit, phase, needed, remaining, headerSize, got)
    ensures Whole(phase, remaining, headerSize, got) <==> FirstFrame(limit, got) == Frame(|got|)
    ensures !Whole(phase, remaining, headerSize, got) ==> needed == Needed(got) >= 1 && Pending(limit, got)
  {
    if phase == ReadRemaining { HeadResumes(got, |got|); }
  }

  datatype Outcome = Ok | Refused(fault: Fault) | NoMemory

  class Reader {
    const limit: nat
    var buffer: array<byte>
    var bytesRead: nat
    var bytesNeeded: nat
    var phase: Phase
    var remaining: nat
    var headerSize: nat
    /** The socket has not been closed. */
    var connected: bool

    ghost predicate Sized()
      reads this
    {
      INITIAL_BUFFER_SIZE <= buffer.Length && (buffer.Length <= limit || buffer.Length == INITIAL_BUFFER_SIZE) &&
      bytesRead <= buffer.Length
    }

    ghost function Got(): seq<byte>
      reads this, buffer
      requires Sized()
    {
      buffer[..bytesRead]
    }

    ghost predicate Valid()
      reads this, buffer
    {
      Sized() && Agrees(limit, phase, bytesNeeded, remaining, headerSize, Got())
    }

    ghost predicate Complete()
      reads this, buffer
      requires Sized()
    {
      Whole(phase, remaining, headerSize, Got())
    }

    /** Where the loop is, with these bytes received, these counted besides, and these packets handed over. */
    ghost function View(pos: nat, stale: seq<byte>, handed: seq<seq<byte>>, stop: Stop): Course
      reads this, buffer
      requires Sized()
    {
      Course(pos, stale, Got(), buffer.Length, connected, handed, stop)
    }

    constructor (limit: nat)
      ensures Valid() && fresh(buffer) && this.limit == limit && Got() == [] && !Complete()
      ensures connected && buffer.Length == INITIAL_BUFFER_SIZE
    {
      this.limit := limit;
      buffer := new byte[INITIAL_BUFFER_SIZE];
      bytesRead, bytesNeeded, phase, remaining, headerSize, connected := 0, 1, ReadHeader, 0, 0, true;
    }

    /** Makes room for the next read, keeping the bytes there are. */
    method EnsureBufferSize(granted: bool) returns (o: Outcome)
      requires Valid()
      modifies this`buffer
      ensures Valid() && Got() == old(Got()) && (buffer == old(buffer) || fresh(buffer))
      ensures o == Refused(TooLarge) <==> bytesRead + bytesNeeded > limit
      ensures o == NoMemory <==> old(buffer.Length) < bytesRead + bytesNeeded <= limit && !granted
      ensures buffer.Length == if o == Ok && bytesRead + bytesNeeded > old(buffer.Length)
        then Max(bytesRead + bytesNeeded, Min(2 * old(buffer.Length), limit)) else old(buffer.Length)
      ensures o == Ok ==> bytesRead + bytesNeeded <= buffer.Length
      ensures !o.Refused? || o.fault == TooLarge
    {
      if bytesNeeded > limit || bytesRead > limit || bytesRead > limit - bytesNeeded {
        return Refused(TooLarge);
      }
      if bytesRead + bytesNeeded > buffer.Length {
        var capped := Max(limit, buffer.Length);
        var size := Max(bytesRead + bytesNeeded, Min(2 * buffer.Length, capped));
        if !granted { return NoMemory; }
        var grown := new byte[size];
        forall i | 0 <= i < bytesRead { grown[i] := buffer[i]; }
        assert grown[..bytesRead] == buffer[..bytesRead];
        buffer := grown;
      }
      return Ok;
    }

    /** One read of the socket, past the bytes there are: it stores some of the stream and says how
        many; or it fails; or the socket is closed while it waits, and it leaves both the buffer and the
        number of bytes asked for as they are. `counted` is what the buffer then holds in their place. */
    method Recv(t: Turn, stream: seq<byte>, pos: nat) returns (ok: bool, len: nat, ghost counted: seq<byte>)
      requires Sized() && pos <= |stream| && 1 <= bytesNeeded && bytesRead + bytesNeeded <= buffer.Length
      modifies buffer, this`connected
      ensures Sized() && Got() == old(Got())
      ensures |counted| == (if ok then len else 0)
      ensures ok ==> 1 <= len <= bytesNeeded && counted == buffer[bytesRead..bytesRead + len]
      ensures connected == (old(connected) && !t.recv.Vanished?)
      ensures ok <==> old(connected) && !t.recv.Failed? && (t.recv.Received? ==> pos < |stream|)
      ensures ok && t.recv.Received? ==>
        len == Min(Min(1 + t.recv.extra, bytesNeeded), |stream| - pos) && counted == stream[pos..pos + len]
      ensures ok && t.recv.Vanished? ==> len == bytesNeeded && buffer[..] == old(buffer[..])
    {
      counted := [];
      if !connected || t.recv.Failed? { return false, 0, []; }
      if t.recv.Vanished? {
        connected := false;
        return true, bytesNeeded, buffer[bytesRead..bytesRead + bytesNeeded];
      }
      var n := Min(Min(1 + t.recv.extra, bytesNeeded), |stream| - pos);
      if n == 0 { return false, 0, []; }
      forall i | 0 <= i < n { buffer[bytesRead + i] := stream[pos + i]; }
      assert buffer[..bytesRead] == old(buffer[..bytesRead]);
      assert buffer[bytesRead..bytesRead + n] == stream[pos..pos + n];
      return true, n, stream[pos..pos + n];
    }

    /** Takes the next `len` bytes of the buffer for bytes just read, whatever they are. */
    method ReadPacket(len: nat) returns (o: Outcome)
      requires Valid() && !Complete() && 1 <= len <= bytesNeeded
      requires bytesRead + bytesNeeded <= buffer.Length && bytesRead + bytesNeeded <= limit
      modifies this`bytesRead, this`bytesNeeded, this`phase, this`remaining, this`headerSize
      ensures Sized() && Got() == old(Got()) + buffer[old(bytesRead)..old(bytesRead) + len]
      ensures o == Ok ==> Valid()
      ensures o.Refused? <==> HeadRefuses(limit, Got())
      ensures o.Refused? ==> FirstFrame(limit, Got()) == Bad(o.fault)
      ensures o != NoMemory
    {
      ghost var had := Got();
      bytesRead := bytesRead + len;
      assert Got() == had + buffer[old(bytesRead)..bytesRead];
      match phase
      case ReadHeader =>
        phase, bytesNeeded := ReadRemaining, 1;
        return Ok;
      case ReadRemaining =>
        o := ReadLength(had);
      case ReadPayload =>
        HeadStable(had, buffer[old(bytesRead)..bytesRead], 1, 0);
        var payload := bytesRead - headerSize;
        if payload < remaining { bytesNeeded := remaining - payload; }
        return Ok;
    }

    /** The byte just read is the next one of the length field. */
    method ReadLength(ghost had: seq<byte>) returns (o: Outcome)
      requires Sized() && phase == ReadRemaining && bytesNeeded == 1
      requires Agrees(limit, phase, 1, remaining, headerSize, had)
      requires 2 <= bytesRead <= limit && Got() == had + [buffer[bytesRead - 1]]
      modifies this`remaining, this`bytesNeeded, this`phase, this`headerSize
      ensures o == Ok ==> Valid()
      ensures o.Refused? <==> HeadRefuses(limit, Got())
      ensures o.Refused? ==> FirstFrame(limit, Got()) == Bad(o.fault)
      ensures o != NoMemory
    {
      var index := bytesRead - 2;
      var b := buffer[bytesRead - 1];
      LengthByte(had, b);
      if b >= 128 && index < 3 { HeadResumes(Got(), bytesRead); }
      if index == 0 { remaining := 0; }
      remaining := remaining + b % 128 * Shift(index);
      if b < 128 {
        if remaining > limit || bytesRead > limit || bytesRead > limit - remaining {
          return Refused(TooLarge);
        }
        headerSize := bytesRead;
        phase := ReadPayload;
        bytesNeeded := remaining;
      } else if index >= 3 {
        return Refused(Malformed);
      } else {
        bytesNeeded := 1;
      }
      return Ok;
    }

    /** A parsed packet owns its bytes, so a grown buffer can go. */
    method ReleaseGrownBuffer(granted: bool)
      requires Sized()
      modifies this`buffer
      ensures INITIAL_BUFFER_SIZE <= buffer.Length && (buffer.Length <= limit || buffer.Length == INITIAL_BUFFER_SIZE)
      ensures if old(buffer.Length) > INITIAL_BUFFER_SIZE && bytesRead == headerSize + remaining && granted
        then fresh(buffer) && buffer.Length == INITIAL_BUFFER_SIZE else buffer == old(buffer)
    {
      if buffer.Length <= INITIAL_BUFFER_SIZE || bytesRead != headerSize + remaining || !granted { return; }
      buffer := new byte[INITIAL_BUFFER_SIZE];
    }

    /** Forgets the packet that has been handed over. */
    method Reset()
      requires INITIAL_BUFFER_SIZE <= buffer.Length && (buffer.Length <= limit || buffer.Length == INITIAL_BUFFER_SIZE)
      modifies this`bytesRead, this`bytesNeeded, this`phase, this`remaining, this`headerSize
      ensures Valid() && !Complete() && Got() == []
    {
      bytesRead, bytesNeeded, phase, remaining, headerSize := 0, 1, ReadHeader, 0, 0;
    }

    /** The second half of a turn: a whole packet is handed over, and the next one begun. */
    method HandOver(t: Turn) returns (frame: seq<seq<byte>>, stop: Stop)
      requires Valid()
      modifies this, buffer
      ensures buffer == old(buffer) || fresh(buffer)
      ensures Valid() && !Complete() && connected == old(connected)
      ensures frame == if old(Complete()) then [old(Got())] else []
      ensures Got() == if old(Complete()) then [] else old(Got())
      ensures stop == if old(Complete()) && t.answer != 0 then Handler(t.answer) else Running
      ensures buffer.Length == if old(Complete()) && t.release && old(buffer.Length) > INITIAL_BUFFER_SIZE
        then INITIAL_BUFFER_SIZE else old(buffer.Length)
    {
      if phase == ReadPayload && bytesRead >= headerSize + remaining {
        frame := [buffer[..bytesRead]];
        ReleaseGrownBuffer(t.release);
        Reset();
        return frame, if t.answer != 0 then Handler(t.answer) else Running;
      }
      return [], Running;
    }

    /** Reads into the room there is; `counted` is what a vanished read found there. */
    method ReadSocket(t: Turn, stream: seq<byte>, pos: nat, ghost stale: seq<byte>, ghost handed: seq<seq<byte>>)
      returns (got: nat, o: Outcome, stop: Stop, ghost counted: seq<byte>)
      requires Valid() && !Complete() && pos <= |stream| && bytesNeeded == Needed(Got()) >= 1
      requires bytesRead + bytesNeeded <= buffer.Length && bytesRead + bytesNeeded <= limit
      modifies this, buffer
      ensures Sized() && buffer == old(buffer)
      ensures var x, c := Setting(limit, stream, counted, 0), old(View(pos, stale, handed, Running));
        var d := View(got, if old(connected) && !connected then stale + counted else stale, handed, stop);
        if stop == Running then c.open && Chunk(x, c, t) != [] && d == Taken(c, t, Chunk(x, c, t))
        else stop == Socket && (!c.open || Chunk(x, c, t) == []) && d == c.(stop := Socket)
      ensures stop == Running ==> (o == Ok ==> Valid()) && (o.Refused? <==> HeadRefuses(limit, Got()))
      ensures stop == Running && o.Refused? ==> FirstFrame(limit, Got()) == Bad(o.fault)
      ensures stop == Running ==> o != NoMemory && |Got()| <= limit
    {
      got, stop, counted := pos, Running, [];
      ghost var c := View(pos, stale, handed, Running);
      var ok, len;
      ok, len, counted := Recv(t, stream, pos);
      SocketGave(Setting(limit, stream, counted, 0), c, t, ok, len, counted);
      if !ok { return got, Ok, Socket, []; }
      if t.recv.Received? { got := pos + len; }
      assert counted == buffer[bytesRead..bytesRead + len];
      o := ReadPacket(len);
      assert Got() == c.rest + counted;
    }

    /** The first half of a turn: make room and read. When it gets as far as reading some bytes it has
        taken them; otherwise the loop stops. */
    method Receive(t: Turn, stream: seq<byte>, pos: nat, ghost stale: seq<byte>, ghost handed: seq<seq<byte>>)
      returns (got: nat, o: Outcome, stop: Stop, ghost counted: seq<byte>)
      requires Valid() && !Complete() && pos <= |stream|
      modifies this, buffer
      ensures Sized() && (buffer == old(buffer) || fresh(buffer))
      ensures var x, c := Setting(limit, stream, counted, 0), old(View(pos, stale, handed, Running));
        var d := View(got, if old(connected) && !connected then stale + counted else stale, handed, stop);
        if stop != Running then d == Turned(x, c, t)
        else Reads(x, c, t) && Chunk(x, c, t) != [] && d == Taken(c.(capacity := Room(x, c)), t, Chunk(x, c, t))
      ensures stop == Running ==> (o == Ok ==> Valid()) && (o.Refused? <==> HeadRefuses(limit, Got()))
      ensures stop == Running && o.Refused? ==> FirstFrame(limit, Got()) == Bad(o.fault)
      ensures stop == Running ==> o != NoMemory && |Got()| <= limit
    {
      got, stop, counted := pos, Running, [];
      ghost var c := View(pos, stale, handed, Running);
      AgreesDecides(limit, phase, bytesNeeded, remaining, headerSize, Got());
      if t.takeoverBefore { return got, Ok, TakenOver, []; }
      o := EnsureBufferSize(t.memory);
      if o.Refused? { return got, o, Fault(o.fault), []; }
      if o.NoMemory? { return got, o, OutOfMemory, []; }
      ghost var c1 := View(pos, stale, handed, Running);
      assert c1 == c.(capacity := Room(Setting(limit, stream, [], 0), c));
      got, o, stop, counted := ReadSocket(t, stream, pos, stale, handed);
      RoomMade(Setting(limit, stream, counted, 0), c, c1, t);
    }

    /** One turn of the loop does what `Turned` says. */
    method TakeTurn(t: Turn, stream: seq<byte>, pos: nat, ghost stale: seq<byte>, ghost handed: seq<seq<byte>>)
      returns (got: nat, frame: seq<seq<byte>>, stop: Stop, ghost counted: seq<byte>)
      requires Valid() && !Complete() && pos <= |stream|
      modifies this, buffer
      ensures Sized() && (buffer == old(buffer) || fresh(buffer))
      ensures stop == Running ==> Valid() && !Complete()
      ensures View(got, if old(connected) && !connected then stale + counted else stale, handed + frame, stop)
           == Turned(Setting(limit, stream, counted, 0), old(View(pos, stale, handed, Running)), t)
    {
      ghost var c := View(pos, stale, handed, Running);
      var o;
      frame := [];
      got, o, stop, counted := Receive(t, stream, pos, stale, handed);
      assert handed + [] == handed;
      if stop != Running { return; }
      ghost var d := View(got, if old(connected) && !connected then stale + counted else stale, handed, Running);
      ReadTurn(Setting(limit, stream, counted, 0), c, t, d);
      if t.takeoverAfter { return got, [], TakenOver, counted; }
      if o.Refused? {
        RefusedTurn(limit, d, t, o.fault);
        return got, [], Fault(o.fault), counted;
      }
      AgreesDecides(limit, phase, bytesNeeded, remaining, headerSize, Got());
      frame, stop := HandOver(t);
    }

    /** The connection loop. It does what `Run` says: however the socket splits the stream, the packets
        handed over are the ones the decoder finds in the bytes received, unless a read vanishes and
        what the buffer holds in the place of the missing bytes, `leftover`, completes a packet. */
    method ProcessLoop(turns: seq<Turn>, stream: seq<byte>)
      returns (handed: seq<seq<byte>>, got: nat, stop: Stop, ghost leftover: seq<byte>)
      requires Valid() && Got() == [] && !Complete() && connected
      modifies this, buffer
      ensures Sized() && buffer.Length <= Max(limit, INITIAL_BUFFER_SIZE)
      ensures var c := Run(Setting(limit, stream, leftover, old(buffer.Length)), turns);
        c == View(got, c.stale, handed, stop)
      ensures got <= |stream| &&
        (handed <= Decode(limit, stream[..got]).frames <==>
            !Forges(Setting(limit, stream, leftover, old(buffer.Length)), turns))
      ensures stop != TakenOver && (forall i :: 0 <= i < |turns| ==> !turns[i].recv.Vanished?) ==>
        handed == Decode(limit, stream[..got]).frames
      ensures |turns| > |stream| && (forall i :: 0 <= i < |turns| ==> Cooperative(turns[i])) ==>
        handed == Decode(limit, stream).frames && Decode(limit, stream).end == if stop.Fault?
            then Bad(stop.fault) else More
    {
      handed, got, stop, leftover := [], 0, Running, [];
      ghost var stale, capacity := [], buffer.Length;
      var i := 0;
      while stop == Running && i < |turns|
        invariant i <= |turns| && got <= |stream| && (buffer == old(buffer) || fresh(buffer)) && Sized()
        invariant stop == Running ==> Valid() && !Complete()
        invariant View(got, stale, handed, stop) == Run(Setting(limit, stream, leftover, capacity), turns[..i])
        decreases |turns| - i
      {
        ghost var c := View(got, stale, handed, Running);
        var frame;
        ghost var counted;
        got, frame, stop, counted := TakeTurn(turns[i], stream, got, stale, handed);
        handed := handed + frame;
        leftover := OneMoreTurn(limit, stream, leftover, capacity, turns, i, c, counted);
        if c.open && !connected { stale := stale + counted; }
        i := i + 1;
      }
      StoppedEarly(Setting(limit, stream, leftover, capacity), turns, i);
      RunPromises(Setting(limit, stream, leftover, capacity), turns);
    }
  }

  /** The turn just taken is one more of the run, with what its read found when it vanished. */
  lemma OneMoreTurn(limit: nat, stream: seq<byte>, leftover: seq<byte>, capacity: nat, turns: seq<Turn>, i: nat,
                    c: Course, counted: seq<byte>)
    returns (leftover': seq<byte>)
    requires i < |turns| && c == Run(Setting(limit, stream, leftover, capacity), turns[..i]) && c.stop == Running
    ensures Run(Setting(limit, stream, leftover', capacity), turns[..i + 1])
            == Turned(Setting(limit, stream, counted, 0), c, turns[i])
  {
    var x, y := Setting(limit, stream, leftover, capacity), Setting(limit, stream, counted, capacity);
    assert turns[..i + 1][..i] == turns[..i];
    CapacityUnused(y, Setting(limit, stream, counted, 0), c, turns[i]);
    if c.open {
      RunLeftover(x, y, turns[..i]);
      leftover' := counted;
    } else {
      TurnedLeftover(x, y, c, turns[i]);
      leftover' := leftover;
    }
  }

  lemma CapacityUnused(x: Setting, y: Setting, c: Course, t: Turn)
    requires y == x.(capacity := y.capacity) && c.pos <= |x.stream|
    ensures Turned(x, c, t) == Turned(y, c, t)
  {
    assert Room(x, c) == Room(y, c) && Chunk(x, c, t) == Chunk(y, c, t);
  }

  lemma {:induction false} StoppedEarly(x: Setting, turns: seq<Turn>, i: nat)
    requires i <= |turns| && (i == |turns| || Run(x, turns[..i]).stop != Running)
    ensures Run(x, turns) == Run(x, turns[..i])
    decreases |turns|
  {
    if i == |turns| {
      assert turns[..i] == turns;
    } else {
      var n := |turns| - 1;
      assert turns[..n][..i] == turns[..i];
      StoppedEarly(x, turns[..n], i);
    }
  }

  lemma RunPromises(x: Setting, turns: seq<Turn>)
    ensures var c := Run(x, turns);
      && (c.handed <= Decode(x.limit, x.stream[..c.pos]).frames <==> !Forges(x, turns))
      && (c.stop != TakenOver && (forall i :: 0 <= i < |turns| ==> !turns[i].recv.Vanished?) ==>
            c.handed == Decode(x.limit, x.stream[..c.pos]).frames)
      && (|turns| > |x.stream| && (forall i :: 0 <= i < |turns| ==> Cooperative(turns[i])) ==>
            && c.handed == Decode(x.limit, x.stream).frames
            && Decode(x.limit, x.stream).end == if c.stop.Fault? then Bad(c.stop.fault) else More)
  {
    GenuineUnlessForged(x, turns);
    if |turns| > |x.stream| && forall i :: 0 <= i < |turns| ==> Cooperative(turns[i]) { LeftAlone(x, turns); }
  }

  /** The bytes a read came to are the turn's chunk. */
  lemma SocketGave(x: Setting, c: Course, t: Turn, ok: bool, len: nat, counted: seq<byte>)
    requires c.pos <= |x.stream| && Needed(c.rest) >= 1 && |counted| == if ok then len else 0
    requires ok <==> c.open && !t.recv.Failed? && (t.recv.Received? ==> c.pos < |x.stream|)
    requires ok && t.recv.Received? ==>
      len == Min(Min(1 + t.recv.extra, Needed(c.rest)), |x.stream| - c.pos) && counted == x.stream[c.pos..c.pos + len]
    requires ok && t.recv.Vanished? ==> len == Needed(c.rest) && x.leftover == counted
    ensures if ok then Chunk(x, c, t) == counted != [] else !c.open || Chunk(x, c, t) == []
  {
  }

  /** After room was made, only the socket decides. */
  lemma RoomMade(x: Setting, c: Course, c1: Course, t: Turn)
    requires c.pos <= |x.stream| && c1 == c.(capacity := Room(x, c))
    requires var n := |c.rest| + Needed(c.rest); !t.takeoverBefore && n <= x.limit && (n <= c.capacity || t.memory)
    ensures Chunk(x, c1, t) == Chunk(x, c, t)
    ensures !c.open || Chunk(x, c, t) == [] ==> Turned(x, c, t) == c1.(stop := Socket)
    ensures c.open ==> Reads(x, c, t)
  {
  }

  lemma ReadTurn(x: Setting, c: Course, t: Turn, d: Course)
    requires c.pos <= |x.stream| && Reads(x, c, t) && Chunk(x, c, t) != []
    requires d == Taken(c.(capacity := Room(x, c)), t, Chunk(x, c, t))
    ensures Turned(x, c, t) == Judged(x.limit, d, t)
  {
  }

  lemma RefusedTurn(limit: nat, d: Course, t: Turn, fault: Fault)
    requires HeadRefuses(limit, d.rest) && FirstFrame(limit, d.rest) == Bad(fault) && |d.rest| <= limit
    requires !t.takeoverAfter
    ensures Judged(limit, d, t) == d.(stop := Fault(fault))
  {
    HeadBounds(d.rest, 1, 0);
  }

  /** The length field has ended in a length over the limit, or has not ended where it must. */
  predicate HeadRefuses(limit: nat, got: seq<byte>) {
    match HeadFrom(got, 1, 0)
    case Complete(h, v) => h + v > limit
    case Overlong => true
    case Short => false
  }
}
