/** The connection loop as a function of what its surroundings do in each turn, and what the packets
    it hands over have to do with the bytes it received. */
module PacketCourse {
  import opened Basics
  import opened Bytes
  import opened PacketDecoder

  const INITIAL_BUFFER_SIZE: nat := 1024

  /** What a read of the socket comes to. It may also report as many bytes as were asked for without
      having stored any: the loop inside it ends successfully when another coroutine closes the socket
      while it waits. */
  datatype Recv = Received(extra: nat) | Failed | Vanished

  /** What the surroundings do in one turn of the loop: whether the session is taken over before or
      after the read, whether the allocator has memory, what the socket gives, and what parsing
      and handling the packet returns. */
  datatype Turn = Turn(takeoverBefore: bool, memory: bool, recv: Recv, takeoverAfter: bool, release: bool, answer: int)

  datatype Stop = Running | TakenOver | OutOfMemory | Socket | Fault(fault: Fault) | Handler(code: int)

  /** The packet limit, the bytes the peer sends, what the buffer holds past the bytes read when a
      read vanishes, and the buffer's first capacity. */
  datatype Setting = Setting(limit: nat, stream: seq<byte>, leftover: seq<byte>, capacity: nat)

  /** Where the loop is: `pos` bytes of the stream received, `stale` ones counted but never received,
      `rest` of a packet in the buffer, and the packets handed over. */
  datatype Course = Course(pos: nat, stale: seq<byte>, rest: seq<byte>, capacity: nat, open: bool,
                           handed: seq<seq<byte>>, stop: Stop)

  /** How many bytes the next read asks for. */
  function Needed(rest: seq<byte>): nat {
    match HeadFrom(rest, 1, 0)
    case Complete(h, v) => if |rest| < h + v then h + v - |rest| else 0
    case _ => 1
  }

  function Padded(s: seq<byte>, n: nat): (r: seq<byte>)
    ensures |r| == n
  {
    if n <= |s| then s[..n] else s + seq(n - |s|, _ => 0)
  }

  /** The turn gets as far as reading an open socket. */
  predicate Reads(x: Setting, c: Course, t: Turn) {
    var n := |c.rest| + Needed(c.rest);
    !t.takeoverBefore && n <= x.limit && (n <= c.capacity || t.memory) && c.open
  }

  /** The bytes that then count as read. */
  function Chunk(x: Setting, c: Course, t: Turn): seq<byte>
    requires c.pos <= |x.stream|
  {
    match t.recv
    case Received(extra) => x.stream[c.pos..c.pos + Min(Min(1 + extra, Needed(c.rest)), |x.stream| - c.pos)]
    case Failed => []
    case Vanished => Padded(x.leftover, Needed(c.rest))
  }

  function Room(x: Setting, c: Course): nat {
    var n := |c.rest| + Needed(c.rest);
    if n <= c.capacity then c.capacity else Max(n, Min(2 * c.capacity, x.limit))
  }

  function Taken(c: Course, t: Turn, chunk: seq<byte>): Course {
    if t.recv.Vanished? then c.(rest := c.rest + chunk, stale := c.stale + chunk, open := false)
    else c.(rest := c.rest + chunk, pos := c.pos + |chunk|)
  }

  function Judged(limit: nat, c: Course, t: Turn): Course {
    if t.takeoverAfter then c.(stop := TakenOver)
    else
      match HeadFrom(c.rest, 1, 0)
      case Short => c
      case Overlong => c.(stop := Fault(Malformed))
      case Complete(h, v) =>
        if h + v > limit then c.(stop := Fault(TooLarge))
        else if |c.rest| < h + v then c
        else c.(handed := c.handed + [c.rest], rest := [], stop := if t.answer != 0 then Handler(t.answer) else Running,
                capacity := if t.release && c.capacity > INITIAL_BUFFER_SIZE then INITIAL_BUFFER_SIZE else c.capacity)
  }

  function Turned(x: Setting, c: Course, t: Turn): (d: Course)
    requires c.pos <= |x.stream|
    ensures d.pos <= |x.stream|
  {
    var n := |c.rest| + Needed(c.rest);
    if t.takeoverBefore then c.(stop := TakenOver)
    else if n > x.limit then c.(stop := Fault(TooLarge))
    else if n > c.capacity && !t.memory then c.(stop := OutOfMemory)
    else
      var c1, chunk := c.(capacity := Room(x, c)), Chunk(x, c, t);
      if !c.open || chunk == [] then c1.(stop := Socket) else Judged(x.limit, Taken(c1, t, chunk), t)
  }

  /** The loop, over the turns it is given. */
  function Run(x: Setting, turns: seq<Turn>): (c: Course)
    ensures c.pos <= |x.stream|
    decreases |turns|
  {
    if turns == [] then Course(0, [], [], x.capacity, true, [], Running) else
      var c := Run(x, turns[..|turns| - 1]);
      if c.stop == Running then Turned(x, c, turns[|turns| - 1]) else c
  }

  // ---------------------------------------------------------------------------
  // Every packet handed over is whole, and together they are what was counted as read
  // ---------------------------------------------------------------------------

  /** Not yet whole, and nothing wrong with it so far. */
  ghost predicate Pending(limit: nat, rest: seq<byte>) {
    match HeadFrom(rest, 1, 0)
    case Short => true
    case Complete(h, v) => |rest| < h + v <= limit
    case Overlong => false
  }

  lemma PendingDecides(limit: nat, rest: seq<byte>)
    requires Pending(limit, rest)
    ensures Needed(rest) >= 1
    ensures FirstFrame(limit, rest) == if |rest| + Needed(rest) <= limit then More else Bad(TooLarge)
  {
  }

  ghost predicate Explains(limit: nat, stop: Stop, rest: seq<byte>) {
    match stop
    case Running => Pending(limit, rest)
    case TakenOver => true
    case Fault(f) => FirstFrame(limit, rest) == Bad(f)
    case _ => FirstFrame(limit, rest) == More
  }

  ghost predicate Accounted(x: Setting, c: Course) {
    && c.pos <= |x.stream| && x.stream[..c.pos] + c.stale == Concat(c.handed) + c.rest
    && AllFrames(x.limit, c.handed) && (c.open ==> c.stale == []) && Explains(x.limit, c.stop, c.rest)
  }

  lemma TakenAccounted(x: Setting, c: Course, t: Turn)
    requires Accounted(x, c) && c.open && c.stop == Running
    ensures var d := Taken(c, t, Chunk(x, c, t));
      && d.pos <= |x.stream| && x.stream[..d.pos] + d.stale == Concat(d.handed) + d.rest && (d.open ==> d.stale == [])
  {
    var d, k := Taken(c, t, Chunk(x, c, t)), Chunk(x, c, t);
    assert x.stream[..c.pos] + [] == x.stream[..c.pos];
    if t.recv.Vanished? {
      assert x.stream[..c.pos] + k == Concat(c.handed) + (c.rest + k);
    } else {
      assert x.stream[..d.pos] == x.stream[..c.pos] + k;
      assert x.stream[..d.pos] + [] == Concat(c.handed) + (c.rest + k);
    }
  }

  lemma JudgedAccounted(x: Setting, c: Course, t: Turn, had: seq<byte>)
    requires c.pos <= |x.stream| && x.stream[..c.pos] + c.stale == Concat(c.handed) + c.rest
    requires AllFrames(x.limit, c.handed) && (c.open ==> c.stale == []) && c.stop == Running
    requires |c.rest| <= x.limit && Grows(had, c.rest)
    ensures Accounted(x, Judged(x.limit, c, t))
  {
    HeadBounds(c.rest, 1, 0);
    GrowsEnough(had, c.rest);
    var d := Judged(x.limit, c, t);
    if |d.handed| > |c.handed| {
      ConcatAppend(c.handed, c.rest);
      assert Concat(d.handed) + [] == Concat(c.handed) + c.rest;
    }
  }

  /** `rest` extends `had` by no more than was needed. */
  ghost predicate Grows(had: seq<byte>, rest: seq<byte>) {
    had <= rest && |rest| <= |had| + Needed(had) && !HeadFrom(had, 1, 0).Overlong? && Needed(had) >= 1
  }

  /** So it never runs past the end of the packet. */
  lemma GrowsEnough(had: seq<byte>, rest: seq<byte>)
    requires Grows(had, rest)
    ensures HeadFrom(rest, 1, 0).Complete? ==> |rest| <= HeadFrom(rest, 1, 0).size + HeadFrom(rest, 1, 0).value
  {
    var more := rest[|had|..];
    assert rest == had + more;
    HeadBounds(rest, 1, 0);
    if HeadFrom(had, 1, 0).Short? {
      if |had| >= 1 { HeadGrows(had, more, 1, 0); }
    } else {
      HeadStable(had, more, 1, 0);
    }
  }

  lemma TurnedAccounted(x: Setting, c: Course, t: Turn)
    requires Accounted(x, c) && c.stop == Running
    ensures Accounted(x, Turned(x, c, t))
  {
    PendingDecides(x.limit, c.rest);
    if Reads(x, c, t) && Chunk(x, c, t) != [] {
      ReadAccounted(x, c.(capacity := Room(x, c)), t);
    } else {
      var d := Turned(x, c, t);
      StoppedAccounted(x, c, d.stop, d.capacity);
    }
  }

  lemma StoppedAccounted(x: Setting, c: Course, stop: Stop, capacity: nat)
    requires Accounted(x, c) && Explains(x.limit, stop, c.rest)
    ensures Accounted(x, c.(stop := stop, capacity := capacity))
  {
  }

  lemma ReadAccounted(x: Setting, c: Course, t: Turn)
    requires Accounted(x, c) && c.stop == Running && c.open && |c.rest| + Needed(c.rest) <= x.limit
    requires Needed(c.rest) >= 1
    ensures Accounted(x, Judged(x.limit, Taken(c, t, Chunk(x, c, t)), t))
  {
    TakenAccounted(x, c, t);
    JudgedAccounted(x, Taken(c, t, Chunk(x, c, t)), t, c.rest);
  }

  lemma {:induction false} RunAccounted(x: Setting, turns: seq<Turn>)
    ensures Accounted(x, Run(x, turns))
    decreases |turns|
  {
    if turns == [] {
      assert x.stream[..0] + [] == Concat<byte>([]) + [];
    } else {
      var c := Run(x, turns[..|turns| - 1]);
      RunAccounted(x, turns[..|turns| - 1]);
      if c.stop == Running { TurnedAccounted(x, c, turns[|turns| - 1]); }
    }
  }

  lemma Ending(limit: nat, handed: seq<seq<byte>>, rest: seq<byte>)
    requires AllFrames(limit, handed)
    ensures handed <= Decode(limit, Concat(handed) + rest).frames
    ensures !FirstFrame(limit, rest).Frame? ==>
        Decode(limit, Concat(handed) + rest) == Decoded(handed, FirstFrame(limit, rest))
  {
    DecodeFrames(limit, handed, rest);
    assert handed + [] == handed;
  }

  /** However the socket splits the stream, the packets handed over are the ones the decoder finds in
      the bytes counted as read; only a takeover may leave the last of them behind. */
  lemma RunDecodes(x: Setting, turns: seq<Turn>)
    ensures var c := Run(x, turns); var d := Decode(x.limit, x.stream[..c.pos] + c.stale);
      && c.handed <= d.frames
      && (c.stop != TakenOver ==> c.handed == d.frames)
      && (c.stop.Fault? ==> d.end == Bad(c.stop.fault))
      && (c.stop == OutOfMemory || c.stop == Socket || c.stop.Handler? ==> d.end == More)
      && (c.stop == Running ==> d.end == if |c.rest| + Needed(c.rest) <= x.limit then More else Bad(TooLarge))
  {
    var c := Run(x, turns);
    RunAccounted(x, turns);
    if c.stop == Running { PendingDecides(x.limit, c.rest); }
    Ending(x.limit, c.handed, c.rest);
  }

  // ---------------------------------------------------------------------------
  // What a vanished read does
  // ---------------------------------------------------------------------------

  /** The value of the length bytes at places 1 to `n - 1`. */
  function Partial(s: seq<byte>, n: nat): nat
    requires n <= |s|
  {
    if n <= 1 then 0 else Partial(s, n - 1) + s[n - 1] % 128 * Shift(n - 2)
  }

  ghost predicate Continued(s: seq<byte>, n: nat) {
    n <= |s| && forall i :: 1 <= i < n ==> s[i] >= 128
  }

  /** Reading the length byte by byte, without looking back, is reading the header from its start. */
  lemma {:induction false} HeadResumes(s: seq<byte>, n: nat)
    requires 1 <= n <= 4 && Continued(s, n)
    ensures HeadFrom(s, 1, 0) == HeadFrom(s, n, Partial(s, n))
  {
    if n > 1 { HeadResumes(s, n - 1); }
  }

  lemma {:induction false} PartialPrefix(s: seq<byte>, t: seq<byte>, n: nat)
    requires n <= |s|
    ensures Partial(s + t, n) == Partial(s, n)
  {
    if n > 1 { PartialPrefix(s, t, n - 1); }
  }

  /** The length byte just read. */
  lemma LengthByte(got: seq<byte>, b: byte)
    requires 1 <= |got| <= 4 && Continued(got, |got|)
    ensures var n, r := |got|, Partial(got, |got|) + b % 128 * Shift(|got| - 1);
      && Partial(got + [b], n + 1) == r
      && (b < 128 ==> HeadFrom(got + [b], 1, 0) == Complete(n + 1, r))
      && (b >= 128 ==> Continued(got + [b], n + 1) && (n == 4 ==> HeadFrom(got + [b], 1, 0) == Overlong))
  {
    PartialPrefix(got, [b], |got|);
    HeadResumes(got + [b], |got|);
  }

  lemma {:induction false} ShortContinues(s: seq<byte>, k: nat, v: nat)
    requires 1 <= k <= 4 && HeadFrom(s, k, v).Short?
    ensures forall i :: k <= i < |s| ==> s[i] >= 128
    decreases 4 - k
  {
    if k < 4 && |s| > k { ShortContinues(s, k + 1, v + s[k] % 128 * Shift(k - 1)); }
  }

  /** These bytes make the packet whole: its length was known, so that they are all that was missing;
      or its first length bytes were zeros and so is the one they end with. */
  predicate Completes(rest: seq<byte>, chunk: seq<byte>)
    requires chunk != []
  {
    HeadFrom(rest, 1, 0).Complete? || (rest != [] && chunk[0] == 0 && Partial(rest, |rest|) == 0)
  }

  lemma CompletesExactly(limit: nat, rest: seq<byte>, chunk: seq<byte>)
    requires Pending(limit, rest) && chunk != [] && |chunk| == Needed(rest) && |rest| + |chunk| <= limit
    ensures FirstFrame(limit, rest + chunk).Frame? <==> Completes(rest, chunk)
    ensures Completes(rest, chunk) ==> FirstFrame(limit, rest + chunk) == Frame(|rest + chunk|)
  {
    if HeadFrom(rest, 1, 0).Complete? {
      HeadStable(rest, chunk, 1, 0);
    } else {
      HeadBounds(rest, 1, 0);
      ShortContinues(rest, 1, 0);
      assert chunk == [chunk[0]];
      if rest != [] {
        LengthByte(rest, chunk[0]);
        PartialPrefix(rest, chunk, |rest|);
        NoSum(Partial(rest, |rest|), chunk[0] % 128, Shift(|rest| - 1));
      }
    }
  }

  lemma NoSum(a: nat, b: nat, w: nat)
    requires w > 0
    ensures a + b * w == 0 <==> a == 0 && b == 0
  {
    if b > 0 { assert b * w >= w; }
  }

  /** The read of this turn vanishes and is taken for the bytes that complete a packet. */
  predicate ForgesIn(x: Setting, c: Course, t: Turn) {
    && c.stop == Running && Reads(x, c, t) && t.recv.Vanished? && !t.takeoverAfter
    && Needed(c.rest) > 0 && Completes(c.rest, Padded(x.leftover, Needed(c.rest)))
  }

  ghost predicate ForgesAt(x: Setting, turns: seq<Turn>, i: nat)
    requires i < |turns|
  {
    ForgesIn(x, Run(x, turns[..i]), turns[i])
  }

  ghost predicate Forges(x: Setting, turns: seq<Turn>) {
    exists i :: 0 <= i < |turns| && ForgesAt(x, turns, i)
  }

  lemma SameTurn(x: Setting, turns: seq<Turn>, n: nat, i: nat)
    requires i < n <= |turns|
    ensures ForgesAt(x, turns, i) <==> ForgesAt(x, turns[..n], i)
  {
    assert turns[..n][..i] == turns[..i];
  }

  lemma ForgesNext(x: Setting, turns: seq<Turn>)
    requires turns != []
    ensures var n := |turns| - 1; Forges(x, turns) <==> Forges(x, turns[..n]) || ForgesAt(x, turns, n)
  {
    var n := |turns| - 1;
    if i :| 0 <= i < n && ForgesAt(x, turns[..n], i) { SameTurn(x, turns, n, i); }
    if i :| 0 <= i < n && ForgesAt(x, turns, i) { SameTurn(x, turns, n, i); }
  }

  ghost function Genuine(x: Setting, c: Course): seq<seq<byte>>
    requires c.pos <= |x.stream|
  {
    Decode(x.limit, x.stream[..c.pos]).frames
  }

  /** What a read that vanishes leaves, as long as the socket is still thought open. */
  lemma VanishedTurn(x: Setting, c: Course, t: Turn)
    requires Accounted(x, c) && c.stop == Running && Reads(x, c, t) && t.recv.Vanished?
    ensures var d, k := Turned(x, c, t), Padded(x.leftover, Needed(c.rest));
      && !d.open && d.pos == c.pos && Needed(c.rest) > 0 && Genuine(x, d) == c.handed
      && d.handed == if !t.takeoverAfter && Completes(c.rest, k) then c.handed + [c.rest + k] else c.handed
  {
    PendingDecides(x.limit, c.rest);
    CompletesExactly(x.limit, c.rest, Padded(x.leftover, Needed(c.rest)));
    Ending(x.limit, c.handed, c.rest);
    assert x.stream[..c.pos] + [] == x.stream[..c.pos];
    HeadBounds(c.rest + Padded(x.leftover, Needed(c.rest)), 1, 0);
  }

  /** Before a read vanishes nothing is forged; afterwards no more packets come, and the packets handed
      over are the genuine ones and the forged one, if there is one. */
  lemma {:induction false} StaleFate(x: Setting, turns: seq<Turn>)
    ensures var c := Run(x, turns);
      if c.open then !Forges(x, turns)
      else if Forges(x, turns) then |c.handed| == |Genuine(x, c)| + 1 && Genuine(x, c) <= c.handed
      else c.handed == Genuine(x, c)
    decreases |turns|
  {
    if turns != [] {
      var n := |turns| - 1;
      var c, t := Run(x, turns[..n]), turns[n];
      StaleFate(x, turns[..n]);
      ForgesNext(x, turns);
      RunAccounted(x, turns[..n]);
      if c.stop == Running && Reads(x, c, t) && t.recv.Vanished? { VanishedTurn(x, c, t); }
    }
  }

  /** "The packets handed over are the decoder's" fails exactly when a read vanishes in a turn where
      what the buffer happens to hold completes a packet, and no takeover comes in between. */
  lemma GenuineUnlessForged(x: Setting, turns: seq<Turn>)
    ensures var c := Run(x, turns); c.handed <= Genuine(x, c) <==> !Forges(x, turns)
    ensures var c := Run(x, turns); c.stop != TakenOver ==> (c.handed == Genuine(x, c) <==> !Forges(x, turns))
  {
    var c := Run(x, turns);
    StaleFate(x, turns);
    RunDecodes(x, turns);
    RunAccounted(x, turns);
    assert x.stream[..c.pos] + [] == x.stream[..c.pos];
  }

  const READ := Turn(false, true, Received(0), false, false, 0)

  lemma RunOneMore(x: Setting, turns: seq<Turn>, t: Turn)
    requires Run(x, turns).stop == Running
    ensures Run(x, turns + [t]) == Turned(x, Run(x, turns), t)
  {
    assert (turns + [t])[..|turns|] == turns;
  }

  /** Two bytes of a PUBLISH arrive, then the socket is closed by another coroutine: a packet of four is
      handed over, two of whose bytes nobody sent. */
  lemma ForgedPacket(leftover: seq<byte>)
    ensures var x, turns := Setting(100, [48, 2], leftover, 1024), [READ, READ, READ.(recv := Vanished)];
      Run(x, turns).handed == [[48, 2] + Padded(leftover, 2)] && Decode(100, x.stream).frames == [] && Forges(x, turns)
  {
    var x, vanished := Setting(100, [48, 2], leftover, 1024), READ.(recv := Vanished);
    var turns := [READ, READ, vanished];
    FirstReads(x);
    assert turns[..2] == [READ] + [READ];
    assert ForgesAt(x, turns, 2);
    RunAccounted(x, [READ] + [READ]);
    VanishedTurn(x, Run(x, [READ] + [READ]), vanished);
  }

  lemma FirstReads(x: Setting)
    requires x == Setting(100, [48, 2], x.leftover, 1024)
    ensures Run(x, [READ] + [READ]) == Course(2, [], [48, 2], 1024, true, [], Running)
    ensures HeadFrom([48, 2], 1, 0) == Complete(2, 2)
  {
    assert Run(x, []) == Course(0, [], [], 1024, true, [], Running);
    RunOneMore(x, [], READ);
    assert [] + [READ] == [READ] && x.stream[0..1] == [48];
    assert Run(x, [READ]) == Course(1, [], [48], 1024, true, [], Running);
    RunOneMore(x, [READ], READ);
    assert x.stream[1..2] == [2] && [48] + [2] == [48, 2];
  }

  // ---------------------------------------------------------------------------
  // Why the loop ends
  // ---------------------------------------------------------------------------

  /** Nothing gets in the way: only the peer ends the stream. */
  predicate Cooperative(t: Turn) {
    !t.takeoverBefore && !t.takeoverAfter && t.memory && t.recv.Received? && t.answer == 0
  }

  /** What turn t, taken in course c, must have met for the loop to stop so. */
  ghost predicate Causes(x: Setting, c: Course, t: Turn, stop: Stop) {
    match stop
    case Running => true
    case TakenOver => t.takeoverBefore || t.takeoverAfter
    case OutOfMemory => !t.memory && c.capacity < |c.rest| + Needed(c.rest)
    case Socket => !c.open || t.recv.Failed? || (t.recv.Received? && c.pos == |x.stream|)
    case Fault(_) => true
    case Handler(code) => code == t.answer != 0
  }

  lemma TurnHasCause(x: Setting, c: Course, t: Turn)
    requires c.pos <= |x.stream| && c.stop == Running && Needed(c.rest) >= 1
    ensures Causes(x, c, t, Turned(x, c, t).stop)
  {
    if Reads(x, c, t) && Chunk(x, c, t) != [] {
      JudgedHasCause(x, c, Taken(c.(capacity := Room(x, c)), t, Chunk(x, c, t)), t);
    }
  }

  lemma JudgedHasCause(x: Setting, c: Course, d: Course, t: Turn)
    requires d.stop == Running
    ensures Causes(x, c, t, Judged(x.limit, d, t).stop)
  {
  }

  lemma LastTurnCauses(x: Setting, turns: seq<Turn>)
    requires turns != [] && Run(x, turns[..|turns| - 1]).stop == Running
    ensures Causes(x, Run(x, turns[..|turns| - 1]), turns[|turns| - 1], Run(x, turns).stop)
  {
    var c := Run(x, turns[..|turns| - 1]);
    RunAccounted(x, turns[..|turns| - 1]);
    PendingDecides(x.limit, c.rest);
    TurnHasCause(x, c, turns[|turns| - 1]);
  }

  /** The loop stops in the first turn that gives it cause to, and what it stops with is that cause. */
  lemma {:induction false} StopHasCause(x: Setting, turns: seq<Turn>) returns (i: nat)
    requires Run(x, turns).stop != Running
    ensures i < |turns| && Run(x, turns[..i]).stop == Running && Run(x, turns[..i + 1]) == Run(x, turns)
    ensures Causes(x, Run(x, turns[..i]), turns[i], Run(x, turns).stop)
    decreases |turns|
  {
    var n := |turns| - 1;
    var c := Run(x, turns[..n]);
    if c.stop == Running {
      i := n;
      LastTurnCauses(x, turns);
      assert turns[..n + 1] == turns;
    } else {
      i := StopHasCause(x, turns[..n]);
      assert turns[..n][..i] == turns[..i] && turns[..n][..i + 1] == turns[..i + 1];
    }
  }

  /** The turn reads at least one byte. */
  predicate Gets(x: Setting, c: Course, t: Turn)
    requires c.pos <= |x.stream|
  {
    Reads(x, c, t) && Chunk(x, c, t) != []
  }

  /** And conversely every cause stops it: a takeover, a packet refused by the decoder, an allocator without
      the memory that is needed, a socket with nothing to give, and a packet whose handling fails. */
  lemma CauseStops(x: Setting, c: Course, t: Turn)
    requires c.pos <= |x.stream| && c.stop == Running && Pending(x.limit, c.rest)
    ensures var d, n := Turned(x, c, t), |c.rest| + Needed(c.rest);
      && (d.stop == TakenOver <==> t.takeoverBefore || (Gets(x, c, t) && t.takeoverAfter))
      && (d.stop == OutOfMemory <==> !t.takeoverBefore && c.capacity < n <= x.limit && !t.memory)
      && (d.stop == Socket <==> !t.takeoverBefore && n <= x.limit && (n <= c.capacity || t.memory) && !Gets(x, c, t))
      && (d.stop.Handler? <==> Gets(x, c, t) && !t.takeoverAfter && t.answer != 0 && HandsOver(x, c, t))
      && (|d.handed| > |c.handed| <==> Gets(x, c, t) && !t.takeoverAfter && HandsOver(x, c, t))
      && (t.takeoverBefore || n <= x.limit || d.stop == Fault(TooLarge))
  {
    PendingDecides(x.limit, c.rest);
    if Gets(x, c, t) { JudgedStops(x, c, t); }
  }

  /** The bytes of this turn complete a packet. */
  predicate HandsOver(x: Setting, c: Course, t: Turn)
    requires c.pos <= |x.stream|
  {
    FirstFrame(x.limit, c.rest + Chunk(x, c, t)).Frame?
  }

  lemma JudgedStops(x: Setting, c: Course, t: Turn)
    requires c.pos <= |x.stream| && c.stop == Running && Pending(x.limit, c.rest) && Gets(x, c, t)
    ensures var d := Turned(x, c, t);
      if t.takeoverAfter then d.stop == TakenOver && d.handed == c.handed
      else if HandsOver(x, c, t)
      then d.handed == c.handed + [c.rest + Chunk(x, c, t)] && d.stop == if t.answer != 0
          then Handler(t.answer) else Running
      else d.handed == c.handed && (d.stop == Running || d.stop.Fault?)
  {
    PendingDecides(x.limit, c.rest);
    HeadBounds(c.rest + Chunk(x, c, t), 1, 0);
  }

  lemma {:induction false} CooperativeRun(x: Setting, turns: seq<Turn>)
    requires forall i :: 0 <= i < |turns| ==> Cooperative(turns[i])
    ensures var c := Run(x, turns);
      c.open && (c.stop == Running ==>
          c.pos >= |turns|) && (c.stop == Running || c.stop.Fault? || (c.stop == Socket && c.pos == |x.stream|))
    decreases |turns|
  {
    if turns != [] {
      var n := |turns| - 1;
      CooperativeRun(x, turns[..n]);
      RunAccounted(x, turns[..n]);
      if Run(x, turns[..n]).stop == Running { CooperativeTurn(x, Run(x, turns[..n]), turns[n]); }
    }
  }

  lemma CooperativeTurn(x: Setting, c: Course, t: Turn)
    requires Accounted(x, c) && c.stop == Running && c.open && Cooperative(t)
    ensures var d := Turned(x, c, t);
      && d.open && (d.stop == Running ==> d.pos > c.pos)
      && (d.stop == Running || d.stop.Fault? || (d.stop == Socket && d.pos == |x.stream|))
  {
    PendingDecides(x.limit, c.rest);
  }

  /** Left alone, the loop hands over every packet of the stream, up to its first fault. */
  lemma LeftAlone(x: Setting, turns: seq<Turn>)
    requires |turns| > |x.stream| && forall i :: 0 <= i < |turns| ==> Cooperative(turns[i])
    ensures var c := Run(x, turns);
      && c.handed == Decode(x.limit, x.stream).frames
      && Decode(x.limit, x.stream).end == if c.stop.Fault? then Bad(c.stop.fault) else More
  {
    var c := Run(x, turns);
    CooperativeRun(x, turns);
    RunDecodes(x, turns);
    RunAccounted(x, turns);
    assert x.stream[..c.pos] + [] == x.stream[..c.pos];
    DecodeMonotone(x.limit, x.stream[..c.pos], x.stream[c.pos..]);
    assert x.stream == x.stream[..c.pos] + x.stream[c.pos..];
    assert c.pos == |x.stream| ==> x.stream[..c.pos] == x.stream;
  }

  // ---------------------------------------------------------------------------
  // What the buffer holds past the bytes read matters only to a read that vanishes
  // ---------------------------------------------------------------------------

  lemma TurnedLeftover(x: Setting, y: Setting, c: Course, t: Turn)
    requires y == x.(leftover := y.leftover) && c.pos <= |x.stream| && !(Reads(x, c, t) && t.recv.Vanished?)
    ensures Turned(x, c, t) == Turned(y, c, t)
  {
    assert Room(x, c) == Room(y, c);
    if Reads(x, c, t) { assert Chunk(x, c, t) == Chunk(y, c, t); }
  }

  lemma VanishedCloses(x: Setting, c: Course, t: Turn)
    requires c.pos <= |x.stream| && Reads(x, c, t) && t.recv.Vanished? && Needed(c.rest) >= 1
    ensures !Turned(x, c, t).open
  {
  }

  lemma {:induction false} RunLeftover(x: Setting, y: Setting, turns: seq<Turn>)
    requires y == x.(leftover := y.leftover) && Run(x, turns).open
    ensures Run(x, turns) == Run(y, turns)
    decreases |turns|
  {
    if turns != [] {
      var n := |turns| - 1;
      var c, t := Run(x, turns[..n]), turns[n];
      if c.stop == Running {
        RunAccounted(x, turns[..n]);
        PendingDecides(x.limit, c.rest);
        if Reads(x, c, t) && t.recv.Vanished? { VanishedCloses(x, c, t); }
        if !c.open { ClosedStays(x, c, t); }
        TurnedLeftover(x, y, c, t);
      }
      RunLeftover(x, y, turns[..n]);
    }
  }

  lemma ClosedStays(x: Setting, c: Course, t: Turn)
    requires c.pos <= |x.stream| && !c.open
    ensures !Turned(x, c, t).open
  {
  }
}
