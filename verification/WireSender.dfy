/** Sending whole packets over one socket: the write lock, partial writes and closing on failure. */
module WireSender {
  import opened Basics
  import opened Bytes

  datatype Result = Success | InvalidArgs | LockTimeout | NotConnected | SendError

  // ---------------------------------------------------------------------------
  // One send on a socket nobody else writes to
  // ---------------------------------------------------------------------------

  /** What one attempt to write meets: the deadline, or an answer of the system call. */
  datatype Attempt =
    | Deadline
    | Lost
    | Sent(n: nat)
    | Interrupted
    | WouldBlock(ready: bool)
    | Broken

  /** An attempt after which the send goes on. */
  predicate GoesOn(a: Attempt) {
    a == Interrupted || a == WouldBlock(true) || (a.Sent? && a.n >= 1)
  }

  /** The bytes the first k attempts offer to take. */
  function Offered(attempts: seq<Attempt>, k: nat): nat
    requires k <= |attempts|
  {
    if k == 0 then 0 else Offered(attempts, k - 1) + if attempts[k - 1].Sent? then attempts[k - 1].n else 0
  }

  ghost predicate AllGoOn(attempts: seq<Attempt>, k: nat)
    requires k <= |attempts|
  {
    forall j :: 0 <= j < k ==> GoesOn(attempts[j])
  }

  /** The first attempts go on and take this many bytes between them. */
  ghost predicate Suffices(attempts: seq<Attempt>, k: nat, total: nat)
    requires k <= |attempts|
  {
    AllGoOn(attempts, k) && Offered(attempts, k) >= total
  }

  /** The first attempts go on and take fewer bytes, and then there is none, or one that ends the send. */
  ghost predicate FallsShort(attempts: seq<Attempt>, k: nat, total: nat)
    requires k <= |attempts|
  {
    AllGoOn(attempts, k) && Offered(attempts, k) < total && (k < |attempts| ==> !GoesOn(attempts[k]))
  }

  ghost predicate Enough(attempts: seq<Attempt>, total: nat) {
    exists k :: 0 <= k <= |attempts| && Suffices(attempts, k, total)
  }

  /** The wire has grown by exactly what the first k attempts took. */
  ghost predicate Cut(before: seq<byte>, wire: seq<byte>, packet: seq<byte>, attempts: seq<Attempt>, k: nat)
    requires k <= |attempts|
  {
    FallsShort(attempts, k, |packet|) && wire == before + packet[..Offered(attempts, k)]
  }

  lemma {:induction false} OfferedGrows(attempts: seq<Attempt>, j: nat, k: nat)
    requires j <= k <= |attempts|
    ensures Offered(attempts, j) <= Offered(attempts, k)
  {
    if j < k { OfferedGrows(attempts, j, k - 1); }
  }

  /** The attempts suffice or fall short, and not both. */
  lemma ShortIsNotEnough(attempts: seq<Attempt>, k: nat, total: nat)
    requires k <= |attempts| && FallsShort(attempts, k, total)
    ensures !Enough(attempts, total)
  {
    forall i | 0 <= i <= |attempts| ensures !Suffices(attempts, i, total) {
      if i <= k { OfferedGrows(attempts, i, k); } else { assert !GoesOn(attempts[k]); }
    }
  }

  lemma TakenMore(packet: seq<byte>, sent: nat, m: nat)
    requires sent + m <= |packet|
    ensures packet[..sent] + packet[sent..][..m] == packet[..sent + m]
  {
  }

  class Socket {
    var open: bool
    var connected: bool
    /** Every byte the peer has been sent. */
    var wire: seq<byte>

    ghost predicate Valid() reads this { connected ==> open }

    constructor ()
      ensures Valid() && open && connected && wire == []
    {
      open, connected, wire := true, true, [];
    }

    method Close()
      modifies this
      ensures !open && wire == old(wire) && connected == (old(connected) && !old(open))
    {
      if open { open, connected := false, false; }
    }

    /** The system call takes the first bytes of what it is given, `n` of them if there are as many. */
    method SendMsg(iov: seq<seq<byte>>, n: nat) returns (sent: nat)
      requires open
      modifies this`wire
      ensures sent == Min(n, |Concat(iov)|) && wire == old(wire) + Concat(iov)[..sent]
    {
      sent := Min(n, |Concat(iov)|);
      wire := wire + Concat(iov)[..sent];
    }

    /** Writes head and body as one packet, over as many attempts as it takes: it succeeds exactly when
        some first attempts all go on and take the whole packet, and otherwise it has written what those
        before the first that does not go on have taken. Attempts that run out are a deadline. */
    method SendParts(head: seq<byte>, body: seq<byte>, attempts: seq<Attempt>) returns (r: Result)
      requires Valid()
      modifies this
      ensures Valid() && old(wire) <= wire <= old(wire) + head + body
      ensures r == Success <==> old(connected) && head + body != [] && wire == old(wire) + head + body
      ensures r == InvalidArgs <==> head + body == []
      ensures r == NotConnected <==> head + body != [] && !old(connected)
      ensures r == Success || r == InvalidArgs || r == NotConnected || r == SendError
      ensures old(connected) && head + body != [] ==> (r == Success <==> Enough(attempts, |head| + |body|))
      ensures r == SendError ==>
        exists k :: 0 <= k <= |attempts| && Cut(old(wire), wire, head + body, attempts, k)
      ensures r == SendError ==> !open && !connected
      ensures r == Success ==> open == old(open) && connected == old(connected)
      ensures r == InvalidArgs || r == NotConnected ==>
          wire == old(wire) && open == old(open) && connected == old(connected)
    {
      if |head| == 0 && |body| == 0 { return InvalidArgs; }
      if !connected { return NotConnected; }
      var total := |head| + |body|;
      var sent := 0;
      var i := 0;
      r := Success;
      ghost var before := wire;
      ghost var k := 0;
      while sent < total && r == Success
        invariant 0 <= sent <= total && k <= i <= |attempts| && wire == before + (head + body)[..sent]
        invariant r == Success || (r == SendError && sent < total)
        invariant AllGoOn(attempts, k) && sent == Min(total, Offered(attempts, k)) && open
        invariant if r == Success && connected then k == i else k < |attempts| && !GoesOn(attempts[k]) && sent < total
        decreases |attempts| - i, r == Success
      {
        if i == |attempts| || attempts[i] == Deadline || !connected || !open {
          r := SendError;
          break;
        }
        var iov := Remaining(head, body, sent);
        match attempts[i] {
          case Lost =>
            // Another coroutine found the connection broken meanwhile.
            connected := false;
          case Sent(n) =>
            var m := SendMsg(iov, n);
            if m == 0 { r := SendError; } else {
              TakenMore(head + body, sent, m);
              sent := sent + m;
            }
          case Interrupted =>
          case WouldBlock(ready) =>
            if !ready { connected, r := false, SendError; }
          case Broken =>
            connected, r := false, SendError;
        }
        if GoesOn(attempts[i]) { k := k + 1; }
        i := i + 1;
      }
      assert (head + body)[..total] == head + body;
      if r != Success {
        assert Cut(before, wire, head + body, attempts, k);
        ShortIsNotEnough(attempts, k, total);
        Close();
      } else {
        assert Suffices(attempts, k, total);
      }
    }
  }

  /** The scatter list points at exactly the bytes not yet sent. */
  method Remaining(head: seq<byte>, body: seq<byte>, sent: nat) returns (iov: seq<seq<byte>>)
    requires sent <= |head| + |body|
    ensures Concat(iov) == (head + body)[sent..]
  {
    if sent < |head| {
      iov := [head[sent..], body];
      assert iov[1..] == [body] && Concat([body]) == body + Concat([]);
    } else {
      iov := [body[sent - |head|..]];
      assert iov[1..] == [];
    }
  }

  // ---------------------------------------------------------------------------
  // Many senders
  // ---------------------------------------------------------------------------

  /** Where a call of send_parts_with_lock stands. `sent` counts the bytes of its packet on the wire. */
  datatype Phase =
    | Waiting
    | Locked
    | Sending(sent: nat)
    | Ready(sent: nat)
    | Failing(sent: nat)
    | Unlocking(result: Result)
    | Done(result: Result)

  datatype Call = Call(packet: seq<byte>, phase: Phase)

  datatype Lock = Free | Held(owner: nat)

  /** `log` holds the calls whose packets went out whole, in order, and `tail` the bytes after them. */
  datatype System = System(open: bool, connected: bool, lock: Lock, wire: seq<byte>,
                           calls: map<nat, Call>, log: seq<nat>, tail: seq<byte>)

  datatype Action =
    | Begin(c: nat, head: seq<byte>, body: seq<byte>)
    | Acquire(c: nat)
    | GiveUp(c: nat)
    | Enter(c: nat)
    | Recheck(c: nat, late: bool)
    | Write(c: nat, n: nat)
    | Retry(c: nat)
    | Refuse(c: nat, breaks: bool)
    | Finish(c: nat)
    | CloseUp(c: nat)
    | Unlock(c: nat)
    | OthersClose
    | OthersBreak

  predicate Enabled(s: System, a: Action) {
    match a
    case Begin(c, _, _) => c !in s.calls
    case OthersClose => true
    case OthersBreak => true
    case _ => a.c in s.calls && Possible(s, s.calls[a.c], a)
  }

  /** What the code of a call does next. */
  predicate Possible(s: System, call: Call, a: Action)
  {
    match a
    case Acquire(_) => call.phase.Waiting? && s.lock.Free?
    case GiveUp(_) => call.phase.Waiting?
    case Enter(_) => call.phase.Locked?
    case Recheck(_, _) => call.phase.Sending? && call.phase.sent < |call.packet|
    case Write(_, n) => call.phase.Ready? && s.open && 1 <= n && call.phase.sent + n <= |call.packet|
    case Retry(_) => call.phase.Ready?
    case Refuse(_, _) => call.phase.Ready?
    case Finish(_) => call.phase.Sending? && call.phase.sent == |call.packet|
    case CloseUp(_) => call.phase.Failing?
    case Unlock(_) => call.phase.Unlocking?
    case _ => false
  }

  function Moved(s: System, a: Action): Phase
    requires Enabled(s, a) && !a.Begin? && !a.OthersClose? && !a.OthersBreak?
  {
    var p := s.calls[a.c].phase;
    match a
    case Acquire(_) => Locked
    case GiveUp(_) => Done(LockTimeout)
    case Enter(_) => if s.connected then Sending(0) else Unlocking(NotConnected)
    case Recheck(_, late) => if !s.connected || !s.open || late then Failing(p.sent) else Ready(p.sent)
    case Write(_, n) => Sending(p.sent + n)
    case Retry(_) => Sending(p.sent)
    case Refuse(_, _) => Failing(p.sent)
    case Finish(_) => Unlocking(Success)
    case CloseUp(_) => Unlocking(SendError)
    case Unlock(_) => Done(p.result)
  }

  function Closed(s: System): System {
    s.(open := false, connected := s.connected && !s.open)
  }

  predicate Internal(a: Action) { !a.Begin? && !a.OthersClose? && !a.OthersBreak? }

  /** One step of a call in progress. */
  function Advance(s: System, a: Action): System
    requires Enabled(s, a) && Internal(a)
  {
    var call := s.calls[a.c];
    var t := s.(calls := s.calls[a.c := call.(phase := Moved(s, a))]);
    if a.Acquire? then t.(lock := Held(a.c))
    else if a.Write? then
      var bytes := call.packet[call.phase.sent..call.phase.sent + a.n];
      t.(wire := t.wire + bytes, tail := t.tail + bytes)
    else if a.Refuse? then t.(connected := t.connected && !a.breaks)
    else if a.Finish? then t.(log := t.log + [a.c], tail := [])
    else if a.CloseUp? then Closed(t)
    else if a.Unlock? then t.(lock := Free)
    else t
  }

  function Next(s: System, a: Action): System
    requires Enabled(s, a)
  {
    match a
    case Begin(c, head, body) =>
      s.(calls := s.calls[c := Call(head + body, if head == [] then Done(InvalidArgs) else Waiting)])
    case OthersClose => Closed(s)
    case OthersBreak => s.(connected := false)
    case _ => Advance(s, a)
  }

  predicate Holding(p: Phase) { !p.Waiting? && !p.Done? }

  predicate Midway(p: Phase) { p.Sending? || p.Ready? || p.Failing? }

  predicate Ended(p: Phase, r: Result) { p == Unlocking(r) || p == Done(r) }

  /** The packets of these calls, one after the other. */
  function Packets(calls: map<nat, Call>, log: seq<nat>): seq<byte>
    requires forall i :: 0 <= i < |log| ==> log[i] in calls
  {
    if log == [] then [] else Packets(calls, log[..|log| - 1]) + calls[log[|log| - 1]].packet
  }

  /** The log names each successful call once, and no other call. */
  ghost predicate Logged(calls: map<nat, Call>, log: seq<nat>) {
    && (forall i :: 0 <= i < |log| ==> log[i] in calls)
    && (forall c :: c in calls ==> (Ended(calls[c].phase, Success) <==> c in log))
    && (forall i, j :: 0 <= i < j < |log| ==> log[i] != log[j])
  }

  predicate CountOk(call: Call) {
    && (Midway(call.phase) ==> call.phase.sent <= |call.packet|)
    && (call.phase.Ready? || call.phase.Failing? ==> call.phase.sent < |call.packet|)
  }

  /** Exactly the lock's holder is between taking the lock and giving it back. */
  ghost predicate LockOk(calls: map<nat, Call>, lock: Lock) {
    && (lock.Held? ==> lock.owner in calls)
    && (forall c :: c in calls ==> CountOk(calls[c]) && (Holding(calls[c].phase) <==> lock == Held(c)))
  }

  /** Some call failed with exactly these bytes of its packet written. */
  ghost predicate LeftBy(calls: map<nat, Call>, tail: seq<byte>) {
    exists c :: c in calls && Ended(calls[c].phase, SendError) && tail < calls[c].packet
  }

  /** The bytes after the last whole packet: the holder's own, or what a failed call left behind. */
  ghost predicate TailOk(s: System) {
    && (s.connected ==> s.open)
    && (forall c :: c in s.calls && Ended(s.calls[c].phase, SendError) ==> !s.open)
    && if s.lock.Held? && s.lock.owner in s.calls && Midway(s.calls[s.lock.owner].phase)
       then var h := s.calls[s.lock.owner]; h.phase.sent <= |h.packet| && s.tail == h.packet[..h.phase.sent]
       else s.tail != [] ==> !s.open && LeftBy(s.calls, s.tail)
  }

  ghost predicate WireOk(s: System) {
    (forall i :: 0 <= i < |s.log| ==> s.log[i] in s.calls) && s.wire == Packets(s.calls, s.log) + s.tail
  }

  ghost predicate Inv(s: System) {
    LockOk(s.calls, s.lock) && Logged(s.calls, s.log) && TailOk(s) && WireOk(s)
  }

  lemma {:induction false} PacketsKept(calls: map<nat, Call>, calls': map<nat, Call>, log: seq<nat>)
    requires forall i :: 0 <= i < |log| ==>
        log[i] in calls && log[i] in calls' && calls[log[i]].packet == calls'[log[i]].packet
    ensures Packets(calls, log) == Packets(calls', log)
  {
    if log != [] { PacketsKept(calls, calls', log[..|log| - 1]); }
  }

  lemma BeginKeeps(s: System, a: Action)
    requires Inv(s) && Enabled(s, a) && a.Begin?
    ensures Inv(Next(s, a))
  {
    PacketsKept(s.calls, Next(s, a).calls, s.log);
  }

  lemma OthersKeep(s: System, a: Action)
    requires Inv(s) && Enabled(s, a) && (a.OthersClose? || a.OthersBreak?)
    ensures Inv(Next(s, a))
  {
  }

  lemma MoveLock(s: System, a: Action)
    requires LockOk(s.calls, s.lock) && Enabled(s, a) && Internal(a)
    ensures LockOk(Advance(s, a).calls, Advance(s, a).lock)
  {}

  lemma MoveLog(s: System, a: Action)
    requires Logged(s.calls, s.log) && Enabled(s, a) && Internal(a)
    ensures Logged(Advance(s, a).calls, Advance(s, a).log)
  {}

  lemma LeftStays(s: System, a: Action)
    requires LeftBy(s.calls, s.tail) && Enabled(s, a) && Internal(a)
    ensures LeftBy(Advance(s, a).calls, s.tail)
  {
    var c :| c in s.calls && Ended(s.calls[c].phase, SendError) && s.tail < s.calls[c].packet;
    assert c in Advance(s, a).calls && Ended(Advance(s, a).calls[c].phase, SendError);
  }

  lemma WriteTail(s: System, a: Action)
    requires LockOk(s.calls, s.lock) && TailOk(s) && Enabled(s, a) && a.Write?
    ensures TailOk(Advance(s, a))
  {
    var h := s.calls[a.c];
    assert s.lock == Held(a.c) by { assert Holding(h.phase); }
    assert h.packet[..h.phase.sent] + h.packet[h.phase.sent..h.phase.sent + a.n] == h.packet[..h.phase.sent + a.n];
  }

  lemma CloseTail(s: System, a: Action)
    requires LockOk(s.calls, s.lock) && TailOk(s) && Enabled(s, a) && a.CloseUp?
    ensures TailOk(Advance(s, a))
  {
    var h := s.calls[a.c];
    assert s.lock == Held(a.c) by { assert Holding(h.phase); }
    assert s.tail == h.packet[..h.phase.sent] && s.tail < h.packet;
    assert Ended(Advance(s, a).calls[a.c].phase, SendError);
  }

  lemma MoveTail(s: System, a: Action)
    requires LockOk(s.calls, s.lock) && TailOk(s) && Enabled(s, a) && Internal(a)
    ensures TailOk(Advance(s, a))
  {
    if a.CloseUp? { CloseTail(s, a); return; }
    if a.Write? { WriteTail(s, a); return; }
    assert s.lock == Held(a.c) <==> Holding(s.calls[a.c].phase);
    if LeftBy(s.calls, s.tail) { LeftStays(s, a); }
  }

  lemma OneMorePacket(calls: map<nat, Call>, calls': map<nat, Call>, log: seq<nat>, c: nat)
    requires forall i :: 0 <= i < |log| ==>
        log[i] in calls && log[i] in calls' && calls[log[i]].packet == calls'[log[i]].packet
    requires c in calls'
    ensures forall i :: 0 <= i < |log + [c]| ==> (log + [c])[i] in calls'
    ensures Packets(calls', log + [c]) == Packets(calls, log) + calls'[c].packet
  {
    PacketsKept(calls, calls', log);
    assert (log + [c])[..|log|] == log;
  }

  lemma FinishWire(s: System, a: Action)
    requires WireOk(s) && LockOk(s.calls, s.lock) && TailOk(s) && Enabled(s, a) && a.Finish?
    ensures WireOk(Advance(s, a))
  {
    var t := Advance(s, a);
    assert s.lock == Held(a.c) by { assert Holding(s.calls[a.c].phase); }
    assert s.tail == s.calls[a.c].packet == t.calls[a.c].packet;
    OneMorePacket(s.calls, t.calls, s.log, a.c);
  }

  lemma MoveWire(s: System, a: Action)
    requires WireOk(s) && Enabled(s, a) && Internal(a) && !a.Finish?
    ensures WireOk(Advance(s, a))
  {
    var t := Advance(s, a);
    assert t.log == s.log;
    PacketsKept(s.calls, t.calls, s.log);
    if a.Write? {
      var bytes := s.calls[a.c].packet[s.calls[a.c].phase.sent..s.calls[a.c].phase.sent + a.n];
      assert t.tail == s.tail + bytes && t.wire == s.wire + bytes;
      assert Packets(s.calls, s.log) + (s.tail + bytes) == s.wire + bytes;
    } else {
      assert t.tail == s.tail && t.wire == s.wire;
    }
  }

  lemma StepKeeps(s: System, a: Action)
    requires Inv(s) && Enabled(s, a)
    ensures Inv(Next(s, a))
  {
    if Internal(a) {
      MoveLock(s, a);
      MoveTail(s, a);
      MoveLog(s, a);
      if a.Finish? { FinishWire(s, a); } else { MoveWire(s, a); }
    } else if a.Begin? {
      BeginKeeps(s, a);
    } else {
      OthersKeep(s, a);
    }
  }

  const START := System(true, true, Free, [], map[], [], [])

  predicate IsStep(s: System, a: Action, t: System) {
    Enabled(s, a) && t == Next(s, a)
  }

  ghost predicate IsRun(acts: seq<Action>, run: seq<System>) {
    && |run| == |acts| + 1 && run[0] == START
    && forall i {:trigger acts[i]} :: 0 <= i < |acts| ==> IsStep(run[i], acts[i], run[i + 1])
  }

  lemma {:induction false} RunKeeps(acts: seq<Action>, run: seq<System>, n: nat)
    requires IsRun(acts, run) && n < |run|
    ensures Inv(run[n])
  {
    if n == 0 {
      assert Packets(START.calls, []) == [];
    } else {
      RunKeeps(acts, run, n - 1);
      StepKeeps(run[n - 1], acts[n - 1]);
    }
  }

  /** In every state of every run the wire carries whole packets, one for each successful call and no
      other, and then at most one packet's first bytes: those of the call that holds the lock, or of
      one that failed, and then the socket is closed. */
  lemma WireIntegrity(acts: seq<Action>, run: seq<System>, n: nat)
    requires IsRun(acts, run) && n < |run|
    ensures Logged(run[n].calls, run[n].log)
    ensures run[n].wire == Packets(run[n].calls, run[n].log) + run[n].tail
    ensures run[n].tail == [] || (!run[n].open && LeftBy(run[n].calls, run[n].tail)) ||
            (&& run[n].lock.Held? && run[n].lock.owner in run[n].calls
             && run[n].tail <= run[n].calls[run[n].lock.owner].packet)
  {
    RunKeeps(acts, run, n);
  }

  /** A packet abandoned half way is never followed by anything. */
  lemma {:induction false} NothingAfterFailure(acts: seq<Action>, run: seq<System>, n: nat, m: nat, c: nat)
    requires IsRun(acts, run) && n <= m < |run|
    requires c in run[n].calls && Ended(run[n].calls[c].phase, SendError)
    ensures !run[m].open && run[m].wire == run[n].wire
    decreases m
  {
    RunKeeps(acts, run, n);
    if n < m {
      NothingAfterFailure(acts, run, n, m - 1, c);
      assert IsStep(run[m - 1], acts[m - 1], run[m]);
    }
  }

  /** Step a, taken in state s, is what makes call c end with r: its arguments, the lock it waited for in
      vain, a socket that was not connected when it got the lock, or, once it was sending, the deadline, a
      socket closed or broken, or a refusal of the system call. */
  predicate Causes(s: System, a: Action, c: nat, r: Result) {
    match r
    case Success => a == Finish(c)
    case InvalidArgs => a.Begin? && a.c == c && a.head == []
    case LockTimeout => a == GiveUp(c)
    case NotConnected => a == Enter(c) && !s.connected
    case SendError => (a.Recheck? && a.c == c && (a.late || !s.connected || !s.open)) || (a.Refuse? && a.c == c)
  }

  /** The result a call has come to, though it may still have to close the socket or free the lock. */
  predicate Comes(p: Phase, r: Result) { Ended(p, r) || (p.Failing? && r == SendError) }

  lemma StepCauses(s: System, a: Action, c: nat, r: Result)
    requires Enabled(s, a) && c in Next(s, a).calls && Comes(Next(s, a).calls[c].phase, r)
    ensures (c in s.calls && Comes(s.calls[c].phase, r)) || Causes(s, a, c, r)
  {
  }

  /** No call fails without cause. */
  lemma {:induction false} ResultsHaveCause(acts: seq<Action>, run: seq<System>, n: nat, c: nat,
                                            r: Result) returns (m: nat)
    requires IsRun(acts, run) && n < |run| && c in run[n].calls && Comes(run[n].calls[c].phase, r)
    ensures m < n && m < |acts| && Causes(run[m], acts[m], c, r)
  {
    if n == 0 {
      assert false;
    } else {
      assert IsStep(run[n - 1], acts[n - 1], run[n]);
      StepCauses(run[n - 1], acts[n - 1], c, r);
      if Causes(run[n - 1], acts[n - 1], c, r) { m := n - 1; } else { m := ResultsHaveCause(acts, run, n - 1, c, r); }
    }
  }

  /** Success means all of the packet, in one piece. */
  lemma SuccessIsWhole(acts: seq<Action>, run: seq<System>, n: nat, c: nat)
    returns (before: seq<byte>, behind: seq<byte>)
    requires IsRun(acts, run) && n < |run| && c in run[n].calls && run[n].calls[c].phase == Done(Success)
    ensures run[n].wire == before + run[n].calls[c].packet + behind
  {
    RunKeeps(acts, run, n);
    var s := run[n];
    assert Ended(s.calls[c].phase, Success);
    var i :| 0 <= i < |s.log| && s.log[i] == c;
    before, behind := PacketsAround(s.calls, s.log, i);
    assert Packets(s.calls, s.log) + s.tail == before + s.calls[c].packet + (behind + s.tail);
    behind := behind + s.tail;
  }

  lemma {:induction false} PacketsAround(calls: map<nat, Call>, log: seq<nat>, i: nat)
    returns (before: seq<byte>, behind: seq<byte>)
    requires (forall i :: 0 <= i < |log| ==> log[i] in calls) && i < |log|
    ensures Packets(calls, log) == before + calls[log[i]].packet + behind
    decreases |log|
  {
    var last := |log| - 1;
    if i == last {
      before, behind := Packets(calls, log[..last]), [];
    } else {
      before, behind := PacketsAround(calls, log[..last], i);
      behind := behind + calls[log[last]].packet;
    }
  }
}
