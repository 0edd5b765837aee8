/** The provider's workers around the circuit breaker, as a machine: each worker takes jobs one
    after another down the HTTP or the RPC path, and may be thrown out of any point of either. */
module BreakerWorkers {
  import opened CircuitBreaker

  /** Where a worker is. On the HTTP path an exception is caught by the worker loop, which reports a
      failure whether or not the breaker had been asked; on the RPC path the call itself catches it,
      and its tail reports exactly when the breaker had admitted it. */
  datatype Pc =
    | Resting
    | HttpStart                                // inside the loop's try block, breaker not yet asked
    | HttpCalling                              // admitted, waiting for the service
    | HttpDone                                 // reported, reading the answer
    | HttpCaught(admitted: bool)               // in the loop's handler
    | RpcStart
    | RpcCalling
    | RpcTail(attempted: bool, healthy: bool)  // past the call's own handler

  datatype Pool = Pool(now: nat, breaker: State, log: seq<Event>, pcs: map<nat, Pc>)

  datatype Action =
    | Tick(elapsed: nat)
    | Take(w: nat, rpc: bool)
    | Skip(w: nat)                   // stopping, or the deadline has passed: the breaker is not asked
    | Ask(w: nat)
    | Reply(w: nat, healthy: bool)
    | Throw(w: nat)
    | Wind(w: nat)                   // what is left after the call

  function At(p: Pool, w: nat): Pc { if w in p.pcs then p.pcs[w] else Resting }

  function Moved(p: Pool, w: nat, pc: Pc): Pool { p.(pcs := p.pcs[w := pc]) }

  /** The breaker's two critical sections, logged. */
  function Asking(p: Pool, w: nat): Pool {
    var admitted := Admits(p.breaker, p.now);
    p.(breaker := if admitted then AfterAdmit(p.breaker) else p.breaker, log := p.log + [Asked(w, p.now, admitted)])
  }

  function Reporting(p: Pool, w: nat, healthy: bool, cooldown: nat): Pool {
    p.(breaker := AfterReport(p.breaker, healthy, p.now, cooldown), log := p.log + [Reported(w, p.now, healthy)])
  }

  predicate Enabled(p: Pool, a: Action) {
    match a
    case Tick(_) => true
    case Take(w, _) => At(p, w).Resting?
    case Skip(w) => At(p, w).HttpStart? || At(p, w).RpcStart?
    case Ask(w) => At(p, w).HttpStart? || At(p, w).RpcStart?
    case Reply(w, _) => At(p, w).HttpCalling? || At(p, w).RpcCalling?
    case Throw(w) =>
      At(p, w).HttpStart? || At(p, w).HttpCalling? || At(p, w).HttpDone? || At(p, w).RpcStart? || At(p, w).RpcCalling?
    case Wind(w) => At(p, w).HttpDone? || At(p, w).HttpCaught? || At(p, w).RpcTail?
  }

  function Next(p: Pool, a: Action, cooldown: nat): Pool
    requires Enabled(p, a)
  {
    match a
    case Tick(d) => p.(now := p.now + d)
    case Take(w, rpc) => Moved(p, w, if rpc then RpcStart else HttpStart)
    case Skip(w) => Moved(p, w, if At(p, w).HttpStart? then Resting else RpcTail(false, false))
    case Ask(w) =>
      var admitted := Admits(p.breaker, p.now);
      Moved(Asking(p, w), w, if At(p, w).HttpStart? then (if admitted then HttpCalling else Resting)
                             else if admitted then RpcCalling else RpcTail(false, false))
    case Reply(w, healthy) =>
      if At(p, w).HttpCalling? then Moved(Reporting(p, w, healthy, cooldown), w, HttpDone)
      else Moved(p, w, RpcTail(true, healthy))
    case Throw(w) =>
      (match At(p, w)
       case RpcStart => Moved(p, w, RpcTail(false, false))
       case RpcCalling => Moved(p, w, RpcTail(true, false))
       case pc => Moved(p, w, HttpCaught(pc.HttpCalling?)))
    case Wind(w) =>
      (match At(p, w)
       case HttpCaught(_) => Moved(Reporting(p, w, false, cooldown), w, Resting)
       case RpcTail(true, healthy) => Moved(Reporting(p, w, healthy, cooldown), w, Resting)
       case _ => Moved(p, w, Resting))
  }

  /** Admitted, and not yet back at the breaker. */
  predicate MidCall(pc: Pc) {
    || pc.HttpCalling? || pc.RpcCalling? || (pc.HttpCaught? && pc.admitted) || (pc.RpcTail? && pc.attempted)
  }

  ghost predicate IsRun(run: seq<Pool>, acts: seq<Action>, cooldown: nat) {
    && |run| == |acts| + 1 && run[0].breaker == CLOSED && run[0].log == [] && run[0].pcs == map[]
    && forall n {:trigger acts[n]} :: 0 <= n < |acts| ==>
        Enabled(run[n], acts[n]) && run[n + 1] == Next(run[n], acts[n], cooldown)
  }

  // ---------------------------------------------------------------------------
  // The log of every run is legal
  // ---------------------------------------------------------------------------

  ghost predicate Inv(p: Pool, cooldown: nat) {
    && Legal(p.log, cooldown) && p.breaker == Replay(p.log, cooldown)
    && (p.log != [] ==> p.log[|p.log| - 1].at <= p.now)
    && (forall w :: w in Outstanding(p.log) <==> MidCall(At(p, w)))
  }

  lemma Append(log: seq<Event>, e: Event)
    ensures |log + [e]| == |log| + 1 && (log + [e])[|log|] == e && (log + [e])[..|log|] == log
  {
  }

  lemma AskingKeeps(p: Pool, w: nat, cooldown: nat)
    requires Inv(p, cooldown) && !MidCall(At(p, w))
    ensures var q := Asking(p, w);
      && Legal(q.log, cooldown) && q.breaker == Replay(q.log, cooldown)
      && q.log != [] && q.log[|q.log| - 1].at <= q.now
      && Outstanding(q.log) == if Admits(p.breaker, p.now) then Outstanding(p.log) + {w} else Outstanding(p.log)
  {
    Append(p.log, Asked(w, p.now, Admits(p.breaker, p.now)));
  }

  lemma ReportingKeeps(p: Pool, w: nat, healthy: bool, cooldown: nat)
    requires Inv(p, cooldown)
    ensures var q := Reporting(p, w, healthy, cooldown);
      && Legal(q.log, cooldown) && q.breaker == Replay(q.log, cooldown)
      && q.log != [] && q.log[|q.log| - 1].at <= q.now
      && Outstanding(q.log) == Outstanding(p.log) - {w}
  {
    Append(p.log, Reported(w, p.now, healthy));
  }

  /** Only worker w moves, and the log changes what it owes as its place does. */
  lemma MovedKeeps(p: Pool, q: Pool, w: nat, pc: Pc, cooldown: nat)
    requires Legal(q.log, cooldown) && q.breaker == Replay(q.log, cooldown) && q.pcs == p.pcs
    requires q.log != [] ==> q.log[|q.log| - 1].at <= q.now
    requires forall u :: u != w ==> (u in Outstanding(q.log) <==> MidCall(At(p, u)))
    requires w in Outstanding(q.log) <==> MidCall(pc)
    ensures Inv(Moved(q, w, pc), cooldown)
  {
  }

  lemma StepKeeps(p: Pool, a: Action, cooldown: nat)
    requires Inv(p, cooldown) && Enabled(p, a)
    ensures Inv(Next(p, a, cooldown), cooldown)
  {
    if a.Tick? {
      assert forall w :: At(Next(p, a, cooldown), w) == At(p, w);
    } else if a.Ask? {
      AskKeeps(p, a.w, cooldown);
    } else if a.Reply? || a.Wind? {
      ReturnKeeps(p, a, cooldown);
    } else {
      MovedKeeps(p, p, a.w, At(Next(p, a, cooldown), a.w), cooldown);
    }
  }

  lemma AskKeeps(p: Pool, w: nat, cooldown: nat)
    requires Inv(p, cooldown) && Enabled(p, Ask(w))
    ensures Inv(Next(p, Ask(w), cooldown), cooldown)
  {
    AskingKeeps(p, w, cooldown);
    MovedKeeps(p, Asking(p, w), w, At(Next(p, Ask(w), cooldown), w), cooldown);
  }

  lemma ReturnKeeps(p: Pool, a: Action, cooldown: nat)
    requires Inv(p, cooldown) && (a.Reply? || a.Wind?) && Enabled(p, a)
    ensures Inv(Next(p, a, cooldown), cooldown)
  {
    var w, pc := a.w, At(Next(p, a, cooldown), a.w);
    var healthy := if a.Reply? then a.healthy else At(p, w).RpcTail? && At(p, w).healthy;
    if Next(p, a, cooldown) == Moved(p, w, pc) {
      MovedKeeps(p, p, w, pc, cooldown);
    } else {
      ReportingKeeps(p, w, healthy, cooldown);
      MovedKeeps(p, Reporting(p, w, healthy, cooldown), w, pc, cooldown);
    }
  }

  /** In every state of every run the breaker has heard exactly what the log says, no worker has
      asked while it owed a report, and the workers that owe one are those in the middle of a call. */
  lemma {:induction false} LogsAreLegal(run: seq<Pool>, acts: seq<Action>, cooldown: nat, n: nat)
    requires IsRun(run, acts, cooldown) && n < |run|
    ensures Legal(run[n].log, cooldown) && run[n].breaker == Replay(run[n].log, cooldown)
    ensures forall w :: w in Outstanding(run[n].log) <==> MidCall(At(run[n], w))
    ensures Inv(run[n], cooldown)
  {
    if n > 0 {
      LogsAreLegal(run, acts, cooldown, n - 1);
      assert Enabled(run[n - 1], acts[n - 1]);
      StepKeeps(run[n - 1], acts[n - 1], cooldown);
    }
  }

  // ---------------------------------------------------------------------------
  // Every way out of a call reports
  // ---------------------------------------------------------------------------

  lemma StepExits(p: Pool, a: Action, cooldown: nat, w: nat)
    requires Enabled(p, a) && MidCall(At(p, w))
    ensures var q := Next(p, a, cooldown);
      && p.log <= q.log
      && (MidCall(At(q, w)) || (|q.log| == |p.log| + 1 && q.log[|p.log|].Reported? && q.log[|p.log|].worker == w))
  {
  }

  lemma StepLogs(p: Pool, a: Action, cooldown: nat)
    requires Enabled(p, a)
    ensures p.log <= Next(p, a, cooldown).log
  {
  }

  lemma {:induction false} LogsGrow(run: seq<Pool>, acts: seq<Action>, cooldown: nat, n: nat, m: nat)
    requires IsRun(run, acts, cooldown) && n <= m < |run|
    ensures run[n].log <= run[m].log
  {
    if n < m {
      LogsGrow(run, acts, cooldown, n, m - 1);
      assert Enabled(run[m - 1], acts[m - 1]);
      StepLogs(run[m - 1], acts[m - 1], cooldown);
    }
  }

  /** A worker in the middle of a call at one moment and not at a later one has reported in
      between, however it left: with an answer, without one, or by an exception. */
  lemma {:induction false} EveryExitReports(run: seq<Pool>, acts: seq<Action>, cooldown: nat, n: nat, m: nat, w: nat)
    requires IsRun(run, acts, cooldown) && n <= m < |run| && MidCall(At(run[n], w)) && !MidCall(At(run[m], w))
    ensures |run[n].log| <= |run[m].log|
    ensures exists k :: |run[n].log| <= k < |run[m].log| && run[m].log[k].Reported? && run[m].log[k].worker == w
  {
    LogsGrow(run, acts, cooldown, n, m - 1);
    assert Enabled(run[m - 1], acts[m - 1]);
    StepLogs(run[m - 1], acts[m - 1], cooldown);
    if MidCall(At(run[m - 1], w)) {
      StepExits(run[m - 1], acts[m - 1], cooldown, w);
      assert run[m].log[|run[m - 1].log|].Reported?;
    } else {
      EveryExitReports(run, acts, cooldown, n, m - 1, w);
      var k :| |run[n].log| <= k < |run[m - 1].log| && run[m - 1].log[k].Reported? && run[m - 1].log[k].worker == w;
      assert run[m].log[k] == run[m - 1].log[k];
    }
  }

  /** So no admission is left without a report: in the log of every run, a worker that was admitted
      does nothing else at the breaker until it reports, and until then it is in the middle of the call. */
  lemma AdmissionsAreReported(run: seq<Pool>, acts: seq<Action>, cooldown: nat, n: nat, i: nat)
    requires IsRun(run, acts, cooldown) && n < |run| && i < |run[n].log| && run[n].log[i].Asked?
    requires run[n].log[i].admitted
    ensures var log, w := run[n].log, run[n].log[i].worker;
      || (MidCall(At(run[n], w)) && Silent(log, w, i, |log|))
      || exists k :: i < k < |log| && log[k].Reported? && log[k].worker == w && Silent(log, w, i, k)
  {
    LogsAreLegal(run, acts, cooldown, n);
    OwedOrReported(run[n].log, cooldown, i);
  }

  /** The probe slot is never lost: in every run, once no worker is in the middle of a call, the
      breaker admits again a cooldown after its latest report. */
  lemma ProbeIsReturned(run: seq<Pool>, acts: seq<Action>, cooldown: nat, n: nat, now: nat)
    requires IsRun(run, acts, cooldown) && n < |run| && forall w :: !MidCall(At(run[n], w))
    requires LastReport(run[n].log) + cooldown <= now
    ensures !run[n].breaker.probing && Admits(run[n].breaker, now)
  {
    LogsAreLegal(run, acts, cooldown, n);
    ProbeIsOwed(run[n].log, cooldown);
  }

  // ---------------------------------------------------------------------------
  // And what it reports is how the call went
  // ---------------------------------------------------------------------------

  /** The last thing that decided worker w's report: its call was answered so, or it was thrown out. */
  predicate Decides(a: Action, w: nat, healthy: bool) {
    a == Reply(w, healthy) || (a == Throw(w) && !healthy)
  }

  /** The report a worker has decided on and still has to make. */
  predicate Decided(pc: Pc, healthy: bool) {
    pc == RpcTail(true, healthy) || (pc.HttpCaught? && !healthy)
  }

  lemma StepDecides(p: Pool, a: Action, cooldown: nat, w: nat, healthy: bool)
    requires Enabled(p, a) && Decided(At(Next(p, a, cooldown), w), healthy)
    ensures Decided(At(p, w), healthy) || Decides(a, w, healthy)
  {
  }

  lemma {:induction false} DecidedByStep(run: seq<Pool>, acts: seq<Action>, cooldown: nat, n: nat, w: nat,
                                         healthy: bool)
    returns (m: nat)
    requires IsRun(run, acts, cooldown) && n < |run| && Decided(At(run[n], w), healthy)
    ensures m < n && Decides(acts[m], w, healthy)
  {
    if n == 0 {
      assert false;
    } else {
      assert Enabled(run[n - 1], acts[n - 1]);
      StepDecides(run[n - 1], acts[n - 1], cooldown, w, healthy);
      if Decides(acts[n - 1], w, healthy) { m := n - 1; }
          else { m := DecidedByStep(run, acts, cooldown, n - 1, w, healthy); }
    }
  }

  lemma StepReports(p: Pool, a: Action, cooldown: nat)
    requires Enabled(p, a)
    ensures var q := Next(p, a, cooldown);
      |q.log| > |p.log| && q.log[|p.log|].Reported? ==>
        var e := q.log[|p.log|];
        e.at == p.now && |q.log| == |p.log| + 1 && (a == Reply(e.worker, e.healthy) || Decided(At(p, e.worker),
            e.healthy))
  {
  }

  /** Health is reported only for a call answered so, and failure only for one answered so or thrown out of. */
  lemma {:induction false} ReportsAreOutcomes(run: seq<Pool>, acts: seq<Action>, cooldown: nat, n: nat, k: nat)
    returns (m: nat)
    requires IsRun(run, acts, cooldown) && n < |run| && k < |run[n].log| && run[n].log[k].Reported?
    ensures m < n && Decides(acts[m], run[n].log[k].worker, run[n].log[k].healthy)
  {
    if n == 0 {
      assert false;
    } else {
      var p, a := run[n - 1], acts[n - 1];
      assert Enabled(p, a);
      StepLogs(p, a, cooldown);
      if k < |p.log| {
        m := ReportsAreOutcomes(run, acts, cooldown, n - 1, k);
      } else {
        StepReports(p, a, cooldown);
        StepLogsOne(p, a, cooldown);
        var e := run[n].log[k];
        if a == Reply(e.worker, e.healthy) { m := n - 1; }
        else { m := DecidedByStep(run, acts, cooldown, n - 1, e.worker, e.healthy); }
      }
    }
  }

  lemma StepLogsOne(p: Pool, a: Action, cooldown: nat)
    requires Enabled(p, a)
    ensures |Next(p, a, cooldown).log| <= |p.log| + 1
  {
  }

  /** The worker has reported this since the log had n entries. */
  ghost predicate ReportedSince(log: seq<Event>, n: nat, w: nat, healthy: bool) {
    exists k :: n <= k < |log| && log[k].Reported? && log[k].worker == w && log[k].healthy == healthy
  }

  /** The report an admitted call has decided on. */
  predicate Owes(pc: Pc, healthy: bool) {
    pc == RpcTail(true, healthy) || (pc == HttpCaught(true) && !healthy)
  }

  lemma StepKeepsDecision(p: Pool, a: Action, cooldown: nat, w: nat, healthy: bool)
    requires Enabled(p, a) && Owes(At(p, w), healthy)
    ensures var q := Next(p, a, cooldown);
      p.log <= q.log && (Owes(At(q, w), healthy) || ReportedSince(q.log, |p.log|, w, healthy))
  {
    var q := Next(p, a, cooldown);
    if a == Wind(w) { assert q.log[|p.log|] == Reported(w, p.now, healthy); }
  }

  lemma {:induction false} DecisionsAreReported(run: seq<Pool>, acts: seq<Action>, cooldown: nat, n: nat, m: nat,
                                                w: nat,
                                                healthy: bool)
    requires IsRun(run, acts, cooldown) && n <= m < |run| && Owes(At(run[n], w), healthy)
    ensures Owes(At(run[m], w), healthy) || ReportedSince(run[m].log, |run[n].log|, w, healthy)
  {
    if n < m {
      DecisionsAreReported(run, acts, cooldown, n, m - 1, w, healthy);
      LogsGrow(run, acts, cooldown, n, m - 1);
      assert Enabled(run[m - 1], acts[m - 1]);
      StepLogs(run[m - 1], acts[m - 1], cooldown);
      if Owes(At(run[m - 1], w), healthy) {
        StepKeepsDecision(run[m - 1], acts[m - 1], cooldown, w, healthy);
      } else {
        var k :| |run[n].log| <= k < |run[m - 1].log| && run[m - 1].log[k].Reported?
                 && run[m - 1].log[k].worker == w && run[m - 1].log[k].healthy == healthy;
        assert run[m].log[k] == run[m - 1].log[k];
      }
    }
  }

  /** And conversely every answer of an admitted call is reported as it is, and every exception in one as
      a failure, before the worker is out of the call. */
  lemma OutcomesAreReported(run: seq<Pool>, acts: seq<Action>, cooldown: nat, n: nat, m: nat, w: nat, healthy: bool)
    requires IsRun(run, acts, cooldown) && n < m < |run| && Decides(acts[n], w, healthy) && MidCall(At(run[n], w))
    ensures MidCall(At(run[m], w)) || ReportedSince(run[m].log, |run[n].log|, w, healthy)
  {
    assert Enabled(run[n], acts[n]);
    if Owes(At(run[n + 1], w), healthy) {
      StepLogs(run[n], acts[n], cooldown);
      DecisionsAreReported(run, acts, cooldown, n + 1, m, w, healthy);
    } else {
      assert run[n + 1].log[|run[n].log|] == Reported(w, run[n].now, healthy);
      LogsGrow(run, acts, cooldown, n + 1, m);
      assert run[m].log[|run[n].log|] == run[n + 1].log[|run[n].log|];
    }
  }
}
