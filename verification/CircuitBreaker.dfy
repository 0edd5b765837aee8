/** The circuit breaker shared by the workers of the authorization provider. */
module CircuitBreaker {

  const THRESHOLD: nat := 3

  datatype State = State(failures: nat, openUntil: nat, probing: bool)

  const CLOSED := State(0, 0, false)

  predicate Admits(s: State, now: nat) {
    s.failures < THRESHOLD || (s.openUntil <= now && !s.probing)
  }

  function AfterAdmit(s: State): State {
    if s.failures < THRESHOLD then s else s.(probing := true)
  }

  function AfterReport(s: State, healthy: bool, now: nat, cooldown: nat): State {
    if healthy then CLOSED
    else if s.failures + 1 >= THRESHOLD then State(s.failures + 1, now + cooldown, false)
    else State(s.failures + 1, s.openUntil, false)
  }

  /** The breaker itself; each method body is one critical section of its mutex. */
  class Breaker {
    const cooldown: nat
    var failures: nat
    var openUntil: nat
    var probing: bool

    function View(): State reads this { State(failures, openUntil, probing) }

    constructor (cooldown: nat)
      ensures View() == CLOSED && this.cooldown == cooldown
    {
      this.cooldown := cooldown;
      failures, openUntil, probing := 0, 0, false;
    }

    method Admit(now: nat) returns (admitted: bool)
      modifies this
      ensures admitted == Admits(old(View()), now)
      ensures View() == if admitted then AfterAdmit(old(View())) else old(View())
    {
      if failures < THRESHOLD { return true; }
      if now < openUntil || probing { return false; }
      probing := true;
      return true;
    }

    method Report(healthy: bool, now: nat)
      modifies this
      ensures View() == AfterReport(old(View()), healthy, now, cooldown)
    {
      probing := false;
      if healthy {
        failures, openUntil := 0, 0;
      } else {
        failures := failures + 1;
        if failures >= THRESHOLD { openUntil := now + cooldown; }
      }
    }
  }

  // ---------------------------------------------------------------------------
  // Runs: what the workers asked and reported, in the order of the critical sections
  // ---------------------------------------------------------------------------

  datatype Event =
    | Asked(worker: nat, at: nat, admitted: bool)
    | Reported(worker: nat, at: nat, healthy: bool)

  function Replay(log: seq<Event>, cooldown: nat): State {
    if log == [] then CLOSED else
      var s, e := Replay(log[..|log| - 1], cooldown), log[|log| - 1];
      match e
      case Asked(_, _, admitted) => if admitted then AfterAdmit(s) else s
      case Reported(_, at, healthy) => AfterReport(s, healthy, at, cooldown)
  }

  /** The workers whose admitted request has not been reported yet. */
  function Outstanding(log: seq<Event>): set<nat> {
    if log == [] then {} else
      var w, e := Outstanding(log[..|log| - 1]), log[|log| - 1];
      match e
      case Asked(worker, _, admitted) => if admitted then w + {worker} else w
      case Reported(worker, _, _) => w - {worker}
  }

  /** A worker asks only when it owes no report, and is told what the breaker decides; a report
      may also come without an admission, as after an exception. */
  ghost predicate Legal(log: seq<Event>, cooldown: nat) {
    log == [] ||
    (var n := |log| - 1;
     && Legal(log[..n], cooldown)
     && (n > 0 ==> log[n - 1].at <= log[n].at)
     && (log[n].Asked? ==> log[n].worker !in Outstanding(log[..n])
                           && log[n].admitted == Admits(Replay(log[..n], cooldown), log[n].at)))
  }

  // The reference: what the reports alone say.

  /** Failing reports since the last healthy one. */
  function Trailing(log: seq<Event>): nat {
    if log == [] then 0 else
      var e := log[|log| - 1];
      if e.Asked? then Trailing(log[..|log| - 1])
      else if e.healthy then 0
      else Trailing(log[..|log| - 1]) + 1
  }

  /** The time of the latest report, 0 when there is none. */
  function LastReport(log: seq<Event>): nat {
    if log == [] then 0 else
      var e := log[|log| - 1];
      if e.Reported? then e.at else LastReport(log[..|log| - 1])
  }

  /** Admissions since the latest report. */
  function SinceReport(log: seq<Event>): nat {
    if log == [] then 0 else
      var e := log[|log| - 1];
      if e.Reported? then 0 else SinceReport(log[..|log| - 1]) + if e.admitted then 1 else 0
  }

  /** The counters are a summary of the reports, and the probe slot is taken exactly when the
      breaker is open and one request was admitted since the latest report. */
  lemma {:induction false} Summary(log: seq<Event>, cooldown: nat)
    requires Legal(log, cooldown)
    ensures var s := Replay(log, cooldown);
      && s.failures == Trailing(log)
      && (s.failures >= THRESHOLD ==> s.openUntil == LastReport(log) + cooldown)
      && (s.failures >= THRESHOLD ==> SinceReport(log) == if s.probing then 1 else 0)
      && (s.failures < THRESHOLD ==> !s.probing)
  {
    if log != [] { Summary(log[..|log| - 1], cooldown); }
  }

  /** Once three consecutive failures have been reported, a request is admitted only a cooldown
      after the latest report, and only if none was admitted since that report. */
  lemma OpenCircuit(log: seq<Event>, cooldown: nat, i: nat)
    requires Legal(log, cooldown) && i < |log| && log[i].Asked? && log[i].admitted && Trailing(log[..i]) >= 3
    ensures LastReport(log[..i]) + cooldown <= log[i].at
    ensures SinceReport(log[..i]) == 0
  {
    LegalPrefix(log, cooldown, i + 1);
    assert log[..i + 1][..i] == log[..i];
    Summary(log[..i], cooldown);
  }

  /** And conversely: it refuses nothing else. */
  lemma Recovers(log: seq<Event>, cooldown: nat, now: nat)
    requires Legal(log, cooldown)
    ensures Admits(Replay(log, cooldown), now)
            <==> Trailing(log) < 3 || (LastReport(log) + cooldown <= now && SinceReport(log) == 0)
  {
    Summary(log, cooldown);
  }

  /** The probe slot is never lost: whoever took it still owes its report, so once every
      admitted request has been reported the slot is free. */
  lemma {:induction false} ProbeIsOwed(log: seq<Event>, cooldown: nat)
    requires Legal(log, cooldown)
    ensures Replay(log, cooldown).probing ==> Outstanding(log) != {}
    ensures Outstanding(log) == {} ==> forall now :: LastReport(log) + cooldown <= now ==>
        Admits(Replay(log, cooldown), now)
  {
    if log != [] { ProbeIsOwed(log[..|log| - 1], cooldown); }
    Summary(log, cooldown);
  }

  lemma {:induction false} LegalPrefix(log: seq<Event>, cooldown: nat, n: nat)
    requires Legal(log, cooldown) && n <= |log|
    ensures Legal(log[..n], cooldown)
  {
    if n == |log| {
      assert log[..n] == log;
    } else {
      LegalPrefix(log[..|log| - 1], cooldown, n);
      assert log[..|log| - 1][..n] == log[..n];
    }
  }

  ghost predicate Silent(log: seq<Event>, w: nat, i: nat, k: nat)
    requires k <= |log|
  {
    forall m :: i < m < k ==> log[m].worker != w
  }

  /** In a legal log, a worker that was admitted does nothing else at the breaker until it reports,
      and until then it is outstanding. */
  lemma {:induction false} OwedOrReported(log: seq<Event>, cooldown: nat, i: nat)
    requires Legal(log, cooldown) && i < |log| && log[i].Asked? && log[i].admitted
    ensures var w := log[i].worker;
      || (w in Outstanding(log) && Silent(log, w, i, |log|))
      || exists k :: i < k < |log| && log[k].Reported? && log[k].worker == w && Silent(log, w, i, k)
    decreases |log|
  {
    var n, w := |log| - 1, log[i].worker;
    if i < n {
      var p := log[..n];
      OwedOrReported(p, cooldown, i);
      assert forall m :: 0 <= m < n ==> p[m] == log[m];
      if w in Outstanding(p) && Silent(p, w, i, n) {
        assert log[n].worker == w ==> log[n].Reported? && Silent(log, w, i, n);
      } else {
        var k :| i < k < n && p[k].Reported? && p[k].worker == w && Silent(p, w, i, k);
        assert log[k].Reported? && Silent(log, w, i, k);
      }
    }
  }
}
