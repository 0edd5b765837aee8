/** What holds of every run of the provider: revocation, single flight, and every job finished once. */
module RemoteAuthTheorems {
  import opened AuthDecision
  import opened LeaseCache
  import opened RemoteAuth
  import opened RemoteAuthHands
  import opened RemoteAuthRuns
  import opened RemoteAuthSteps
  import opened RemoteAuthTimes
  import opened Wrappers

  // ---------------------------------------------------------------------------
  // Finishing
  // ---------------------------------------------------------------------------

  /** A job becomes finished in the step that publishes it, with the value being published. */
  lemma StepFinishes(c: Config, s: System, a: Action, j: nat)
    requires Shaped(c, s) && Enabled(c, s, a) && j < |Next(c, s, a).jobs| && Next(c, s, a).jobs[j].phase.Finished?
    requires j < |s.jobs| ==> !s.jobs[j].phase.Finished?
    ensures a == Publish(j) && j < |s.jobs| && s.jobs[j].phase.Publishing?
    ensures Next(c, s, a).jobs[j].phase == Finished(s.jobs[j].phase.value, s.step)
  {
    var s' := Next(c, s, a);
    if a.Publish? { PublishMoves(c, s, a.job); }
    else { OthersFinishNone(c, s, a, j); }
  }

  lemma OthersFinishNone(c: Config, s: System, a: Action, j: nat)
    requires Shaped(c, s) && Enabled(c, s, a) && !a.Publish?
    requires j < |s.jobs| ==> !s.jobs[j].phase.Finished?
    ensures j < |Next(c, s, a).jobs| ==> !Next(c, s, a).jobs[j].phase.Finished?
  {
    if OfCall(a) { CallShape(c, s, a, Next(c, s, a)); }
    else if OfLookup(a) && !a.Submit? { LookupFinishesNone(c, s, a, j, Next(c, s, a)); }
    else if OfCallback(a) { CallbackFinishesNone(c, s, a, j); }
    else if OfJob(a) { JobFinishesNone(c, s, a, j); }
  }

  lemma JobFinishesNone(c: Config, s: System, a: Action, j: nat)
    requires Shaped(c, s) && OfJob(a) && JobMay(c, s, a) && !a.Publish?
    requires j < |s.jobs| ==> !s.jobs[j].phase.Finished?
    ensures j < |JobEffect(c, s, a).jobs| ==> !JobEffect(c, s, a).jobs[j].phase.Finished?
  {
  }

  lemma LookupFinishesNone(c: Config, s: System, a: Action, j: nat, s': System)
    requires Shaped(c, s) && OfLookup(a) && LookupMay(c, s, a) && !a.Submit? && s' == Counted(LookupEffect(c, s, a))
    requires j < |s.jobs| ==> !s.jobs[j].phase.Finished?
    ensures j < |s'.jobs| ==> !s'.jobs[j].phase.Finished?
  {
    LookupShape(c, s, a, s');
    if j < |s.jobs| { assert s'.jobs[..|s.jobs|][j] == s'.jobs[j]; }
  }

  lemma CallbackFinishesNone(c: Config, s: System, a: Action, j: nat)
    requires Shaped(c, s) && OfCallback(a) && CallbackMay(c, s, a)
    requires j < |s.jobs| ==> !s.jobs[j].phase.Finished?
    ensures j < |CallbackEffect(c, s, a).jobs| ==> !CallbackEffect(c, s, a).jobs[j].phase.Finished?
  {
  }

  lemma StepFinishesRun(c: Config, run: seq<System>, acts: seq<Action>, n: nat, j: nat)
    requires IsRun(c, run, acts) && n < |acts| && j < |run[n + 1].jobs| && run[n + 1].jobs[j].phase.Finished?
    requires j < |run[n].jobs| ==> !run[n].jobs[j].phase.Finished?
    ensures acts[n] == Publish(j) && run[n + 1].jobs[j].phase.at == n
    ensures j < |run[n].jobs| && run[n].jobs[j].phase.Publishing?
    ensures run[n].jobs[j].phase.value == run[n + 1].jobs[j].phase.value
  {
    RunInvariant(c, run, acts, n);
    StepFinishes(c, run[n], acts[n], j);
  }

  /** A finished job was published by the step it names, with the value it has. */
  lemma {:induction false} FinishedByPublish(c: Config, run: seq<System>, acts: seq<Action>, n: nat, j: nat)
    requires IsRun(c, run, acts) && n < |run| && j < |run[n].jobs| && run[n].jobs[j].phase.Finished?
    ensures var p := run[n].jobs[j].phase;
      && p.at < n && acts[p.at] == Publish(j)
      && j < |run[p.at].jobs| && run[p.at].jobs[j].phase.Publishing? && run[p.at].jobs[j].phase.value == p.value
  {
    if n == 0 {
      assert false;
    } else if j < |run[n - 1].jobs| && run[n - 1].jobs[j].phase.Finished? {
      FinishedByPublish(c, run, acts, n - 1, j);
      RunLater(c, run, acts, n - 1, n);
    } else {
      StepFinishesRun(c, run, acts, n - 1, j);
    }
  }

  lemma PublishFinishes(c: Config, run: seq<System>, acts: seq<Action>, n: nat, j: nat)
    requires IsRun(c, run, acts) && n < |acts| && acts[n] == Publish(j)
    ensures j < |run[n].jobs| && run[n].jobs[j].phase.Publishing? && j < |run[n + 1].jobs|
    ensures run[n + 1].jobs[j].phase.Finished?
  {
    PublishMoves(c, run[n], j);
  }

  lemma NeverTwice(c: Config, run: seq<System>, acts: seq<Action>, n: nat, m: nat, j: nat)
    requires IsRun(c, run, acts) && n < m < |acts| && acts[n] == Publish(j)
    ensures acts[m] != Publish(j)
  {
    if acts[m] == Publish(j) {
      PublishFinishes(c, run, acts, n, j);
      PublishFinishes(c, run, acts, m, j);
      if n + 1 < m { RunLater(c, run, acts, n + 1, m); }
      assert false;
    }
  }

  /** Where an unfinished job can be: with its creator, which has still to submit it or must finish
      it itself, in the queue, or with a worker. */
  datatype Place = WithCaller(t: nat) | InQueue | WithWorker(w: nat)

  predicate At(s: System, j: nat, p: Place) {
    match p
    case WithCaller(t) => t in s.callers && Holds(s.callers[t]) == Some(j)
    case InQueue => j in s.queue
    case WithWorker(w) => w in s.workers && j in Hand(s.workers[w])
  }

  lemma AtAgent(c: Config, s: System, j: nat, p: Place)
    requires Good(c, s) && At(s, j, p)
    ensures j < |s.jobs|
    ensures match p
      case WithCaller(t) => AgentOf(s.jobs[j].phase) == Some(ByCaller(t))
      case InQueue => s.jobs[j].phase.Queued?
      case WithWorker(w) => AgentOf(s.jobs[j].phase) == Some(ByWorker(w))
  {
    match p
    case WithCaller(t) => assert CallerHolds(s, t);
    case InQueue =>
    case WithWorker(w) => assert WorkerHolds(s, w);
  }

  function PlaceOf(p: JobPhase): Place {
    match AgentOf(p)
    case Some(ByCaller(t)) => WithCaller(t)
    case Some(ByWorker(w)) => WithWorker(w)
    case None => InQueue
  }

  lemma HeldSomewhere(c: Config, s: System, j: nat)
    requires Good(c, s) && j < |s.jobs| && !s.jobs[j].phase.Finished?
    ensures At(s, j, PlaceOf(s.jobs[j].phase))
  {
    assert JobHeld(s, j) && JobOk(c, s, j);
  }

  /** In every reachable state a job is unfinished exactly when somebody has it, and then one only:
      no two callers or workers share a job, and none is both queued and in a hand. */
  lemma OneHolder(c: Config, run: seq<System>, acts: seq<Action>, j: nat)
    requires IsRun(c, run, acts) && j < |run[|acts|].jobs|
    ensures !run[|acts|].jobs[j].phase.Finished? <==> exists p :: At(run[|acts|], j, p)
    ensures forall p, q :: At(run[|acts|], j, p) && At(run[|acts|], j, q) ==> p == q
    ensures NoDup(run[|acts|].queue)
  {
    RunInvariant(c, run, acts, |acts|);
    var s := run[|acts|];
    if !s.jobs[j].phase.Finished? { HeldSomewhere(c, s, j); }
    forall p | At(s, j, p) ensures p == PlaceOf(s.jobs[j].phase) && !s.jobs[j].phase.Finished? { AtAgent(c, s, j, p); }
  }

  /** A worker that asks for more work after finishing, or leaves, has nothing left in hand. */
  lemma NothingLeftBehind(c: Config, run: seq<System>, acts: seq<Action>, n: nat, w: nat, j: nat)
    requires IsRun(c, run, acts) && n < |acts| && j < |run[n].jobs|
    requires acts[n] == Leave(w) || (acts[n] == Take(w) && !run[n].workers[w].Busy?)
    ensures AgentOf(run[n].jobs[j].phase) != Some(ByWorker(w))
  {
    RunInvariant(c, run, acts, n);
    assert JobHeld(run[n], j);
  }

  /** Every job is finished exactly once: never twice, and once every worker has left and no caller
      holds a job, none is unfinished. */
  lemma FinishedExactlyOnce(c: Config, run: seq<System>, acts: seq<Action>)
    requires IsRun(c, run, acts)
    ensures forall n, m, j :: 0 <= n < |acts| && 0 <= m < |acts| && acts[n] == Publish(j) && acts[m] == Publish(j) ==>
        n == m
    ensures var s := run[|acts|];
      && (exists w :: w in s.workers) && (forall w :: w in s.workers ==> s.workers[w].Exited?)
      && (forall t :: t in s.callers ==> !s.callers[t].Submitting? && !s.callers[t].Finishing?)
      ==> forall j :: 0 <= j < |s.jobs| ==> s.jobs[j].phase.Finished?
  {
    forall n, m, j | 0 <= n < |acts| && 0 <= m < |acts| && acts[n] == Publish(j) && acts[m] == Publish(j)
        ensures n == m {
      if n < m { NeverTwice(c, run, acts, n, m, j); }
      if m < n { NeverTwice(c, run, acts, m, n, j); }
    }
    RunInvariant(c, run, acts, |acts|);
    AllFinished(c, run[|acts|]);
  }

  lemma AllFinished(c: Config, s: System)
    requires Good(c, s)
    ensures
      && (exists w :: w in s.workers) && (forall w :: w in s.workers ==> s.workers[w].Exited?)
      && (forall t :: t in s.callers ==> !s.callers[t].Submitting? && !s.callers[t].Finishing?)
      ==> forall j :: 0 <= j < |s.jobs| ==> s.jobs[j].phase.Finished?
  {
    if w :| w in s.workers && s.workers[w].Exited? { assert WorkerHolds(s, w); }
    forall j | 0 <= j < |s.jobs| && !s.jobs[j].phase.Finished?
        ensures At(s, j, PlaceOf(s.jobs[j].phase)) { HeldSomewhere(c, s, j); }
  }

  // ---------------------------------------------------------------------------
  // Revocation
  // ---------------------------------------------------------------------------

  /** The check a caller is carrying: whose request it is about, and what it read. */
  function CheckOf(s: System, t: nat): Option<(Request, Check)> {
    if t !in s.callers then None else
      match s.callers[t]
      case InLookup(call, _, k) => Some((call.request, k))
      case Fencing(_, j, k) => if j < |s.jobs| then Some((s.jobs[j].request, k)) else None
      case Fenced(_, j, k) => if j < |s.jobs| then Some((s.jobs[j].request, k)) else None
      case _ => None
  }

  ghost predicate Checked(c: Config, s: System, k: Option<(Request, Check)>)
    requires Shaped(c, s)
  {
    k.Some? ==> k.value.1 == Check(s.step, s.epoch, s.scopes[Scope(c, k.value.0)])
  }

  lemma CallChecks(c: Config, s: System, a: Action, s': System)
    requires Shaped(c, s) && OfCall(a) && CallMay(c, s, a) && s' == Counted(CallEffect(c, s, a))
    ensures CheckOf(s', a.t) == CheckOf(s, a.t) || Checked(c, s, CheckOf(s', a.t))
  {
  }

  lemma LookupChecks(c: Config, s: System, a: Action, s': System)
    requires Shaped(c, s) && OfLookup(a) && LookupMay(c, s, a) && s' == Counted(LookupEffect(c, s, a))
    ensures Checked(c, s, CheckOf(s', a.t))
  {
    var p, r := s.callers[a.t], Glance(s, a);
    if a.LookupEnter? { EnterChecks(c, s, a.t, p.call, p.capture, s'); }
    else if a.LookupScope? {
      var k := p.call.request;
      var cache := s.shards[c.shardOf(k)].cache;
      if cache.entries[k].scopeEpoch == s.scopes[Scope(c, k)] {
        HitChecks(c, s, a.t, p.call, p.capture, p.check, r, s');
      } else {
        LeavesUnchecked(c, s, a.t, p.call, p.capture, false, Dropped(cache, k), r, s');
      }
    }
  }

  lemma EnterChecks(c: Config, s: System, t: nat, call: Call, capture: Capture, s': System)
    requires Shaped(c, s) && LookupMay(c, s, LookupEnter(t)) && s.callers[t] == Ready(call, capture)
    requires s' == Counted(LookupEffect(c, s, LookupEnter(t)))
    ensures Checked(c, s, CheckOf(s', t))
  {
    var k := call.request;
    var cache := s.shards[c.shardOf(k)].cache;
    if !(k in cache.entries && call.clock.now < cache.entries[k].expires && cache.entries[k].epoch == s.epoch) {
      LeavesUnchecked(c, s, t, call, capture, false, Dropped(cache, k), Glance(s, LookupEnter(t)), s');
    }
  }

  lemma HitChecks(c: Config, s: System, t: nat, call: Call, capture: Capture, check: Check, r: Reading, s': System)
    requires Shaped(c, s) && call.request in s.shards[c.shardOf(call.request)].cache.entries
    requires s' == Counted(Hit(c, s, t, call, capture, check, r))
    ensures CheckOf(s', t).None?
  {
    var k := call.request;
    var cache := s.shards[c.shardOf(k)].cache;
    var e := cache.entries[k];
    var g := if e.decision.result == SUCCESS then {Grant(s.step, call, e.source, check, Some(e))} else {};
    if !(call.clock.now < e.freshUntil || call.clock.now < e.retryAfter) {
      LeavesUnchecked(c, s.(grants := s.grants + g), t, call, capture, true, Touched(cache, k), r, s');
    }
  }

  lemma LeavesUnchecked(c: Config, s: System, t: nat, call: Call, capture: Capture, hit: bool,
                        cache: Lru<Request, Entry>, r: Reading,
                        s': System)
    requires Shaped(c, s) && s' == Counted(JoinOrCreate(c, s, t, call, capture, hit, cache, r))
    ensures CheckOf(s', t).None?
  {
  }

  /** Only the step's own caller moves, except that publishing a job lets its finisher go on. */
  lemma OthersKept(c: Config, s: System, a: Action, t: nat)
    requires Shaped(c, s) && Enabled(c, s, a) && t in Next(c, s, a).callers && (OfCall(a) || OfLookup(a) ==> t != a.t)
    ensures (t in s.callers && Next(c, s, a).callers[t] == s.callers[t]) || Next(c, s, a).callers[t].Waiting?
  {
    if OfCall(a) { CallShape(c, s, a, Next(c, s, a)); }
    else if OfLookup(a) && !a.Submit? { LookupShape(c, s, a, Next(c, s, a)); }
    else if OfCallback(a) { CallbackCallers(c, s, a); }
  }

  lemma CallbackCallers(c: Config, s: System, a: Action)
    requires Shaped(c, s) && OfCallback(a) && CallbackMay(c, s, a)
    ensures CallbackEffect(c, s, a).callers == s.callers
  {
  }

  /** A step carries checks along, or makes one from the state it is taken in. */
  lemma StepChecks(c: Config, s: System, a: Action, s': System, t: nat)
    requires IsStep(c, s, a, s') && Later(s, s')
    requires t in s.callers && (s.callers[t].Fencing? || s.callers[t].Fenced?) ==> s.callers[t].job < |s.jobs|
    ensures CheckOf(s', t) == CheckOf(s, t) || Checked(c, s, CheckOf(s', t))
  {
    if OfCall(a) && t == a.t { CallChecks(c, s, a, s'); }
    else if OfLookup(a) && t == a.t { LookupChecks(c, s, a, s'); }
    else if t in s'.callers { OthersKept(c, s, a, t); OtherChecks(s, s', t); }
  }

  lemma OtherChecks(s: System, s': System, t: nat)
    requires Later(s, s') && t in s'.callers
    requires t in s.callers && (s.callers[t].Fencing? || s.callers[t].Fenced?) ==> s.callers[t].job < |s.jobs|
    requires (t in s.callers && s'.callers[t] == s.callers[t]) || s'.callers[t].Waiting?
    ensures CheckOf(s', t) == CheckOf(s, t) || CheckOf(s', t).None?
  {
  }

  /** A new grant is made from a check that a caller was carrying. */
  lemma StepGrants(c: Config, s: System, a: Action, g: Grant)
    requires Inv(c, s) && Enabled(c, s, a) && g in Next(c, s, a).grants && g !in s.grants
    ensures (a.LookupScope? || a.ReadDecision?) && g.job < |s.jobs| && g.at == s.step
    ensures CheckOf(s, a.t) == Some((s.jobs[g.job].request, g.check)) && g.call == s.callers[a.t].call
    ensures if a.LookupScope? then
        var entries := s.shards[c.shardOf(g.call.request)].cache.entries;
        && g.call.request in entries && g.lease == Some(entries[g.call.request])
        && entries[g.call.request].decision.result == SUCCESS
      else
        g.lease == None && s.jobs[g.job].phase.Finished? && s.jobs[g.job].phase.value.result == SUCCESS
        && Live(s.jobs[g.job].phase.value.expiresAt, c, s.now)
  {
    NoOtherGrants(c, s, a);
    assert CallerOk(c, s, a.t);
    if a.LookupScope? {
      LookupShape(c, s, a, Next(c, s, a));
      HeldEntry(c, s, c.shardOf(s.callers[a.t].call.request), s.callers[a.t].call.request);
    }
  }

  lemma NoOtherGrants(c: Config, s: System, a: Action)
    requires Shaped(c, s) && Enabled(c, s, a)
    ensures !a.LookupScope? && !a.ReadDecision? ==> Next(c, s, a).grants == s.grants
  {
    if OfCallback(a) { CallbackGrantsNone(c, s, a); }
    else if OfLookup(a) && !a.Submit? { LookupShape(c, s, a, Next(c, s, a)); }
    else if OfCall(a) { if !a.ReadDecision? { CallGrantsNone(c, s, a); } }
    else { OthersGrantNone(c, s, a); }
  }

  lemma CallGrantsNone(c: Config, s: System, a: Action)
    requires Shaped(c, s) && OfCall(a) && CallMay(c, s, a) && !a.ReadDecision?
    ensures CallEffect(c, s, a).grants == s.grants
  {
  }

  lemma OthersGrantNone(c: Config, s: System, a: Action)
    requires Shaped(c, s) && Enabled(c, s, a) && !OfCall(a) && !OfCallback(a) && (OfLookup(a) ==> a.Submit?)
    ensures Effect(c, s, a).grants == s.grants
  {
  }

  lemma CallbackGrantsNone(c: Config, s: System, a: Action)
    requires Shaped(c, s) && OfCallback(a) && CallbackMay(c, s, a)
    ensures CallbackEffect(c, s, a).grants == s.grants
  {
  }

  /** The counters a check records are the ones of the state it was made in. */
  ghost predicate CheckRead(c: Config, run: seq<System>, r: Request, k: Check) {
    && k.at < |run| && Scope(c, r) < |run[k.at].scopes|
    && run[k.at].epoch == k.epoch && run[k.at].scopes[Scope(c, r)] == k.scopeEpoch
  }

  ghost predicate ChecksRead(c: Config, run: seq<System>, s: System) {
    && (forall t :: CheckOf(s, t).Some? ==> CheckRead(c, run, CheckOf(s, t).value.0, CheckOf(s, t).value.1))
    && (forall g :: g in s.grants ==> g.job < |s.jobs| && CheckRead(c, run, s.jobs[g.job].request, g.check))
  }

  lemma ChecksNext(c: Config, run: seq<System>, acts: seq<Action>, n: nat)
    requires IsRun(c, run, acts) && n < |acts| && Inv(c, run[n]) && run[n].step == n && ChecksRead(c, run, run[n])
    requires Later(run[n], run[n + 1])
    ensures ChecksRead(c, run, run[n + 1])
  {
    var s, s', a := run[n], run[n + 1], acts[n];
    forall t | CheckOf(s', t).Some? ensures CheckRead(c, run, CheckOf(s', t).value.0, CheckOf(s', t).value.1) {
      if t in s.callers { assert CallerOk(c, s, t); }
      StepChecks(c, s, a, s', t);
    }
    forall g | g in s'.grants ensures g.job < |s'.jobs| && CheckRead(c, run, s'.jobs[g.job].request, g.check) {
      if g !in s.grants { StepGrants(c, s, a, g); }
    }
  }

  lemma {:induction false} ChecksAreReadings(c: Config, run: seq<System>, acts: seq<Action>, n: nat)
    requires IsRun(c, run, acts) && n < |run|
    ensures ChecksRead(c, run, run[n])
  {
    if n > 0 {
      ChecksAreReadings(c, run, acts, n - 1);
      RunInvariant(c, run, acts, n - 1);
      StepInvariant(c, run, acts, n - 1);
      ChecksNext(c, run, acts, n - 1);
    }
  }

  /** No answer requested before an invalidation grants after it. Every grant comes from a
      request for the same identity, both of whose fence counters were current at one step of
      the granting call; every invalidation of either kind was made before the request loaded
      that counter, or after the check; and a call that waits for its job makes that check only
      after the job was published. */
  lemma RevocationFence(c: Config, run: seq<System>, acts: seq<Action>, g: Grant)
    requires IsRun(c, run, acts) && g in run[|acts|].grants
    ensures g.job < |run[|acts|].jobs|
    ensures var job := run[|acts|].jobs[g.job];
      && g.call.request.session == job.request.session && g.call.request.username == job.request.username
      && g.call.request.clientId == job.request.clientId && g.call.request.topic == job.request.topic
      && (!g.call.polled ==> g.call.request == job.request)
      && g.call.began <= g.check.at < |acts|
      && CheckRead(c, run, job.request, g.check)
      && g.check.epoch == job.capture.epoch && g.check.scopeEpoch == job.capture.scopeEpoch
      && NoneBetween(acts, None, job.capture.epochAt, g.check.at)
      && NoneBetween(acts, Some(c.scopeOf(job.request.username)), job.capture.scopeAt, g.check.at)
      && (g.lease.None? && g.call.waits ==>
            job.phase.Finished? && job.phase.at < g.check.at && acts[job.phase.at] == Publish(g.job))
  {
    var s := run[|acts|];
    GrantStands(c, run, acts, g);
    ClearMeansNone(c, run, acts, |acts|, None, s.jobs[g.job].capture.epochAt, g.check.at);
    ClearMeansNone(c, run, acts, |acts|, Some(Scope(c, s.jobs[g.job].request)), s.jobs[g.job].capture.scopeAt,
        g.check.at);
    ChecksAreReadings(c, run, acts, |acts|);
    if g.lease.None? && g.call.waits { FinishedByPublish(c, run, acts, |acts|, g.job); }
  }

  lemma GrantStands(c: Config, run: seq<System>, acts: seq<Action>, g: Grant)
    requires IsRun(c, run, acts) && g in run[|acts|].grants
    ensures GrantOk(c, run[|acts|], g) && GrantTimes(c, run[|acts|], g) && run[|acts|].step == |acts|
  {
    RunInvariant(c, run, acts, |acts|);
  }

  /** A call that looks at the fence goes on exactly while each counter is still the one its job captured. */
  lemma FenceDecides(c: Config, run: seq<System>, acts: seq<Action>, n: nat, t: nat)
    requires IsRun(c, run, acts) && n < |acts| && (acts[n] == FenceEpoch(t) || acts[n] == FenceScope(t))
    ensures t in run[n].callers && (run[n].callers[t].Waiting? || run[n].callers[t].Fencing?)
    ensures var p, s' := run[n].callers[t], run[n + 1];
      && p.job < |run[n].jobs| && Scope(c, run[n].jobs[p.job].request) < |run[n].scopes|
      && FencedRightly(c, run[n], acts[n], p, run[n].jobs[p.job], s')
  {
    StatesAreNumbered(c, run, acts, n);
    FenceSteps(c, run[n], acts[n]);
  }

  lemma FenceSteps(c: Config, s: System, a: Action)
    requires Shaped(c, s) && (a.FenceEpoch? || a.FenceScope?) && CallMay(c, s, a)
    ensures FencedRightly(c, s, a, s.callers[a.t], s.jobs[s.callers[a.t].job], Counted(CallEffect(c, s, a)))
  {
  }

  /** One look at the fence by a caller in phase p, whose job this is. */
  ghost predicate FencedRightly(c: Config, s: System, a: Action, p: Phase, job: Job, s': System)
    requires (a.FenceEpoch? || a.FenceScope?) && Scope(c, job.request) < |s.scopes| && (p.Waiting? || p.Fencing?)
  {
    var current := if a.FenceEpoch? then s.epoch == job.capture.epoch
                   else s.scopes[Scope(c, job.request)] == job.capture.scopeEpoch;
    && (a.t in s'.callers <==> current)
    && (a.t in s'.callers && a.FenceEpoch? ==>
          s'.callers[a.t].Fencing? && s'.callers[a.t].call == p.call && s'.callers[a.t].job == p.job)
    && (a.t in s'.callers && a.FenceScope? ==>
          s'.callers[a.t].Fenced? && s'.callers[a.t].call == p.call && s'.callers[a.t].job == p.job)
  }

  // ---------------------------------------------------------------------------
  // Captures
  // ---------------------------------------------------------------------------

  /** The first counter was loaded in this step. */
  ghost predicate EpochLoaded(run: seq<System>, acts: seq<Action>, epoch: nat, at: nat) {
    at < |acts| < |run| && acts[at].LoadEpoch? && run[at].epoch == epoch
  }

  /** Both counters of a capture are the ones of the states they were loaded in, the first before the second. */
  ghost predicate CaptureRead(c: Config, run: seq<System>, acts: seq<Action>, r: Request, k: Capture) {
    && EpochLoaded(run, acts, k.epoch, k.epochAt) && k.epochAt < k.scopeAt < |acts| && acts[k.scopeAt].LoadScope?
    && Scope(c, r) < |run[k.scopeAt].scopes| && run[k.scopeAt].scopes[Scope(c, r)] == k.scopeEpoch
  }

  ghost predicate PhaseRead(c: Config, run: seq<System>, acts: seq<Action>, p: Phase, n: nat) {
    match p
    case LoadingScope(call, e, at) => EpochLoaded(run, acts, e, at) && at < n
    case Ready(call, k) => CaptureRead(c, run, acts, call.request, k)
    case InLookup(call, k, _) => CaptureRead(c, run, acts, call.request, k)
    case _ => true
  }

  ghost predicate CapturesRead(c: Config, run: seq<System>, acts: seq<Action>, n: nat)
    requires n < |run|
  {
    && (forall t {:trigger run[n].callers[t]} :: t in run[n].callers ==> PhaseRead(c, run, acts, run[n].callers[t], n))
    && (forall j {:trigger run[n].jobs[j]} :: 0 <= j < |run[n].jobs| ==>
          CaptureRead(c, run, acts, run[n].jobs[j].request, run[n].jobs[j].capture))
  }

  /** What a step does to the capture its caller is making. */
  lemma OwnCapture(c: Config, s: System, a: Action, s': System)
    requires IsStep(c, s, a, s') && OfCall(a) && a.t in s'.callers
    ensures match s'.callers[a.t]
      case LoadingScope(call, e, at) => a.LoadEpoch? && e == s.epoch && at == s.step
      case Ready(call, k) =>
        && a.LoadScope? && a.t in s.callers && s.callers[a.t].LoadingScope?
        && k == Capture(s.callers[a.t].epoch, s.callers[a.t].epochAt, s.scopes[Scope(c, call.request)], s.step)
      case InLookup(_, _, _) => false
      case _ => true
  {
  }

  lemma LookupCapture(c: Config, s: System, a: Action, s': System)
    requires IsStep(c, s, a, s') && OfLookup(a) && !a.Submit?
    ensures (s.callers[a.t].Ready? || s.callers[a.t].InLookup?) && |s.jobs| <= |s'.jobs|
    ensures a.t in s'.callers && s'.callers[a.t].InLookup? ==>
      s'.callers[a.t].call == s.callers[a.t].call && s'.callers[a.t].capture == s.callers[a.t].capture
    ensures forall j :: |s.jobs| <= j < |s'.jobs| ==>
      s'.jobs[j].request == s.callers[a.t].call.request && s'.jobs[j].capture == s.callers[a.t].capture
  {
    LookupShape(c, s, a, s');
    var p, r := s.callers[a.t], Glance(s, a);
    var cache := s.shards[c.shardOf(p.call.request)].cache;
    AddedCapture(c, s, a.t, p.call, p.capture, false, Dropped(cache, p.call.request), r);
    if a.LookupScope? { HitCapture(c, s, a.t, p.call, p.capture, p.check, r); }
  }

  lemma HitCapture(c: Config, s: System, t: nat, call: Call, capture: Capture, check: Check, r: Reading)
    requires Shaped(c, s) && call.request in s.shards[c.shardOf(call.request)].cache.entries
    ensures var s' := Hit(c, s, t, call, capture, check, r);
      && (t in s'.callers && s'.callers[t].InLookup? ==> t in s.callers && s'.callers[t] == s.callers[t])
      && forall j :: |s.jobs| <= j < |s'.jobs| ==> s'.jobs[j].request == call.request && s'.jobs[j].capture == capture
  {
    var cache := s.shards[c.shardOf(call.request)].cache;
    var s1 := s.(grants := Hit(c, s, t, call, capture, check, r).grants);
    AddedCapture(c, s1, t, call, capture, true, Touched(cache, call.request), r);
  }

  lemma AddedCapture(c: Config, s: System, t: nat, call: Call, capture: Capture, hit: bool,
                     cache: Lru<Request, Entry>, r: Reading)
    requires Shaped(c, s)
    ensures var s' := JoinOrCreate(c, s, t, call, capture, hit, cache, r);
      && (t in s'.callers ==> !s'.callers[t].InLookup?)
      && forall j :: |s.jobs| <= j < |s'.jobs| ==> s'.jobs[j].request == call.request && s'.jobs[j].capture == capture
  {
  }

  lemma CallerCaptures(c: Config, run: seq<System>, acts: seq<Action>, n: nat, t: nat)
    requires IsRun(c, run, acts) && n < |acts| && CapturesRead(c, run, acts, n) && t in run[n + 1].callers
    ensures PhaseRead(c, run, acts, run[n + 1].callers[t], n + 1)
  {
    StatesAreNumbered(c, run, acts, n);
    var s, a, s' := run[n], acts[n], run[n + 1];
    if OfCall(a) && t == a.t { OwnCapture(c, s, a, s'); }
    else if OfLookup(a) && t == a.t {
      if a.Submit? { SubmitForgets(c, s, a, s'); } else {
        LookupCapture(c, s, a, s');
        LookupShape(c, s, a, s');
      }
    } else {
      OthersKept(c, s, a, t);
    }
  }

  lemma SubmitForgets(c: Config, s: System, a: Action, s': System)
    requires IsStep(c, s, a, s') && a.Submit?
    ensures a.t in s'.callers ==> s'.callers[a.t].Waiting? || s'.callers[a.t].Finishing?
  {
  }

  lemma JobCaptures(c: Config, run: seq<System>, acts: seq<Action>, n: nat, j: nat)
    requires IsRun(c, run, acts) && n < |acts| && CapturesRead(c, run, acts, n) && j < |run[n + 1].jobs|
    ensures CaptureRead(c, run, acts, run[n + 1].jobs[j].request, run[n + 1].jobs[j].capture)
  {
    RunInvariant(c, run, acts, n);
    StepInvariant(c, run, acts, n);
    if |run[n].jobs| <= j { NewJobCapture(c, run, acts, n, j); }
  }

  lemma NewJobCapture(c: Config, run: seq<System>, acts: seq<Action>, n: nat, j: nat)
    requires IsRun(c, run, acts) && n < |acts| && CapturesRead(c, run, acts, n)
    requires |run[n].jobs| <= j < |run[n + 1].jobs|
    ensures CaptureRead(c, run, acts, run[n + 1].jobs[j].request, run[n + 1].jobs[j].capture)
  {
    StatesAreNumbered(c, run, acts, n);
    NoOtherJobs(c, run[n], acts[n]);
    LookupCapture(c, run[n], acts[n], run[n + 1]);
    assert PhaseRead(c, run, acts, run[n].callers[acts[n].t], n);
  }

  lemma NoOtherJobs(c: Config, s: System, a: Action)
    requires Shaped(c, s) && Enabled(c, s, a)
    ensures !(OfLookup(a) && !a.Submit?) ==> |Next(c, s, a).jobs| == |s.jobs|
  {
    if OfCallback(a) { CallbackJobs(c, s, a); } else if OfCall(a) { CallShape(c, s, a, Next(c, s, a)); }
  }

  lemma CallbackJobs(c: Config, s: System, a: Action)
    requires Shaped(c, s) && OfCallback(a) && CallbackMay(c, s, a)
    ensures |CallbackEffect(c, s, a).jobs| == |s.jobs|
  {
  }

  /** The counters every job captured are those of the states in which its caller loaded them. */
  lemma {:induction false} CapturesAreReadings(c: Config, run: seq<System>, acts: seq<Action>, n: nat)
    requires IsRun(c, run, acts) && n < |run|
    ensures CapturesRead(c, run, acts, n)
  {
    if n > 0 {
      CapturesAreReadings(c, run, acts, n - 1);
      forall t | t in run[n].callers ensures PhaseRead(c, run, acts, run[n].callers[t], n) {
        CallerCaptures(c, run, acts, n - 1, t);
      }
      forall j | 0 <= j < |run[n].jobs|
          ensures CaptureRead(c, run, acts, run[n].jobs[j].request, run[n].jobs[j].capture) {
        JobCaptures(c, run, acts, n - 1, j);
      }
    }
  }

  // ---------------------------------------------------------------------------
  // Single flight
  // ---------------------------------------------------------------------------

  predicate InFlight(job: Job) { job.shared && Unanswered(job.phase) }

  /** In every reachable state the pending maps hold exactly the shared jobs whose completion
      callback has not run: at most one per key, within the bound per shard. */
  lemma SingleFlight(c: Config, run: seq<System>, acts: seq<Action>, j1: nat, j2: nat)
    requires IsRun(c, run, acts) && j1 < |run[|acts|].jobs| && j2 < |run[|acts|].jobs|
    ensures var s := run[|acts|];
      && (forall i :: 0 <= i < |s.shards| ==> |s.shards[i].pending| <= c.queueCapacity + c.workers)
      && (InFlight(s.jobs[j1]) && InFlight(s.jobs[j2]) && s.jobs[j1].request == s.jobs[j2].request ==> j1 == j2)
      && (InFlight(s.jobs[j1]) <==>
            exists i, k :: 0 <= i < |s.shards| && k in s.shards[i].pending && s.shards[i].pending[k] == j1)
  {
    RunInvariant(c, run, acts, |acts|);
    var s := run[|acts|];
    assert JobOk(c, s, j1) && JobOk(c, s, j2);
    forall i | 0 <= i < |s.shards|
        ensures |s.shards[i].pending| <= c.queueCapacity + c.workers { assert ShardOk(c, s, i); }
    if i, k :| 0 <= i < |s.shards| && k in s.shards[i].pending && s.shards[i].pending[k] == j1 {
      assert ShardOk(c, s, i) && PendingOk(c, s, k, j1);
    }
  }

  /** Entering its callback, a job leaves the pending map and takes no other job with it. */
  lemma CompletionRemovesOwnEntry(c: Config, s: System, j: nat)
    requires Inv(c, s) && Enabled(c, s, CompleteEnter(j)) && s.jobs[j].shared
    ensures var i, k := c.shardOf(s.jobs[j].request), s.jobs[j].request;
      && k in s.shards[i].pending && s.shards[i].pending[k] == j
      && (forall i' :: 0 <= i' < SHARDS ==>
            Next(c, s, CompleteEnter(j)).shards[i'].pending == if i' == i
                then s.shards[i'].pending - {k} else s.shards[i'].pending)
  {
    assert JobOk(c, s, j);
  }

  /** "At most one unfinished job per key" is not what the source keeps: the callback takes a job
      out of the pending map before its finished flag is set, and a caller that looks the key up
      in between starts another. What it does keep, in every reachable state: two jobs of a key
      are both unfinished exactly when one of them is in that window, past its callback and
      before its flag. */
  lemma UnfinishedTogether(c: Config, run: seq<System>, acts: seq<Action>, j1: nat, j2: nat)
    requires IsRun(c, run, acts) && j1 < |run[|acts|].jobs| && j2 < |run[|acts|].jobs| && j1 != j2
    requires var jobs := run[|acts|].jobs; jobs[j1].shared && jobs[j2].shared && jobs[j1].request == jobs[j2].request
    ensures var p, q := run[|acts|].jobs[j1].phase, run[|acts|].jobs[j2].phase;
      !p.Finished? && !q.Finished? <==> (p.Publishing? && !q.Finished?) || (q.Publishing? && !p.Finished?)
  {
    RunInvariant(c, run, acts, |acts|);
    assert JobOk(c, run[|acts|], j1) && JobOk(c, run[|acts|], j2);
  }
}
