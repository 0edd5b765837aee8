/** Runs of the provider: what holds in every state of one, and what its records say about its steps. */
module RemoteAuthRuns {
  import opened AuthDecision
  import opened LeaseCache
  import opened RemoteAuth
  import opened RemoteAuthHands
  import opened RemoteAuthSteps
  import opened RemoteAuthTimes
  import opened Wrappers

  /** A run: the states, and the step that leads from each to the next. */
  ghost predicate IsRun(c: Config, run: seq<System>, acts: seq<Action>) {
    && |run| == |acts| + 1 && Init(c, run[0])
    && forall n {:trigger acts[n]} :: 0 <= n < |acts| ==> IsStep(c, run[n], acts[n], run[n + 1])
  }

  ghost predicate IsStep(c: Config, s: System, a: Action, s': System) {
    Shaped(c, s) && Enabled(c, s, a) && s' == Next(c, s, a)
  }

  ghost predicate Good(c: Config, s: System) { Inv(c, s) && Times(c, s) && Hands(s) }

  lemma InitGood(c: Config, s: System)
    requires Init(c, s)
    ensures Good(c, s)
  {
    assert Times(c, s);
    assert Hands(s);
  }

  lemma StepInvariant(c: Config, run: seq<System>, acts: seq<Action>, n: nat)
    requires IsRun(c, run, acts) && n < |acts| && Good(c, run[n])
    ensures Good(c, run[n + 1]) && Later(run[n], run[n + 1]) && run[n + 1].step == run[n].step + 1
  {
    StepGood(c, run[n], acts[n], run[n + 1]);
  }

  lemma StepCounts(c: Config, s: System, a: Action)
    requires Shaped(c, s) && Enabled(c, s, a)
    ensures Next(c, s, a).step == s.step + 1
  {
    if OfCall(a) { CallShape(c, s, a, Next(c, s, a)); }
    else if OfLookup(a) && !a.Submit? { LookupShape(c, s, a, Next(c, s, a)); }
    else { OthersCount(c, s, a); }
  }

  lemma OthersCount(c: Config, s: System, a: Action)
    requires Shaped(c, s) && Enabled(c, s, a) && !OfCall(a) && (OfLookup(a) ==> a.Submit?)
    ensures Effect(c, s, a).step == s.step
  {
  }

  lemma StepGood(c: Config, s: System, a: Action, s': System)
    requires IsStep(c, s, a, s') && Good(c, s)
    ensures Good(c, s') && Later(s, s') && s'.step == s.step + 1
  {
    StepCounts(c, s, a);
    StepPreserves(c, s, a);
    StepTimes(c, s, a);
    StepHands(c, s, a);
  }

  /** All three invariants hold in every state of every run, and states are numbered by their steps. */
  lemma {:induction false} RunInvariant(c: Config, run: seq<System>, acts: seq<Action>, n: nat)
    requires IsRun(c, run, acts) && n < |run|
    ensures Good(c, run[n]) && run[n].step == n
  {
    if n == 0 {
      InitGood(c, run[0]);
    } else {
      RunInvariant(c, run, acts, n - 1);
      StepInvariant(c, run, acts, n - 1);
    }
  }

  lemma StatesAreNumbered(c: Config, run: seq<System>, acts: seq<Action>, n: nat)
    requires IsRun(c, run, acts) && n < |run|
    ensures run[n].step == n && Shaped(c, run[n])
  {
    RunInvariant(c, run, acts, n);
  }

  lemma RunStructure(c: Config, run: seq<System>, acts: seq<Action>, n: nat)
    requires IsRun(c, run, acts) && n < |run|
    ensures Inv(c, run[n]) && run[n].step == n
  {
    RunInvariant(c, run, acts, n);
  }

  /** What a state records stays recorded. */
  lemma {:induction false} RunLater(c: Config, run: seq<System>, acts: seq<Action>, n: nat, m: nat)
    requires IsRun(c, run, acts) && n < m < |run|
    ensures Later(run[n], run[m])
  {
    RunInvariant(c, run, acts, m - 1);
    StepInvariant(c, run, acts, m - 1);
    if n < m - 1 {
      RunLater(c, run, acts, n, m - 1);
      LaterTwice(run[n], run[m - 1], run[m]);
    }
  }

  lemma LaterTwice(s: System, s': System, s'': System)
    requires Later(s, s') && Later(s', s'')
    ensures Later(s, s'')
  {
    forall x, b | 0 <= x < |s.scopes| && s.scopes[x] == s''.scopes[x] && b in s''.bumps && b.scope == Some(x)
        ensures b in s.bumps {
      assert s.scopes[x] <= s'.scopes[x] <= s''.scopes[x];
    }
  }

  /** The conditions that only make a step defined hold whenever the step's own guard does. */
  lemma GuardsHold(c: Config, s: System, t: nat, w: nat)
    requires Inv(c, s)
    ensures w in s.workers && (s.workers[w].Idle? || (s.workers[w].Busy? && s.workers[w].gathering)) && s.queue != []
      ==> Enabled(c, s, Take(w))
    ensures t in s.callers && s.callers[t].InLookup? ==> Enabled(c, s, LookupScope(t))
    ensures t in s.callers && s.callers[t].Submitting? ==>
      (!s.stopping ==> Enabled(c, s, Submit(t, true))) && Enabled(c, s, Submit(t, false))
    ensures t in s.callers && s.callers[t].Waiting? && !s.callers[t].call.waits ==> Enabled(c, s, FenceEpoch(t))
    ensures t in s.callers && s.callers[t].Fencing? ==> Enabled(c, s, FenceScope(t))
  {
    if s.queue != [] { assert s.queue[0] in s.queue; }
    if t in s.callers { assert CallerOk(c, s, t); }
  }

  /** Nothing but what the source waits for keeps a call from its next step: the shard's lock, and the job's
      flag when it waits for it or reads its decision. */
  lemma CallsMayMove(c: Config, s: System, t: nat)
    requires Shaped(c, s) && t in s.callers && CallerOk(c, s, t)
    ensures match s.callers[t]
      case Begun(_) => Enabled(c, s, ReadClock(t))
      case LoadingEpoch(_) => Enabled(c, s, LoadEpoch(t))
      case LoadingScope(_, _, _) => Enabled(c, s, LoadScope(t))
      case Ready(call, _) =>
        if c.freshLimit == 0 then Enabled(c, s, CreateDirect(t))
        else s.shards[c.shardOf(call.request)].owner.None? ==> Enabled(c, s, LookupEnter(t))
      case InLookup(_, _, _) => Enabled(c, s, LookupScope(t))
      case Submitting(_, _, _) => Enabled(c, s, Submit(t, false)) && (!s.stopping ==> Enabled(c, s, Submit(t, true)))
      case _ => true
  {
  }

  lemma WaitersMayMove(c: Config, s: System, t: nat)
    requires Shaped(c, s) && t in s.callers && CallerOk(c, s, t)
    ensures match s.callers[t]
      case Waiting(call, i) =>
        && Enabled(c, s, GiveUp(t)) && i < |s.jobs|
        && (!call.waits || s.jobs[i].phase.Finished? ==> Enabled(c, s, FenceEpoch(t)))
      case Fencing(_, _, _) => Enabled(c, s, FenceScope(t)) && Enabled(c, s, GiveUp(t))
      case Fenced(_, i, _) =>
        Enabled(c, s, GiveUp(t)) && i < |s.jobs| && (s.jobs[i].phase.Finished? ==> Enabled(c, s, ReadDecision(t)))
      case _ => true
  {
  }

  /** And any caller whose session has not expired may begin a call, or poll a job of its own identity. */
  lemma CallsMayBegin(c: Config, s: System, t: nat, r: Request, session: nat, waits: bool, j: nat)
    requires Shaped(c, s) && t !in s.callers && (session == 0 || s.now + c.offset < session)
    ensures Enabled(c, s, Begin(t, r, session, waits))
    ensures j < |s.jobs| && r.(action := "", payload := "") == s.jobs[j].request.(action := "", payload := "") ==>
      Enabled(c, s, Poll(t, j, r, session))
  {
  }

  /** Nor a job: only its worker's gathering and the shard's lock. */
  lemma JobsMayMove(c: Config, s: System, j: nat, reply: Option<Reply>)
    requires Shaped(c, s) && j < |s.jobs| && JobHeld(s, j) && JobOk(c, s, j)
    ensures match s.jobs[j].phase
      case Created(_) => true
      case Queued => j in s.queue
      case Taken(w) =>
        w in s.workers && s.workers[w].Busy? && (!s.workers[w].gathering ==> Enabled(c, s, Answer(j, reply)))
      case Completing(_, _) =>
        !s.jobs[j].shared || s.shards[c.shardOf(s.jobs[j].request)].owner.None? ==> Enabled(c, s, CompleteEnter(j))
      case Publishing(_, _) => Enabled(c, s, Publish(j))
      case _ => true
  {
  }

  lemma CompletionsMayMove(c: Config, s: System, j: nat)
    requires Shaped(c, s) && InCallback(s, j)
    ensures match s.jobs[j].phase.stage
      case PassedEpoch(_) => Enabled(c, s, CompleteScope(j))
      case PassedScope(_, _) =>
        if s.jobs[j].phase.value.authoritative then Enabled(c, s, CompleteRevision(j)) else Enabled(c, s, Postpone(j))
      case KnowsRevision(_) => Enabled(c, s, ReadWall(j))
      case KnowsWall(_, _) => Enabled(c, s, Insert(j))
  {
  }

  /** Answers and publications are made by whoever has the job in hand. */
  lemma AgentsHold(c: Config, s: System, j: nat, reply: Option<Reply>)
    requires Inv(c, s) && Hands(s) && j < |s.jobs|
    ensures s.jobs[j].phase.Taken? ==>
      && s.jobs[j].phase.worker in s.workers && s.workers[s.jobs[j].phase.worker].Busy?
      && (Enabled(c, s, Answer(j, reply)) <==> !s.workers[s.jobs[j].phase.worker].gathering)
    ensures s.jobs[j].phase.Publishing? ==>
      match s.jobs[j].phase.agent
      case ByCaller(u) => u in s.callers && s.callers[u].Finishing? && s.callers[u].job == j
      case ByWorker(v) => v in s.workers && s.workers[v].Busy? && j in s.workers[v].jobs
  {
    assert JobHeld(s, j);
    if s.jobs[j].phase.Publishing? && s.jobs[j].phase.agent.ByCaller? {
      assert CallerOk(c, s, s.jobs[j].phase.agent.t);
    }
  }

  // ---------------------------------------------------------------------------
  // The records
  // ---------------------------------------------------------------------------

  predicate Invalidates(a: Action, scope: Option<nat>) {
    if scope.None? then a.BumpEpoch? else a == BumpScope(scope.value)
  }

  lemma StepBumps(c: Config, run: seq<System>, acts: seq<Action>, n: nat, scope: Option<nat>)
    requires IsRun(c, run, acts) && n < |acts| && Invalidates(acts[n], scope)
    ensures Bump(run[n].step, scope) in run[n + 1].bumps
  {
  }

  /** Every step that invalidated is in the log. */
  lemma BumpsAreSteps(c: Config, run: seq<System>, acts: seq<Action>, n: nat, m: nat, scope: Option<nat>)
    requires IsRun(c, run, acts) && m < n < |run| && Invalidates(acts[m], scope)
    ensures Bump(m, scope) in run[n].bumps
  {
    StatesAreNumbered(c, run, acts, m);
    StepBumps(c, run, acts, m, scope);
    if m + 1 < n { RunLater(c, run, acts, m + 1, n); }
  }

  /** Every such invalidation was made before the load, or after the check. */
  ghost predicate NoneBetween(acts: seq<Action>, scope: Option<nat>, loaded: nat, checked: nat) {
    forall m :: 0 <= m < |acts| && Invalidates(acts[m], scope) ==> m < loaded || checked < m
  }

  /** A stretch that the log calls clear holds no such invalidation. */
  lemma ClearMeansNone(c: Config, run: seq<System>, acts: seq<Action>, n: nat, scope: Option<nat>, loaded: nat,
                       checked: nat)
    requires IsRun(c, run, acts) && n < |run| && Clear(run[n], scope, loaded, checked) && checked < n
    ensures NoneBetween(acts, scope, loaded, checked)
  {
    forall m | 0 <= m < |acts| && Invalidates(acts[m], scope) ensures m < loaded || checked < m {
      if m < n { BumpsAreSteps(c, run, acts, n, m, scope); assert Bump(m, scope) in run[n].bumps; }
    }
  }

  /** What a reading records is what the state held when its step was taken. */
  ghost predicate WasRead(run: seq<System>, acts: seq<Action>, r: Reading) {
    r.at < |acts| < |run| && r.act == acts[r.at] && r.now == run[r.at].now && r.revision == run[r.at].revision
  }

  lemma StepReads(c: Config, s: System, a: Action)
    requires Shaped(c, s) && Enabled(c, s, a)
    ensures Next(c, s, a).readings <= s.readings + {Glance(s, a)}
  {
    if OfLookup(a) && !a.Submit? { LookupShape(c, s, a, Next(c, s, a)); }
    else if OfCallback(a) { CallbackReads(c, s, a); }
    else { OthersRead(c, s, a); }
  }

  lemma OthersRead(c: Config, s: System, a: Action)
    requires Shaped(c, s) && Enabled(c, s, a) && !OfCallback(a) && (OfLookup(a) ==> a.Submit?)
    ensures Effect(c, s, a).readings <= s.readings + {Glance(s, a)}
  {
    if OfCall(a) { CallReads(c, s, a); }
  }

  lemma CallReads(c: Config, s: System, a: Action)
    requires Shaped(c, s) && OfCall(a) && CallMay(c, s, a)
    ensures CallEffect(c, s, a).readings <= s.readings + {Glance(s, a)}
  {
  }

  lemma CallbackReads(c: Config, s: System, a: Action)
    requires Shaped(c, s) && OfCallback(a) && CallbackMay(c, s, a)
    ensures CallbackEffect(c, s, a).readings <= s.readings + {Glance(s, a)}
  {
  }

  lemma {:induction false} ReadingsAreSteps(c: Config, run: seq<System>, acts: seq<Action>, n: nat, r: Reading)
    requires IsRun(c, run, acts) && n < |run| && r in run[n].readings
    ensures WasRead(run, acts, r) && r.at < n
  {
    if n == 0 {
      assert false;
    } else {
      if r in run[n - 1].readings { ReadingsAreSteps(c, run, acts, n - 1, r); }
          else { StepReadsRun(c, run, acts, n - 1, r); }
    }
  }

  lemma StepReadsRun(c: Config, run: seq<System>, acts: seq<Action>, n: nat, r: Reading)
    requires IsRun(c, run, acts) && n < |acts| && r in run[n + 1].readings && r !in run[n].readings
    ensures WasRead(run, acts, r) && r.at == n
  {
    StatesAreNumbered(c, run, acts, n);
    StepReads(c, run[n], acts[n]);
  }
}
