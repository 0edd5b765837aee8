/** Two runs of the provider that show what it does not promise: two unfinished jobs of one key, and
    a cached grant after both expiries. */
module RemoteAuthWitness {
  import opened AuthDecision
  import opened LeaseCache
  import opened RemoteAuth
  import opened RemoteAuthRuns
  import opened Wrappers

  const KEY := Request(1, "user", "client", "publish", "topic", "")
  const SMALL := Config(8, 8, 0, 16, 1, 1, false, 0, (r: Request) => 0, (u: string) => 0)
  const EMPTY := ShardState(Lru(map[], []), map[], None)

  /** A run of SMALL that ends in this state. */
  ghost predicate Ends(run: seq<System>, acts: seq<Action>, s: System) {
    IsRun(SMALL, run, acts) && run[|acts|] == s && Shaped(SMALL, s)
  }

  lemma Extend(run: seq<System>, acts: seq<Action>, s: System, a: Action) returns (run': seq<System>,
               acts': seq<Action>, s': System)
    requires Ends(run, acts, s) && Enabled(SMALL, s, a)
    ensures s' == Next(SMALL, s, a) && IsRun(SMALL, run', acts') && run'[|acts'|] == s'
    ensures |acts'| == |acts| + 1 && acts'[|acts|] == a && run'[|acts|] == s
    ensures forall n :: 0 <= n <= |acts| ==> run'[n] == run[n]
  {
    s' := Next(SMALL, s, a);
    run', acts' := run + [s'], acts + [a];
    forall n {:trigger acts'[n]} | 0 <= n < |acts'| ensures IsStep(SMALL, run'[n], acts'[n], run'[n + 1]) {
      if n < |acts| { assert acts'[n] == acts[n]; }
    }
  }

  /** Nothing but this caller and the readings has changed. */
  ghost predicate OnlyCaller(s: System, s': System, t: nat) {
    s' == s.(step := s'.step, readings := s'.readings, callers := s'.callers)
    && s'.callers.Keys == s.callers.Keys + {t}
    && forall u :: u in s.callers && u != t ==> u in s'.callers && s'.callers[u] == s.callers[u]
  }

  lemma Start(run: seq<System>, acts: seq<Action>, s: System, t: nat, session: nat)
    returns (run': seq<System>, acts': seq<Action>, s': System)
    requires Ends(run, acts, s) && t !in s.callers && Live(session, SMALL, s.now)
    ensures Ends(run', acts', s') && OnlyCaller(s, s', t)
    ensures s'.callers[t].Begun? && s'.callers[t].call.request == KEY && s'.callers[t].call.session == session
  {
    run', acts', s' := Extend(run, acts, s, Begin(t, KEY, session, true));
  }

  /** A caller goes on to the shard lock. */
  lemma Arrive(run: seq<System>, acts: seq<Action>, s: System, t: nat) returns (run': seq<System>, acts': seq<Action>,
               s': System)
    requires Ends(run, acts, s) && t in s.callers && s.callers[t].Begun? && s.callers[t].call.request == KEY
    ensures Ends(run', acts', s') && OnlyCaller(s, s', t)
    ensures s'.callers[t].Ready? && s'.callers[t].call == s.callers[t].call.(clock := s'.callers[t].call.clock)
    ensures s'.callers[t].call.clock.now == s.now
    ensures s'.callers[t].capture.epoch == s.epoch && s'.callers[t].capture.scopeEpoch == s.scopes[0]
  {
    var s1, s2;
    run', acts', s1 := Extend(run, acts, s, ReadClock(t));
    run', acts', s2 := Extend(run', acts', s1, LoadEpoch(t));
    run', acts', s' := Extend(run', acts', s2, LoadScope(t));
  }

  /** A caller finds nothing cached and nothing pending, and creates a job. */
  lemma LookUp(run: seq<System>, acts: seq<Action>, s: System, t: nat) returns (run': seq<System>, acts': seq<Action>,
               s': System)
    requires Ends(run, acts, s) && t in s.callers && s.callers[t].Ready? && s.callers[t].call.request == KEY
    requires s.shards[0] == EMPTY
    ensures Ends(run', acts', s') && |s'.jobs| == |s.jobs| + 1
    ensures var p := s.callers[t];
      && s'.jobs == s.jobs + [Job(KEY, true, p.capture, s'.jobs[|s.jobs|].started, p.call.session, Created(t))]
      && s'.jobs[|s.jobs|].started.now == s.now
      && s'.callers == s.callers[t := Submitting(p.call, |s.jobs|, false)]
    ensures s'.shards[0] == EMPTY.(pending := map[KEY := |s.jobs|])
    ensures s'.now == s.now && s'.epoch == s.epoch && s'.scopes == s.scopes && s'.stopping == s.stopping
    ensures s'.queue == s.queue && s'.workers == s.workers
  {
    run', acts', s' := Extend(run, acts, s, LookupEnter(t));
  }

  /** One worker, and one caller with a job of its own to submit. */
  lemma FirstJob(session: nat) returns (run: seq<System>, acts: seq<Action>, s: System)
    requires Live(session, SMALL, 0)
    ensures Ends(run, acts, s) && |s.jobs| == 1
    ensures var job := s.jobs[0];
      && job.request == KEY && job.shared && job.phase == Created(0) && job.started.now == 0 && job.session == session
      && job.capture.epoch == s.epoch && job.capture.scopeEpoch == s.scopes[0]
    ensures 0 in s.callers && 1 !in s.callers && s.callers[0].Submitting? && s.callers[0].job == 0 && !s.callers[0].hit
    ensures s.now == 0 && !s.stopping && s.queue == [] && s.workers == map[0 := Idle]
    ensures s.shards[0] == EMPTY.(pending := map[KEY := 0])
  {
    s := System(0, 0, 0, seq(SCOPES, i => 0), "", false, seq(SHARDS, i => EMPTY), [], [], map[], map[], {}, {}, {});
    run, acts := [s], [];
    run, acts, s := Extend(run, acts, s, Hire(0));
    run, acts, s := Start(run, acts, s, 0, session);
    run, acts, s := Arrive(run, acts, s, 0);
    run, acts, s := LookUp(run, acts, s, 0);
  }

  // ---------------------------------------------------------------------------
  // Two unfinished jobs
  // ---------------------------------------------------------------------------

  /** The queue refuses the job, and its creator completes it, up to but not including its flag. */
  lemma CompleteRefused(run: seq<System>, acts: seq<Action>, s: System) returns (run': seq<System>,
                        acts': seq<Action>, s': System)
    requires Ends(run, acts, s) && |s.jobs| == 1 && s.jobs[0].request == KEY && s.jobs[0].shared
    requires s.jobs[0].phase == Created(0)
    requires s.jobs[0].capture.epoch == s.epoch && s.jobs[0].capture.scopeEpoch == s.scopes[0]
    requires 0 in s.callers && s.callers[0].Submitting? && s.callers[0].job == 0
    requires s.shards[0] == EMPTY.(pending := map[KEY := 0])
    ensures Ends(run', acts', s') && s'.jobs == [s.jobs[0].(phase := Publishing(ByCaller(0), NO_DECISION))]
    ensures s'.shards[0] == EMPTY
    ensures 1 in s.callers ==> 1 in s'.callers && s'.callers[1] == s.callers[1]
  {
    var s1, s2;
    run', acts', s1 := Extend(run, acts, s, Submit(0, false));
    assert s1.jobs == [s.jobs[0].(phase := Completing(ByCaller(0), NO_DECISION))];
    run', acts', s2 := PassFence(run', acts', s1, ByCaller(0), NO_DECISION);
    run', acts', s' := Extend(run', acts', s2, Postpone(0));
  }

  /** The completion of the only job finds both counters current. */
  lemma PassFence(run: seq<System>, acts: seq<Action>, s: System, agent: Agent, v: Decision)
    returns (run': seq<System>, acts': seq<Action>, s': System)
    requires Ends(run, acts, s) && |s.jobs| == 1 && s.jobs[0].request == KEY && s.jobs[0].shared
    requires s.jobs[0].phase == Completing(agent, v) && s.shards[0] == EMPTY.(pending := map[KEY := 0])
    requires s.jobs[0].capture.epoch == s.epoch && s.jobs[0].capture.scopeEpoch == s.scopes[0]
    ensures Ends(run', acts', s') && |s'.jobs| == 1 && s'.jobs[0] == s.jobs[0].(phase := s'.jobs[0].phase)
    ensures s'.jobs[0].phase.Locked? && s'.jobs[0].phase.agent == agent && s'.jobs[0].phase.value == v
    ensures s'.jobs[0].phase.stage.PassedScope?
    ensures s'.shards[0] == EMPTY.(owner := Some(Finisher(0)))
    ensures s'.now == s.now && s'.epoch == s.epoch && s'.scopes == s.scopes && s'.callers == s.callers
  {
    var s1;
    run', acts', s1 := Extend(run, acts, s, CompleteEnter(0));
    run', acts', s' := Extend(run', acts', s1, CompleteScope(0));
  }

  lemma SecondUnfinishedJob() returns (run: seq<System>, acts: seq<Action>)
    ensures IsRun(SMALL, run, acts) && |run[|acts|].jobs| == 2
    ensures forall j :: 0 <= j < 2 ==>
        var job := run[|acts|].jobs[j]; job.request == KEY && job.shared && !job.phase.Finished?
  {
    var s;
    run, acts, s := FirstJob(0);
    run, acts, s := Start(run, acts, s, 1, 0);
    run, acts, s := Arrive(run, acts, s, 1);
    run, acts, s := CompleteRefused(run, acts, s);
    run, acts, s := LookUp(run, acts, s, 1);
  }

  // ---------------------------------------------------------------------------
  // A late grant
  // ---------------------------------------------------------------------------

  /** Allowed until wall-clock time 2, and to be kept for 8. */
  const ALLOWED := Decision(SUCCESS, true, 2, 8, 8, "")

  /** A worker takes the job and gets its answer. */
  lemma AnswerAllowed(run: seq<System>, acts: seq<Action>, s: System) returns (run': seq<System>, acts': seq<Action>,
                      s': System)
    requires Ends(run, acts, s) && |s.jobs| == 1 && s.jobs[0].phase == Created(0) && s.now == 0 && !s.stopping
    requires s.queue == [] && s.workers == map[0 := Idle]
    requires 0 in s.callers && s.callers[0].Submitting? && s.callers[0].job == 0 && 1 in s.callers
    ensures Ends(run', acts', s') && s'.jobs == [s.jobs[0].(phase := Completing(ByWorker(0), ALLOWED))]
    ensures s'.shards == s.shards && s'.now == s.now && s'.epoch == s.epoch && s'.scopes == s.scopes
    ensures 1 in s'.callers && s'.callers[1] == s.callers[1]
  {
    var s1, s2, s3;
    run', acts', s1 := Extend(run, acts, s, Submit(0, true));
    run', acts', s2 := Extend(run', acts', s1, Take(0));
    run', acts', s3 := Extend(run', acts', s2, Ask(0));
    run', acts', s' := Extend(run', acts', s3, Answer(0, Some(Proto(Allow, 2, 8, 8, ""))));
  }

  /** Its completion passes the fence and reads the wall clock. */
  lemma EnterCallback(run: seq<System>, acts: seq<Action>, s: System) returns (run': seq<System>, acts': seq<Action>,
                      s': System)
    requires Ends(run, acts, s) && |s.jobs| == 1 && s.jobs[0].phase == Completing(ByWorker(0), ALLOWED)
    requires s.jobs[0].request == KEY && s.jobs[0].shared && s.shards[0] == EMPTY.(pending := map[KEY := 0])
    requires s.jobs[0].capture.epoch == s.epoch && s.jobs[0].capture.scopeEpoch == s.scopes[0]
    ensures Ends(run', acts', s') && |s'.jobs| == 1 && s'.jobs[0] == s.jobs[0].(phase := s'.jobs[0].phase)
    ensures s'.jobs[0].phase.Locked? && s'.jobs[0].phase.value == ALLOWED && s'.jobs[0].phase.stage.KnowsWall?
    ensures s'.jobs[0].phase.stage.wall.now == s.now && s'.shards[0].cache == Lru(map[], [])
    ensures s'.now == s.now && s'.epoch == s.epoch && s'.scopes == s.scopes && s'.callers == s.callers
  {
    var s1, s2;
    run', acts', s1 := PassFence(run, acts, s, ByWorker(0), ALLOWED);
    run', acts', s2 := Extend(run', acts', s1, CompleteRevision(0));
    run', acts', s' := Extend(run', acts', s2, ReadWall(0));
  }

  /** Time passes, and it stores the lease: until 7, although both bounds are 2. */
  lemma StoreLate(run: seq<System>, acts: seq<Action>, s: System) returns (run': seq<System>, acts': seq<Action>,
                  s': System)
    requires Ends(run, acts, s) && |s.jobs| == 1 && s.jobs[0].request == KEY && s.jobs[0].session == 2 && s.now == 0
    requires s.jobs[0].phase.Locked? && s.jobs[0].phase.value == ALLOWED && s.jobs[0].phase.stage.KnowsWall?
    requires s.jobs[0].phase.stage.wall.now == 0 && s.jobs[0].started.now == 0 && s.shards[0].cache == Lru(map[], [])
    requires s.jobs[0].capture.epoch == s.epoch && s.jobs[0].capture.scopeEpoch == s.scopes[0]
    ensures Ends(run', acts', s') && s'.now == 5 && s'.shards[0].owner == None && s'.callers == s.callers
    ensures |s'.jobs| == 1 && s'.jobs[0] == s.jobs[0].(phase := s'.jobs[0].phase)
    ensures KEY in s'.shards[0].cache.entries
    ensures var e := s'.shards[0].cache.entries[KEY];
      e.decision == ALLOWED && e.expires == 7 && e.freshUntil == 7 && e.source == 0
      && e.epoch == s'.epoch && e.scopeEpoch == s'.scopes[0]
  {
    var s1;
    run', acts', s1 := Extend(run, acts, s, Tick(5));
    run', acts', s' := Extend(run', acts', s1, Insert(0));
  }

  /** A caller that began in time reads its clock at 5, and is served at 10. */
  lemma Serve(run: seq<System>, acts: seq<Action>, s: System)
    returns (run': seq<System>, acts': seq<Action>, s': System, g: Grant)
    requires Ends(run, acts, s) && s.now == 5 && s.shards[0].owner == None && KEY in s.shards[0].cache.entries
    requires |s.jobs| == 1
    requires var e := s.shards[0].cache.entries[KEY];
      e.decision == ALLOWED && e.expires == 7 && e.freshUntil == 7 && e.source == 0
      && e.epoch == s.epoch && e.scopeEpoch == s.scopes[0]
    requires 1 in s.callers && s.callers[1].Ready? && s.callers[1].call.request == KEY
    requires s.callers[1].call.clock.now == 5
    ensures Ends(run', acts', s') && g in s'.grants && g.job == 0 && g.call == s.callers[1].call
    ensures g.lease.Some? && g.lease.value.decision == ALLOWED && g.lease.value.expires == 7
    ensures g.at < |acts'| && run'[g.at].now == 10 && s'.jobs == s.jobs
  {
    var s1, s2;
    run', acts', s1 := Extend(run, acts, s, Tick(5));
    run', acts', s2 := Extend(run', acts', s1, LookupEnter(1));
    var at := |acts'|;
    RunInvariant(SMALL, run', acts', at);
    run', acts', s' := Extend(run', acts', s2, LookupScope(1));
    g := Grant(at, s2.callers[1].call, 0, s2.callers[1].check, Some(s.shards[0].cache.entries[KEY]));
  }

  /** A cached grant to a session that expired at 2, from a decision that expired at 2, to a call
      whose clock read 5; and by the time it is given, at 10, even the lease is over. */
  lemma LateGrant() returns (run: seq<System>, acts: seq<Action>, g: Grant)
    ensures IsRun(SMALL, run, acts) && g in run[|acts|].grants && g.job < |run[|acts|].jobs| && g.lease.Some?
    ensures var job, e := run[|acts|].jobs[g.job], g.lease.value;
      && job.session == g.call.session == e.decision.expiresAt == 2
      && !Live(job.session, SMALL, g.call.clock.now) && !Live(e.decision.expiresAt, SMALL, g.call.clock.now)
      && g.at < |acts| && e.expires < run[g.at].now
  {
    var s;
    run, acts, s := FirstJob(2);
    run, acts, s := Start(run, acts, s, 1, 2);
    run, acts, s := AnswerAllowed(run, acts, s);
    run, acts, s := EnterCallback(run, acts, s);
    run, acts, s := StoreLate(run, acts, s);
    run, acts, s := Arrive(run, acts, s, 1);
    run, acts, s, g := Serve(run, acts, s);
  }
}
