/** What the provider's clock readings, counter checks and leases have to do with each other, in
    every state it can reach. */
module RemoteAuthTimes {
  import opened AuthDecision
  import opened LeaseCache
  import opened RemoteAuth
  import opened RemoteAuthSteps
  import opened Wrappers

  /** Read before now. */
  ghost predicate Known(s: System, r: Reading) { r in s.readings && r.at < s.step && r.now <= s.now }

  ghost predicate EpochPassed(s: System, job: Job, at: nat) {
    at < s.step && Clear(s, None, job.capture.epochAt, at)
  }

  ghost predicate ScopePassed(c: Config, s: System, job: Job, at: nat) {
    at < s.step && Clear(s, Some(Scope(c, job.request)), job.capture.scopeAt, at)
  }

  /** A completion of job j that found both counters current and a revision its answer fits. */
  ghost predicate TrailOk(c: Config, s: System, job: Job, j: nat, v: Decision, trail: Trail) {
    && EpochPassed(s, job, trail.epochAt) && ScopePassed(c, s, job, trail.scopeAt)
    && Known(s, trail.revision) && trail.revision.act == CompleteRevision(j)
    && v.authoritative && RevisionFits(c, v, trail.revision.revision)
  }

  ghost predicate StageOk(c: Config, s: System, job: Job, j: nat, v: Decision, stage: Stage) {
    match stage
    case PassedEpoch(e) => EpochPassed(s, job, e)
    case PassedScope(e, x) => EpochPassed(s, job, e) && ScopePassed(c, s, job, x)
    case KnowsRevision(trail) => TrailOk(c, s, job, j, v, trail)
    case KnowsWall(trail, wall) => TrailOk(c, s, job, j, v, trail) && Known(s, wall) && wall.act == ReadWall(j)
  }

  predicate ValueOk(c: Config, p: JobPhase) {
    !p.Created? && !p.Queued? && !p.Taken? ==> p.value.freshMs <= p.value.maxAgeMs <= c.ageLimit
  }

  ghost predicate JobTimes(c: Config, s: System, j: nat)
    requires j < |s.jobs|
  {
    var job := s.jobs[j];
    && Known(s, job.started) && ValueOk(c, job.phase)
    && (job.phase.Locked? ==> StageOk(c, s, job, j, job.phase.value, job.phase.stage))
    && (job.phase.Finished? ==> job.phase.at < s.step)
  }

  /** A lease is what its job's answer and the two clock readings of its completion make it. */
  ghost predicate LeaseOk(c: Config, s: System, j: nat, e: Entry) {
    && j < |s.jobs| && e.source == j
    && e.expires == LeaseExpiry(s.jobs[j].started.now, e.decision, s.jobs[j].session, e.mono.now, e.wall.now + c.offset)
    && e.decision.maxAgeMs <= c.ageLimit && e.decision.freshMs != 0 && e.mono.now < e.expires
    && TrailOk(c, s, s.jobs[j], j, e.decision, e.trail)
    && Known(s, e.wall) && e.wall.act == ReadWall(j) && Known(s, e.mono) && e.mono.act == Insert(j)
    && e.wall.at < e.mono.at && e.wall.now <= e.mono.now
  }

  /** A call's session was checked as it began, and its clock read since. */
  ghost predicate CallOk(c: Config, s: System, call: Call) {
    && Known(s, call.checked) && call.checked.at == call.began && Live(call.session, c, call.checked.now)
    && Known(s, call.clock) && call.began <= call.clock.at
  }

  /** A waiting call looks at the fence only once its job has finished. */
  ghost predicate AfterFinish(s: System, call: Call, j: nat, k: Check) {
    call.waits ==> j < |s.jobs| && s.jobs[j].phase.Finished? && s.jobs[j].phase.at < k.at
  }

  ghost predicate CallTimes(c: Config, s: System, p: Phase) {
    && CallOk(c, s, p.call)
    && (p.Fencing? || p.Fenced? ==> AfterFinish(s, p.call, p.job, p.check))
  }

  ghost predicate GrantTimes(c: Config, s: System, g: Grant) {
    && CallOk(c, s, g.call)
    && if g.lease.None? then AfterFinish(s, g.call, g.job, g.check) else LeaseOk(c, s, g.job, g.lease.value)
  }

  ghost predicate Times(c: Config, s: System) {
    && (forall j {:trigger JobTimes(c, s, j)} :: 0 <= j < |s.jobs| ==> JobTimes(c, s, j))
    && (forall t {:trigger s.callers[t]} :: t in s.callers ==> CallTimes(c, s, s.callers[t]))
    && (forall i, k {:trigger s.shards[i].cache.entries[k]} :: 0 <= i < |s.shards| && k in s.shards[i].cache.entries ==>
          LeaseOk(c, s, s.shards[i].cache.entries[k].source, s.shards[i].cache.entries[k]))
    && (forall g {:trigger GrantTimes(c, s, g)} :: g in s.grants ==> GrantTimes(c, s, g))
  }

  // ---------------------------------------------------------------------------
  // Time only adds to what is known
  // ---------------------------------------------------------------------------

  lemma TrailLater(c: Config, s: System, s': System, j: nat, v: Decision, trail: Trail)
    requires Later(s, s') && j < |s.jobs| && TrailOk(c, s, s.jobs[j], j, v, trail)
    ensures TrailOk(c, s', s'.jobs[j], j, v, trail)
  {
  }

  lemma StageLater(c: Config, s: System, s': System, j: nat, v: Decision, stage: Stage)
    requires Later(s, s') && j < |s.jobs| && StageOk(c, s, s.jobs[j], j, v, stage)
    ensures StageOk(c, s', s'.jobs[j], j, v, stage)
  {
    match stage
    case KnowsRevision(trail) => TrailLater(c, s, s', j, v, trail);
    case KnowsWall(trail, _) => TrailLater(c, s, s', j, v, trail);
    case _ =>
  }

  lemma JobLater(c: Config, s: System, s': System, j: nat)
    requires Later(s, s') && j < |s.jobs| && JobTimes(c, s, j) && s'.jobs[j] == s.jobs[j]
    ensures JobTimes(c, s', j)
  {
    if s.jobs[j].phase.Locked? { StageLater(c, s, s', j, s.jobs[j].phase.value, s.jobs[j].phase.stage); }
  }

  /** Entries that differ in nothing but the time of the next attempt. */
  predicate SameLease(e: Entry, e': Entry) { e' == e.(retryAfter := e'.retryAfter) }

  lemma LeaseLater(c: Config, s: System, s': System, j: nat, e: Entry, e': Entry)
    requires Later(s, s') && LeaseOk(c, s, j, e) && SameLease(e, e')
    ensures LeaseOk(c, s', j, e')
  {
    TrailLater(c, s, s', j, e.decision, e.trail);
  }

  lemma CallLater(c: Config, s: System, s': System, p: Phase)
    requires Later(s, s') && CallTimes(c, s, p)
    ensures CallTimes(c, s', p)
  {
  }

  lemma GrantLater(c: Config, s: System, s': System, g: Grant)
    requires Later(s, s') && GrantTimes(c, s, g)
    ensures GrantTimes(c, s', g)
  {
    if g.lease.Some? { LeaseLater(c, s, s', g.job, g.lease.value, g.lease.value); }
  }

  /** It is enough to look at what a step has touched. */
  lemma TimesKept(c: Config, s: System, s': System)
    requires Times(c, s) && Later(s, s') && |s'.shards| == |s.shards|
    requires forall j :: 0 <= j < |s'.jobs| ==> (j < |s.jobs| && s'.jobs[j] == s.jobs[j]) || JobTimes(c, s', j)
    requires forall t :: t in s'.callers ==>
      (t in s.callers && s'.callers[t] == s.callers[t]) || CallTimes(c, s', s'.callers[t])
    requires forall i, k {:trigger s'.shards[i].cache.entries[k]} ::
        0 <= i < |s.shards| && k in s'.shards[i].cache.entries ==>
      || (k in s.shards[i].cache.entries && SameLease(s.shards[i].cache.entries[k], s'.shards[i].cache.entries[k]))
      || LeaseOk(c, s', s'.shards[i].cache.entries[k].source, s'.shards[i].cache.entries[k])
    requires forall g :: g in s'.grants ==> g in s.grants || GrantTimes(c, s', g)
    ensures Times(c, s')
  {
    forall j | 0 <= j < |s'.jobs| ensures JobTimes(c, s', j) {
      if j < |s.jobs| && s'.jobs[j] == s.jobs[j] {
        assert JobTimes(c, s, j);
        JobLater(c, s, s', j);
      }
    }
    forall t | t in s'.callers ensures CallTimes(c, s', s'.callers[t]) {
      if t in s.callers && s'.callers[t] == s.callers[t] { CallLater(c, s, s', s.callers[t]); }
    }
    forall i, k {:trigger s'.shards[i].cache.entries[k]} | 0 <= i < |s'.shards| && k in s'.shards[i].cache.entries
      ensures LeaseOk(c, s', s'.shards[i].cache.entries[k].source, s'.shards[i].cache.entries[k])
    {
      var e' := s'.shards[i].cache.entries[k];
      if k in s.shards[i].cache.entries && SameLease(s.shards[i].cache.entries[k], e') {
        LeaseLater(c, s, s', e'.source, s.shards[i].cache.entries[k], e');
      }
    }
    forall g | g in s'.grants ensures GrantTimes(c, s', g) {
      if g in s.grants {
        assert GrantTimes(c, s, g);
        GrantLater(c, s, s', g);
      }
    }
  }

  // ---------------------------------------------------------------------------
  // Every step keeps it
  // ---------------------------------------------------------------------------

  lemma CallShape(c: Config, s: System, a: Action, s': System)
    requires Shaped(c, s) && OfCall(a) && CallMay(c, s, a) && s' == Counted(CallEffect(c, s, a))
    ensures s' == s.(step := s.step + 1, callers := s'.callers, readings := s'.readings, grants := s'.grants)
    ensures s.readings <= s'.readings && s.grants <= s'.grants
    ensures forall u :: u != a.t && u in s'.callers ==> u in s.callers && s'.callers[u] == s.callers[u]
  {
  }

  lemma CallTimesStep(c: Config, s: System, a: Action)
    requires Inv(c, s) && Times(c, s) && OfCall(a) && CallMay(c, s, a)
    ensures Later(s, Counted(CallEffect(c, s, a))) && Times(c, Counted(CallEffect(c, s, a)))
  {
    var s' := Counted(CallEffect(c, s, a));
    CallShape(c, s, a, s');
    assert Later(s, s');
    if a.FenceEpoch? { assert JobTimes(c, s, s.callers[a.t].job); }
    CallMoved(c, s, a, s');
    CallGrants(c, s, a, s');
    TimesKept(c, s, s');
  }

  lemma CallMoved(c: Config, s: System, a: Action, s': System)
    requires Times(c, s) && Shaped(c, s) && OfCall(a) && CallMay(c, s, a) && s' == Counted(CallEffect(c, s, a))
    requires Later(s, s')
    requires a.FenceEpoch? ==> s.callers[a.t].job < |s.jobs| && JobTimes(c, s, s.callers[a.t].job)
    ensures a.t in s'.callers ==> CallTimes(c, s', s'.callers[a.t])
  {
    if a.t in s.callers { CallLater(c, s, s', s.callers[a.t]); }
  }

  lemma CallGrants(c: Config, s: System, a: Action, s': System)
    requires Times(c, s) && Shaped(c, s) && OfCall(a) && CallMay(c, s, a) && s' == Counted(CallEffect(c, s, a))
    requires Later(s, s')
    ensures forall g :: g in s'.grants ==> g in s.grants || GrantTimes(c, s', g)
  {
    if a.ReadDecision? { CallLater(c, s, s', s.callers[a.t]); }
  }

  /** Only caller t moved, and it left the lookup region; jobs were added at most. */
  ghost predicate Left(s: System, s': System, t: nat, r: Reading) {
    && s' == s.(step := s.step + 1, shards := s'.shards, jobs := s'.jobs, callers := s'.callers,
        readings := s'.readings,
                grants := s'.grants)
    && (s'.readings == s.readings || s'.readings == s.readings + {r})
    && |s.jobs| <= |s'.jobs| && s'.jobs[..|s.jobs|] == s.jobs
    && (forall j :: |s.jobs| <= j < |s'.jobs| ==>
          s'.jobs[j].phase == Created(t) && s'.jobs[j].started == r && r in s'.readings)
    && (forall u :: u != t && u in s.callers ==> u in s'.callers && s'.callers[u] == s.callers[u])
    && (forall u :: u != t && u in s'.callers ==> u in s.callers)
    && (t in s'.callers && t in s.callers ==>
          && (s'.callers[t].Waiting? || s'.callers[t].Submitting? || s'.callers[t].InLookup?)
          && s'.callers[t].call == s.callers[t].call)
  }

  /** Caches only lose entries. */
  ghost predicate Shrunk(s: System, s': System) {
    && |s'.shards| == |s.shards|
    && forall i, k {:trigger s'.shards[i].cache.entries[k]} ::
        0 <= i < |s.shards| && k in s'.shards[i].cache.entries ==>
         k in s.shards[i].cache.entries && s'.shards[i].cache.entries[k] == s.shards[i].cache.entries[k]
  }

  lemma JoinOrCreateLeft(c: Config, s: System, t: nat, call: Call, capture: Capture, hit: bool,
                         cache: Lru<Request, Entry>, r: Reading, s': System)
    requires Shaped(c, s) && t in s.callers && s.callers[t].call == call
    requires s' == Counted(JoinOrCreate(c, s, t, call, capture, hit, cache, r))
    ensures Left(s, s', t, r) && s'.grants == s.grants
  {
    var k, i := call.request, c.shardOf(call.request);
    var h := s.shards[i].(cache := cache, owner := None);
    if k !in h.pending && |h.pending| < c.queueCapacity + c.workers {
      CreatedLeft(s, t, i, h.(pending := h.pending[k := |s.jobs|]), Job(k, true, capture, r, call.session, Created(t)),
          hit, r, s');
    } else {
      NotCreatedLeft(s, t, i, h, if k in h.pending then h.pending[k] else 0, r, s');
    }
  }

  lemma CreatedLeft(s: System, t: nat, i: nat, h: ShardState, job: Job, hit: bool, r: Reading, s': System)
    requires t in s.callers && i < |s.shards| && job.phase == Created(t) && job.started == r
    requires s' == Counted(WithPhase(WithShard(Noted(s, r).(jobs := s.jobs + [job]), i, h), t,
                                     Submitting(s.callers[t].call, |s.jobs|, hit)))
    ensures Left(s, s', t, r)
  {
  }

  lemma NotCreatedLeft(s: System, t: nat, i: nat, h: ShardState, j: nat, r: Reading, s': System)
    requires t in s.callers && i < |s.shards|
    requires s' == Counted(Return(WithShard(s, i, h), t)) || s' == Counted(WithPhase(WithShard(s, i, h), t,
        Waiting(s.callers[t].call, j)))
    ensures Left(s, s', t, r)
  {
  }

  lemma JoinOrCreateShards(c: Config, s: System, t: nat, call: Call, capture: Capture, hit: bool,
                           cache: Lru<Request, Entry>, r: Reading, s': System)
    requires Shaped(c, s) && s' == Counted(JoinOrCreate(c, s, t, call, capture, hit, cache, r))
    ensures |s'.shards| == |s.shards| && s'.shards[c.shardOf(call.request)].cache == cache
    ensures forall i :: 0 <= i < |s.shards| && i != c.shardOf(call.request) ==> s'.shards[i] == s.shards[i]
  {
  }

  /** Neither a hit nor a miss adds to the cache. */
  lemma LookupShrinks(s: System, s': System, i: nat, k: Request, cache: Lru<Request, Entry>)
    requires i < |s.shards| == |s'.shards| && s'.shards[i].cache == cache
    requires cache == Dropped(s.shards[i].cache, k) || cache == Touched(s.shards[i].cache, k)
    requires forall x :: 0 <= x < |s.shards| && x != i ==> s'.shards[x] == s.shards[x]
    ensures Shrunk(s, s')
  {
  }

  lemma HitLeft(c: Config, s: System, t: nat, call: Call, capture: Capture, check: Check, r: Reading, s': System)
    requires Shaped(c, s) && t in s.callers && s.callers[t].call == call
    requires call.request in s.shards[c.shardOf(call.request)].cache.entries
    requires s' == Counted(Hit(c, s, t, call, capture, check, r))
    ensures Left(s, s', t, r) && Shrunk(s, s')
    ensures var e := s.shards[c.shardOf(call.request)].cache.entries[call.request];
      s'.grants == s.grants + if e.decision.result == SUCCESS
          then {Grant(s.step, call, e.source, check, Some(e))} else {}
  {
    var k := call.request;
    var h, i := s.shards[c.shardOf(k)], c.shardOf(k);
    var e := h.cache.entries[k];
    var g := if e.decision.result == SUCCESS then {Grant(s.step, call, e.source, check, Some(e))} else {};
    if call.clock.now < e.freshUntil || call.clock.now < e.retryAfter {
      ServedLeft(s, t, i, k, s.grants + g, r, s');
    } else {
      RefreshLeft(c, s, t, call, capture, s.grants + g, r, s');
    }
  }

  lemma RefreshLeft(c: Config, s: System, t: nat, call: Call, capture: Capture, grants: set<Grant>, r: Reading,
                    s': System)
    requires Shaped(c, s) && t in s.callers && s.callers[t].call == call && s.grants <= grants
    requires var k := call.request;
      s' == Counted(JoinOrCreate(c, s.(grants := grants), t, call, capture, true,
          Touched(s.shards[c.shardOf(k)].cache, k), r))
    ensures Left(s, s', t, r) && Shrunk(s, s') && s'.grants == grants
  {
    var k, s1 := call.request, s.(grants := grants);
    var cache := Touched(s.shards[c.shardOf(k)].cache, k);
    JoinOrCreateLeft(c, s1, t, call, capture, true, cache, r, s');
    JoinOrCreateShards(c, s1, t, call, capture, true, cache, r, s');
    LookupShrinks(s, s', c.shardOf(k), k, cache);
  }

  lemma ServedLeft(s: System, t: nat, i: nat, k: Request, grants: set<Grant>, r: Reading, s': System)
    requires i < |s.shards| && s.grants <= grants
    requires var h := s.shards[i];
      s' == Counted(Return(WithShard(s.(grants := grants), i, h.(cache := Touched(h.cache, k), owner := None)), t))
    ensures Left(s, s', t, r) && Shrunk(s, s')
  {
  }

  /** What the first load of a lookup looks for. */
  predicate InTime(s: System, cache: Lru<Request, Entry>, call: Call) {
    && call.request in cache.entries
    && call.clock.now < cache.entries[call.request].expires && cache.entries[call.request].epoch == s.epoch
  }

  /** A step of the lookup region other than handing the job over. */
  lemma LookupShape(c: Config, s: System, a: Action, s': System)
    requires Shaped(c, s) && OfLookup(a) && LookupMay(c, s, a) && !a.Submit? && s' == Counted(LookupEffect(c, s, a))
    ensures Left(s, s', a.t, Glance(s, a)) && Shrunk(s, s') && s.grants <= s'.grants
    ensures forall g :: g in s'.grants && g !in s.grants ==>
      && a.LookupScope? && s.callers[a.t].InLookup?
      && var p := s.callers[a.t]; var e := s.shards[c.shardOf(p.call.request)].cache.entries[p.call.request];
         g == Grant(s.step, p.call, e.source, p.check, Some(e)) && e.decision.result == SUCCESS
  {
    var p, r := s.callers[a.t], Glance(s, a);
    var k := p.call.request;
    var h := s.shards[c.shardOf(k)];
    if a.LookupScope? && h.cache.entries[k].scopeEpoch == s.scopes[Scope(c, k)] {
      HitLeft(c, s, a.t, p.call, p.capture, p.check, r, s');
    } else if a.LookupScope? || (a.LookupEnter? && !InTime(s, h.cache, p.call)) {
      JoinOrCreateLeft(c, s, a.t, p.call, p.capture, false, Dropped(h.cache, k), r, s');
      JoinOrCreateShards(c, s, a.t, p.call, p.capture, false, Dropped(h.cache, k), r, s');
      LookupShrinks(s, s', c.shardOf(k), k, Dropped(h.cache, k));
    }
  }

  lemma LeftLater(c: Config, s: System, s': System, t: nat, r: Reading)
    requires Left(s, s', t, r) && s.grants <= s'.grants
    ensures Later(s, s')
  {
    assert forall j :: 0 <= j < |s.jobs| ==> s'.jobs[j] == s'.jobs[..|s.jobs|][j];
  }

  lemma LeftTimes(c: Config, s: System, s': System, t: nat, r: Reading)
    requires Times(c, s) && Left(s, s', t, r) && Shrunk(s, s') && Later(s, s') && t in s.callers
    requires r.at == s.step && r.now == s.now
    requires t in s'.callers ==> !s'.callers[t].Fencing? && !s'.callers[t].Fenced?
    requires forall g :: g in s'.grants ==> g in s.grants || GrantTimes(c, s', g)
    ensures Times(c, s')
  {
    assert forall j :: 0 <= j < |s.jobs| ==> s'.jobs[j] == s'.jobs[..|s.jobs|][j];
    CallLater(c, s, s', s.callers[t]);
    TimesKept(c, s, s');
  }

  lemma LookupTimesStep(c: Config, s: System, a: Action)
    requires Inv(c, s) && Times(c, s) && OfLookup(a) && LookupMay(c, s, a) && !a.Submit?
    ensures Later(s, Counted(LookupEffect(c, s, a))) && Times(c, Counted(LookupEffect(c, s, a)))
  {
    var s' := Counted(LookupEffect(c, s, a));
    LookupShape(c, s, a, s');
    LeftLater(c, s, s', a.t, Glance(s, a));
    HitGrantTimes(c, s, s', a.t);
    LeftTimes(c, s, s', a.t, Glance(s, a));
  }

  lemma HitGrantTimes(c: Config, s: System, s': System, t: nat)
    requires Inv(c, s) && Times(c, s) && Later(s, s') && t in s.callers
    ensures s.callers[t].InLookup? ==>
      var p := s.callers[t];
      var entries := s.shards[c.shardOf(p.call.request)].cache.entries;
      p.call.request in entries &&
      GrantTimes(c, s', Grant(s.step, p.call, entries[p.call.request].source, p.check, Some(entries[p.call.request])))
  {
    CallLater(c, s, s', s.callers[t]);
    if s.callers[t].InLookup? {
      assert CallerOk(c, s, t);
      var k := s.callers[t].call.request;
      var e := s.shards[c.shardOf(k)].cache.entries[k];
      LeaseLater(c, s, s', e.source, e, e);
    }
  }

  /** A caller goes on with its call, without a check in hand. */
  predicate Resumed(s: System, s': System, u: nat)
    requires u in s.callers && u in s'.callers
  {
    s'.callers[u].call == s.callers[u].call && !s'.callers[u].Fencing? && !s'.callers[u].Fenced?
  }

  /** One job's phase changed, with callers, queue and workers; caches and grants did not. */
  ghost predicate Moved(s: System, s': System, j: nat) {
    && j < |s.jobs| == |s'.jobs| && !s.jobs[j].phase.Finished?
    && s' == s.(step := s.step + 1, jobs := s.jobs[j := s.jobs[j].(phase := s'.jobs[j].phase)], callers := s'.callers,
                queue := s'.queue, workers := s'.workers, shards := s'.shards)
    && Shrunk(s, s')
    && (forall u :: u in s'.callers ==> u in s.callers && (s'.callers[u] == s.callers[u] || Resumed(s, s', u)))
  }

  lemma MovedTimes(c: Config, s: System, s': System, j: nat)
    requires Times(c, s) && Moved(s, s', j)
    requires var p := s'.jobs[j].phase;
      && ValueOk(c, p) && (p.Locked? ==> StageOk(c, s', s'.jobs[j], j, p.value, p.stage)) && (p.Finished? ==>
          p.at < s'.step)
    ensures Later(s, s') && Times(c, s')
  {
    assert JobTimes(c, s, j);
    forall u | u in s'.callers
        ensures (u in s.callers && s'.callers[u] == s.callers[u]) || CallTimes(c, s', s'.callers[u]) {
      CallLater(c, s, s', s.callers[u]);
    }
    TimesKept(c, s, s');
  }

  lemma SubmitTimesStep(c: Config, s: System, t: nat, accepted: bool)
    requires Inv(c, s) && Times(c, s) && LookupMay(c, s, Submit(t, accepted))
    ensures Later(s, Counted(LookupEffect(c, s, Submit(t, accepted))))
    ensures Times(c, Counted(LookupEffect(c, s, Submit(t, accepted))))
  {
    assert CallerOk(c, s, t);
    SubmitMoves(c, s, t, accepted, s.callers[t].job);
    MovedTimes(c, s, Counted(LookupEffect(c, s, Submit(t, accepted))), s.callers[t].job);
  }

  lemma SubmitMoves(c: Config, s: System, t: nat, accepted: bool, j: nat)
    requires Shaped(c, s) && LookupMay(c, s, Submit(t, accepted)) && j == s.callers[t].job && !s.jobs[j].phase.Finished?
    ensures var s' := Counted(LookupEffect(c, s, Submit(t, accepted)));
      Moved(s, s', j) && (s'.jobs[j].phase == Queued || s'.jobs[j].phase == Completing(ByCaller(t), NO_DECISION))
  {
  }

  lemma AnyLookupTimesStep(c: Config, s: System, a: Action)
    requires Inv(c, s) && Times(c, s) && OfLookup(a) && LookupMay(c, s, a)
    ensures Later(s, Counted(LookupEffect(c, s, a))) && Times(c, Counted(LookupEffect(c, s, a)))
  {
    if a.Submit? { SubmitTimesStep(c, s, a.t, a.accepted); } else { LookupTimesStep(c, s, a); }
  }

  lemma TakeTimesStep(c: Config, s: System, w: nat)
    requires Inv(c, s) && Times(c, s) && JobMay(c, s, Take(w))
    ensures Later(s, Counted(JobEffect(c, s, Take(w)))) && Times(c, Counted(JobEffect(c, s, Take(w))))
  {
    assert s.queue[0] in s.queue;
    MovedTimes(c, s, Counted(JobEffect(c, s, Take(w))), s.queue[0]);
  }

  lemma AnswerTimesStep(c: Config, s: System, a: Action)
    requires Inv(c, s) && Times(c, s) && a.Answer? && JobMay(c, s, a)
    ensures Later(s, Counted(JobEffect(c, s, a))) && Times(c, Counted(JobEffect(c, s, a)))
  {
    MovedTimes(c, s, Counted(JobEffect(c, s, a)), a.job);
  }

  lemma PublishTimesStep(c: Config, s: System, j: nat)
    requires Inv(c, s) && Times(c, s) && JobMay(c, s, Publish(j))
    ensures Later(s, Counted(JobEffect(c, s, Publish(j)))) && Times(c, Counted(JobEffect(c, s, Publish(j))))
  {
    assert JobTimes(c, s, j);
    PublishMoves(c, s, j);
    MovedTimes(c, s, Counted(JobEffect(c, s, Publish(j))), j);
  }

  lemma PublishMoves(c: Config, s: System, j: nat)
    requires Shaped(c, s) && JobMay(c, s, Publish(j))
    ensures var s' := Counted(JobEffect(c, s, Publish(j)));
      Moved(s, s', j) && s'.jobs[j].phase == Finished(s.jobs[j].phase.value, s.step)
  {
    var s' := Counted(JobEffect(c, s, Publish(j)));
    PublishShape(c, s, j, s');
  }

  lemma PublishShape(c: Config, s: System, j: nat, s': System)
    requires Shaped(c, s) && JobMay(c, s, Publish(j)) && s' == Counted(JobEffect(c, s, Publish(j)))
    ensures s' == s.(step := s.step + 1,
        jobs := s.jobs[j := s.jobs[j].(phase := Finished(s.jobs[j].phase.value, s.step))],
                     callers := s'.callers, workers := s'.workers)
    ensures forall u :: u in s'.callers ==> u in s.callers && (s'.callers[u] == s.callers[u] || Resumed(s, s', u))
  {
  }

  lemma CompleteEnterTimesStep(c: Config, s: System, j: nat)
    requires Inv(c, s) && Times(c, s) && JobMay(c, s, CompleteEnter(j))
    ensures Later(s, Counted(JobEffect(c, s, CompleteEnter(j)))) && Times(c, Counted(JobEffect(c, s, CompleteEnter(j))))
  {
    var s' := Counted(JobEffect(c, s, CompleteEnter(j)));
    assert JobOk(c, s, j) && JobTimes(c, s, j);
    CompleteEnterMoves(c, s, j, s');
    MovedTimes(c, s, s', j);
  }

  lemma CompleteEnterMoves(c: Config, s: System, j: nat, s': System)
    requires Shaped(c, s) && JobMay(c, s, CompleteEnter(j)) && s' == Counted(JobEffect(c, s, CompleteEnter(j)))
    ensures Moved(s, s', j)
    ensures
      || (s'.jobs[j].phase.Publishing? && s'.jobs[j].phase.value in {s.jobs[j].phase.value, NO_DECISION})
      || (s'.jobs[j].phase.Locked? && s'.jobs[j].phase.value == s.jobs[j].phase.value
          && s'.jobs[j].phase.stage == PassedEpoch(s.step) && s.jobs[j].capture.epoch == s.epoch)
  {
  }

  lemma JobTimesStep(c: Config, s: System, a: Action)
    requires Inv(c, s) && Times(c, s) && OfJob(a) && JobMay(c, s, a)
    ensures Later(s, Counted(JobEffect(c, s, a))) && Times(c, Counted(JobEffect(c, s, a)))
  {
    match a
    case Take(w) => TakeTimesStep(c, s, w);
    case Answer(_, _) => AnswerTimesStep(c, s, a);
    case CompleteEnter(j) => CompleteEnterTimesStep(c, s, j);
    case Publish(j) => PublishTimesStep(c, s, j);
  }

  /** A step of the callback, as `CallbackShape` describes it. */
  lemma CallbackLater(c: Config, s: System, a: Action, s': System)
    requires Inv(c, s) && OfCallback(a) && CallbackMay(c, s, a) && s' == Counted(CallbackEffect(c, s, a))
    ensures Later(s, s') && |s'.shards| == |s.shards| && s'.callers == s.callers && s'.grants == s.grants
    ensures |s'.jobs| == |s.jobs| && forall j :: 0 <= j < |s.jobs| && j != a.job ==> s'.jobs[j] == s.jobs[j]
    ensures var i := c.shardOf(s.jobs[a.job].request);
      && s'.shards[i].cache == CallbackCache(c, s, a)
      && forall x :: 0 <= x < |s.shards| && x != i ==> s'.shards[x] == s.shards[x]
  {
    assert JobOk(c, s, a.job);
    CallbackShape(c, s, a, c.shardOf(s.jobs[a.job].request));
  }

  lemma CallbackJob(c: Config, s: System, a: Action, s': System)
    requires Shaped(c, s) && OfCallback(a) && CallbackMay(c, s, a) && s' == Counted(CallbackEffect(c, s, a))
    requires Later(s, s')
    requires JobTimes(c, s, a.job) && CaptureOk(c, s, s.jobs[a.job].request, s.jobs[a.job].capture)
    ensures a.job < |s'.jobs| && JobTimes(c, s', a.job)
  {
    StageLater(c, s, s', a.job, s.jobs[a.job].phase.value, s.jobs[a.job].phase.stage);
  }

  /** The lease a completion stores is good in the state after the step. */
  lemma NewLease(c: Config, s: System, j: nat, s': System)
    requires Shaped(c, s) && CallbackMay(c, s, Insert(j)) && s' == Counted(CallbackEffect(c, s, Insert(j)))
    requires Later(s, s')
    requires JobTimes(c, s, j)
    ensures var job := s.jobs[j]; var g := job.phase.stage;
      var e := Lease(c, job, j, job.phase.value, g.trail, g.wall, Glance(s, Insert(j)));
      e.decision.freshMs != 0 && e.mono.now < e.expires ==> LeaseOk(c, s', j, e)
  {
    TrailLater(c, s, s', j, s.jobs[j].phase.value, s.jobs[j].phase.stage.trail);
  }

  /** What the callback leaves in its shard's cache: old leases, and the new one. */
  lemma CallbackCached(c: Config, s: System, a: Action, k: Request)
    requires Shaped(c, s) && OfCallback(a) && CallbackMay(c, s, a) && k in CallbackCache(c, s, a).entries
    requires Consistent(s.shards[c.shardOf(s.jobs[a.job].request)].cache)
    ensures var job := s.jobs[a.job];
      var entries, e := s.shards[c.shardOf(job.request)].cache.entries, CallbackCache(c, s, a).entries[k];
      || (k in entries && SameLease(entries[k], e))
      || (a.Insert? && k == job.request && e.decision.freshMs != 0 && e.mono.now < e.expires
          && e == Lease(c, job, a.job, job.phase.value, job.phase.stage.trail, job.phase.stage.wall, Glance(s, a)))
  {
    if a.Insert? {
      var job := s.jobs[a.job];
      var cache := s.shards[c.shardOf(job.request)].cache;
      var e := Lease(c, job, a.job, job.phase.value, job.phase.stage.trail, job.phase.stage.wall, Glance(s, a));
      StoredConsistent(cache, job.request, e, c.capacity / SHARDS);
    }
  }

  lemma CallbackTimesStep(c: Config, s: System, a: Action)
    requires Inv(c, s) && Times(c, s) && OfCallback(a) && CallbackMay(c, s, a)
    ensures Later(s, Counted(CallbackEffect(c, s, a))) && Times(c, Counted(CallbackEffect(c, s, a)))
  {
    var s' := Counted(CallbackEffect(c, s, a));
    CallbackLater(c, s, a, s');
    assert JobOk(c, s, a.job) && JobTimes(c, s, a.job);
    CallbackJob(c, s, a, s');
    CallbackLeases(c, s, a, s');
    TimesKept(c, s, s');
  }

  lemma CallbackLeases(c: Config, s: System, a: Action, s': System)
    requires Inv(c, s) && Times(c, s) && OfCallback(a) && CallbackMay(c, s, a) && s' == Counted(CallbackEffect(c, s, a))
    requires Later(s, s')
    requires JobTimes(c, s, a.job) && |s'.shards| == |s.shards|
    requires var i := c.shardOf(s.jobs[a.job].request);
      && s'.shards[i].cache == CallbackCache(c, s, a)
      && forall x :: 0 <= x < |s.shards| && x != i ==> s'.shards[x] == s.shards[x]
    ensures forall i, k {:trigger s'.shards[i].cache.entries[k]} ::
        0 <= i < |s.shards| && k in s'.shards[i].cache.entries ==>
      || (k in s.shards[i].cache.entries && SameLease(s.shards[i].cache.entries[k], s'.shards[i].cache.entries[k]))
      || LeaseOk(c, s', s'.shards[i].cache.entries[k].source, s'.shards[i].cache.entries[k])
  {
    var h := c.shardOf(s.jobs[a.job].request);
    assert ShardOk(c, s, h);
    if a.Insert? { NewLease(c, s, a.job, s'); }
    forall i, k {:trigger s'.shards[i].cache.entries[k]} | 0 <= i < |s.shards| && k in s'.shards[i].cache.entries
      ensures || (k in s.shards[i].cache.entries && SameLease(s.shards[i].cache.entries[k],
          s'.shards[i].cache.entries[k]))
              || LeaseOk(c, s', s'.shards[i].cache.entries[k].source, s'.shards[i].cache.entries[k])
    {
      if i == h { CallbackCached(c, s, a, k); }
    }
  }

  lemma WorldTimesStep(c: Config, s: System, a: Action)
    requires Inv(c, s) && Times(c, s) && OfWorld(a) && WorldMay(c, s, a)
    ensures Later(s, Counted(WorldEffect(c, s, a))) && Times(c, Counted(WorldEffect(c, s, a)))
  {
    var s' := Counted(WorldEffect(c, s, a));
    assert Later(s, s');
    assert Shrunk(s, s');
    TimesKept(c, s, s');
  }

  /** Every step keeps the readings in order, and forgets nothing. */
  lemma StepTimes(c: Config, s: System, a: Action)
    requires Inv(c, s) && Times(c, s) && Enabled(c, s, a)
    ensures Later(s, Next(c, s, a)) && Times(c, Next(c, s, a))
  {
    if OfCall(a) { CallTimesStep(c, s, a); }
    else if OfLookup(a) { AnyLookupTimesStep(c, s, a); }
    else if OfJob(a) { JobTimesStep(c, s, a); }
    else if OfCallback(a) { CallbackTimesStep(c, s, a); }
    else { WorldTimesStep(c, s, a); }
  }
}
