/** Where the provider's leases come from, what moves them, and how long they serve. */
module RemoteAuthLeases {
  import opened AuthDecision
  import opened LeaseCache
  import opened Basics
  import opened RemoteAuth
  import opened RemoteAuthAnswers
  import opened RemoteAuthRuns
  import opened RemoteAuthSteps
  import opened RemoteAuthTheorems
  import opened RemoteAuthTimes
  import opened Wrappers

  predicate Cached(s: System, i: nat, k: Request) { i < |s.shards| && k in s.shards[i].cache.entries }

  /** The lease that step n of the run stored, by the completion of the lease's own job, up to the
      time of its next refresh. */
  ghost predicate WasStored(c: Config, run: seq<System>, acts: seq<Action>, e: Entry) {
    var n, j := e.mono.at, e.source;
    && n < |acts| < |run| && acts[n] == Insert(j)
    && InCallback(run[n], j) && run[n].jobs[j].phase.stage.KnowsWall?
    && (var job := run[n].jobs[j]; var g := job.phase.stage;
        SameLease(Lease(c, job, j, job.phase.value, g.trail, g.wall, Glance(run[n], Insert(j))), e))
    && e.decision.freshMs != 0 && e.mono.now < e.expires
  }

  /** What a step may leave cached under a key: the lease that was there, or the one it stores. */
  lemma StepLeases(c: Config, s: System, a: Action, s': System, i: nat, k: Request)
    requires Inv(c, s) && IsStep(c, s, a, s') && |s'.shards| == SHARDS && i < SHARDS && k in s'.shards[i].cache.entries
    ensures var e := s'.shards[i].cache.entries[k];
      || (k in s.shards[i].cache.entries && SameLease(s.shards[i].cache.entries[k], e))
      || (&& a.Insert? && s.jobs[a.job].request == k && e.decision.freshMs != 0 && e.mono.now < e.expires
          && var job := s.jobs[a.job];
             e == Lease(c, job, a.job, job.phase.value, job.phase.stage.trail, job.phase.stage.wall, Glance(s, a)))
  {
    if OfCall(a) { CallShape(c, s, a, s'); }
    else if OfLookup(a) && !a.Submit? { LookupShape(c, s, a, s'); }
    else if OfCallback(a) { CallbackLeasesStep(c, s, a, s', i, k); }
    else { OthersShrink(c, s, a, s'); }
  }

  lemma CallbackLeasesStep(c: Config, s: System, a: Action, s': System, i: nat, k: Request)
    requires Inv(c, s) && OfCallback(a) && CallbackMay(c, s, a) && s' == Counted(CallbackEffect(c, s, a))
    requires |s'.shards| == SHARDS && i < SHARDS && k in s'.shards[i].cache.entries
    ensures var e := s'.shards[i].cache.entries[k];
      || (k in s.shards[i].cache.entries && SameLease(s.shards[i].cache.entries[k], e))
      || (&& a.Insert? && s.jobs[a.job].request == k && e.decision.freshMs != 0 && e.mono.now < e.expires
          && var job := s.jobs[a.job];
             e == Lease(c, job, a.job, job.phase.value, job.phase.stage.trail, job.phase.stage.wall, Glance(s, a)))
  {
    var h := c.shardOf(s.jobs[a.job].request);
    assert JobOk(c, s, a.job) && ShardOk(c, s, h);
    CallbackShape(c, s, a, h);
    if i == h { CallbackCached(c, s, a, k); }
  }

  lemma OthersShrink(c: Config, s: System, a: Action, s': System)
    requires IsStep(c, s, a, s') && !OfCall(a) && (OfLookup(a) ==> a.Submit?) && !OfCallback(a)
    ensures Shrunk(s, s')
  {
    if OfJob(a) || a.Submit? { JobsLeaveCaches(c, s, a, s'); }
  }

  lemma JobsLeaveCaches(c: Config, s: System, a: Action, s': System)
    requires IsStep(c, s, a, s') && (OfJob(a) || a.Submit?)
    ensures |s'.shards| == |s.shards| && forall i :: 0 <= i < |s.shards| ==> s'.shards[i].cache == s.shards[i].cache
  {
    if !a.CompleteEnter? { JobsLeaveShards(c, s, a); }
  }

  lemma JobsLeaveShards(c: Config, s: System, a: Action)
    requires Shaped(c, s) && Enabled(c, s, a) && (a.Take? || a.Answer? || a.Publish? || a.Submit?)
    ensures Next(c, s, a).shards == s.shards
  {
  }

  ghost predicate LeasesStored(c: Config, run: seq<System>, acts: seq<Action>, n: nat)
    requires n < |run|
  {
    && (forall i, k {:trigger run[n].shards[i].cache.entries[k]} ::
          0 <= i < |run[n].shards| && k in run[n].shards[i].cache.entries ==>
            WasStored(c, run, acts, run[n].shards[i].cache.entries[k]))
    && (forall g :: g in run[n].grants && g.lease.Some? ==> WasStored(c, run, acts, g.lease.value))
  }

  lemma LeasesNext(c: Config, run: seq<System>, acts: seq<Action>, n: nat)
    requires IsRun(c, run, acts) && n < |acts| && LeasesStored(c, run, acts, n)
    ensures LeasesStored(c, run, acts, n + 1)
  {
    RunStructure(c, run, acts, n);
    StatesAreNumbered(c, run, acts, n + 1);
    var s, s', a := run[n], run[n + 1], acts[n];
    forall i, k {:trigger s'.shards[i].cache.entries[k]} | 0 <= i < |s'.shards| && k in s'.shards[i].cache.entries
      ensures WasStored(c, run, acts, s'.shards[i].cache.entries[k])
    {
      StepLeases(c, s, a, s', i, k);
    }
    forall g | g in s'.grants && g.lease.Some? ensures WasStored(c, run, acts, g.lease.value) {
      if g !in s.grants { StepGrants(c, s, a, g); }
    }
  }

  lemma {:induction false} AllStored(c: Config, run: seq<System>, acts: seq<Action>, n: nat)
    requires IsRun(c, run, acts) && n < |run|
    ensures LeasesStored(c, run, acts, n)
  {
    if n > 0 {
      AllStored(c, run, acts, n - 1);
      LeasesNext(c, run, acts, n - 1);
    }
  }

  /** The service answered the lease's job, before the lease was stored, with what its decision says. */
  ghost predicate AnswerBehind(c: Config, run: seq<System>, acts: seq<Action>, e: Entry) {
    exists m :: 0 <= m < e.mono.at && CarriedFrom(c, run, acts, m, e.source, e.decision)
  }

  /** What stands behind a lease: the completion of its own job stored it, from an intelligible answer
      of the service to that job, whose word, expiry and revision it carries; the answer was fresh and
      had time to run; both counters the job had captured were still current when that completion
      looked; the answer named the policy revision it then found; and the lease is fresh up to the
      freshness it was granted or its end, whichever is first. */
  ghost predicate Earned(c: Config, run: seq<System>, acts: seq<Action>, s: System, k: Request, e: Entry) {
    && e.source < |s.jobs|
    && var job, x := s.jobs[e.source], e.trail.revision.at;
    && WasStored(c, run, acts, e) && job.request == k && e.decision.authoritative
    && AnswerBehind(c, run, acts, e)
    && e.freshUntil == Min(job.started.now + e.decision.freshMs, e.expires)
    && e.epoch == job.capture.epoch && e.scopeEpoch == job.capture.scopeEpoch
    && NoneBetween(acts, None, job.capture.epochAt, e.trail.epochAt)
    && NoneBetween(acts, Some(c.scopeOf(k.username)), job.capture.scopeAt, e.trail.scopeAt)
    && x < |acts| && acts[x] == CompleteRevision(e.source) && MayKeep(c, e.decision, run[x].revision)
  }

  lemma TrailStands(c: Config, run: seq<System>, acts: seq<Action>, n: nat, k: Request, e: Entry)
    requires IsRun(c, run, acts) && n < |run| && LeaseOk(c, run[n], e.source, e) && EntryOk(c, run[n], k, e)
    requires WasStored(c, run, acts, e) && e.mono.at < n
    ensures Earned(c, run, acts, run[n], k, e)
  {
    StoredAnswer(c, run, acts, e);
    StoredFresh(c, run, acts, n, e);
    FenceStood(c, run, acts, n, run[n].jobs[e.source], e.source, e.decision, e.trail);
    RevisionStood(c, run, acts, n, run[n].jobs[e.source], e.source, e.decision, e.trail);
  }

  lemma FenceStood(c: Config, run: seq<System>, acts: seq<Action>, n: nat, job: Job, j: nat, v: Decision, trail: Trail)
    requires IsRun(c, run, acts) && n < |run| && TrailOk(c, run[n], job, j, v, trail)
    ensures NoneBetween(acts, None, job.capture.epochAt, trail.epochAt)
    ensures NoneBetween(acts, Some(Scope(c, job.request)), job.capture.scopeAt, trail.scopeAt)
  {
    StatesAreNumbered(c, run, acts, n);
    ClearMeansNone(c, run, acts, n, None, job.capture.epochAt, trail.epochAt);
    ClearMeansNone(c, run, acts, n, Some(Scope(c, job.request)), job.capture.scopeAt, trail.scopeAt);
  }

  lemma RevisionStood(c: Config, run: seq<System>, acts: seq<Action>, n: nat, job: Job, j: nat, v: Decision,
                      trail: Trail)
    requires IsRun(c, run, acts) && n < |run| && TrailOk(c, run[n], job, j, v, trail)
    ensures trail.revision.at < |acts| && acts[trail.revision.at] == CompleteRevision(j)
    ensures MayKeep(c, v, run[trail.revision.at].revision)
  {
    ReadingsAreSteps(c, run, acts, n, trail.revision);
    FitsIsKeep(c, v, trail.revision.revision);
  }

  lemma FitsIsKeep(c: Config, d: Decision, revision: string)
    ensures RevisionFits(c, d, revision) <==> MayKeep(c, d, revision)
  {
  }

  lemma StoredAnswer(c: Config, run: seq<System>, acts: seq<Action>, e: Entry)
    requires IsRun(c, run, acts) && WasStored(c, run, acts, e) && e.decision.authoritative
    ensures AnswerBehind(c, run, acts, e)
  {
    var m := DecisionsAreCarried(c, run, acts, e.mono.at, e.source);
  }

  lemma StoredFresh(c: Config, run: seq<System>, acts: seq<Action>, n: nat, e: Entry)
    requires IsRun(c, run, acts) && n < |run| && WasStored(c, run, acts, e) && e.mono.at < n
    ensures e.source < |run[n].jobs|
    ensures e.freshUntil == Min(run[n].jobs[e.source].started.now + e.decision.freshMs, e.expires)
  {
    RunLater(c, run, acts, e.mono.at, n);
    FreshUpTo(c, run[e.mono.at], run[n], e);
  }

  lemma FreshUpTo(c: Config, s: System, s': System, e: Entry)
    requires Later(s, s') && InCallback(s, e.source) && s.jobs[e.source].phase.stage.KnowsWall?
    requires var job := s.jobs[e.source]; var g := job.phase.stage;
      SameLease(Lease(c, job, e.source, job.phase.value, g.trail, g.wall, Glance(s, Insert(e.source))), e)
    ensures e.source < |s'.jobs|
    ensures e.freshUntil == Min(s'.jobs[e.source].started.now + e.decision.freshMs, e.expires)
  {
  }

  /** Every lease in every cache, at every moment, was earned. */
  lemma LeaseProvenance(c: Config, run: seq<System>, acts: seq<Action>, n: nat, i: nat, k: Request)
    requires IsRun(c, run, acts) && n < |run| && Cached(run[n], i, k)
    ensures i == c.shardOf(k) && Earned(c, run, acts, run[n], k, run[n].shards[i].cache.entries[k])
  {
    RunInvariant(c, run, acts, n);
    AllStored(c, run, acts, n);
    assert ShardOk(c, run[n], i);
    assert LeaseOk(c, run[n], run[n].shards[i].cache.entries[k].source, run[n].shards[i].cache.entries[k]);
    TrailStands(c, run, acts, n, k, run[n].shards[i].cache.entries[k]);
  }

  /** What storing job j's answer v, which ends at `expires`, must leave of a cache: an answer that is fresh
      and has time left is cached until its end, and fresh up to its freshness or that end; any other
      leaves the cache alone. */
  predicate LeasedRightly(job: Job, j: nat, v: Decision, now: nat, expires: nat, was: Lru<Request, Entry>,
                          cache: Lru<Request, Entry>) {
    var k := job.request;
    if v.freshMs != 0 && now < expires
    then && k in cache.entries && cache.entries[k].decision == v && cache.entries[k].source == j
         && cache.entries[k].expires == expires && cache.entries[k].retryAfter == 0
         && cache.entries[k].freshUntil == Min(job.started.now + v.freshMs, expires)
    else cache == was
  }

  lemma InsertedRightly(c: Config, job: Job, j: nat, lease: Entry, was: Lru<Request, Entry>)
    requires ConfigOk(c) && Consistent(was) && lease.source == j && lease.retryAfter == 0
    requires lease.freshUntil == Min(job.started.now + lease.decision.freshMs, lease.expires)
    ensures LeasedRightly(job, j, lease.decision, lease.mono.now, lease.expires, was,
        Inserted(c, was, job.request, lease))
  {
    StoredConsistent(was, job.request, lease, c.capacity / SHARDS);
  }

  /** The wall clock was read by this completion, at an earlier step. */
  ghost predicate WallRead(run: seq<System>, acts: seq<Action>, n: nat, j: nat, wall: Reading) {
    wall.at < n <= |acts| < |run| && acts[wall.at] == ReadWall(j) && wall.now == run[wall.at].now
  }

  lemma InsertCache(c: Config, s: System, j: nat, s': System)
    requires IsStep(c, s, Insert(j), s')
    ensures |s'.shards| == |s.shards| && s'.shards[c.shardOf(s.jobs[j].request)].cache == CacheAfterInsert(c, s, j)
  {
  }

  /** The lease job j's completion has earned, and the cache of its shard once that is stored. */
  function LeaseOf(c: Config, s: System, j: nat): Entry
    requires InCallback(s, j) && s.jobs[j].phase.stage.KnowsWall?
  {
    var g := s.jobs[j].phase.stage;
    Lease(c, s.jobs[j], j, s.jobs[j].phase.value, g.trail, g.wall, Glance(s, Insert(j)))
  }

  function CacheAfterInsert(c: Config, s: System, j: nat): Lru<Request, Entry>
    requires Shaped(c, s) && InCallback(s, j) && s.jobs[j].phase.stage.KnowsWall?
  {
    Inserted(c, s.shards[c.shardOf(s.jobs[j].request)].cache, s.jobs[j].request, LeaseOf(c, s, j))
  }

  lemma WallWasRead(c: Config, run: seq<System>, acts: seq<Action>, n: nat, j: nat)
    requires IsRun(c, run, acts) && n < |run| && InCallback(run[n], j) && run[n].jobs[j].phase.stage.KnowsWall?
    ensures WallRead(run, acts, n, j, run[n].jobs[j].phase.stage.wall) && Shaped(c, run[n])
    ensures Consistent(run[n].shards[c.shardOf(run[n].jobs[j].request)].cache)
  {
    RunInvariant(c, run, acts, n);
    assert ShardOk(c, run[n], c.shardOf(run[n].jobs[j].request)) && JobTimes(c, run[n], j);
    ReadingsAreSteps(c, run, acts, n, run[n].jobs[j].phase.stage.wall);
  }

  /** The step that ends a completion leases its answer as it must, until the least of its ends, by the wall
      clock the completion read and the monotonic clock of the step. */
  lemma InsertStores(c: Config, run: seq<System>, acts: seq<Action>, n: nat, j: nat) returns (expires: nat)
    requires IsRun(c, run, acts) && n < |acts| && acts[n] == Insert(j)
    ensures Shaped(c, run[n]) && InCallback(run[n], j) && run[n].jobs[j].phase.stage.KnowsWall?
    ensures |run[n].shards| == |run[n + 1].shards|
    ensures var job := run[n].jobs[j]; var i, wall := c.shardOf(job.request), job.phase.stage.wall;
      && WallRead(run, acts, n, j, wall)
      && IsLeast(expires, Ends(job.started.now, job.phase.value, job.session, run[n].now, wall.now + c.offset))
      && LeasedRightly(job, j, job.phase.value, run[n].now, expires, run[n].shards[i].cache, run[n + 1].shards[i].cache)
  {
    InsertIsStep(c, run, acts, n, j);
    WallWasRead(c, run, acts, n, j);
    expires := LeaseOf(c, run[n], j).expires;
    InsertLeases(c, run[n], j);
  }

  lemma InsertIsStep(c: Config, run: seq<System>, acts: seq<Action>, n: nat, j: nat)
    requires IsRun(c, run, acts) && n < |acts| && acts[n] == Insert(j)
    ensures Shaped(c, run[n]) && InCallback(run[n], j) && run[n].jobs[j].phase.stage.KnowsWall?
    ensures |run[n].shards| == |run[n + 1].shards|
    ensures run[n + 1].shards[c.shardOf(run[n].jobs[j].request)].cache == CacheAfterInsert(c, run[n], j)
  {
    InsertCache(c, run[n], j, run[n + 1]);
  }

  /** A stored lease is its shard's latest used, and takes the place of others only past the shard's share. */
  lemma LeaseTakesRoom(c: Config, was: Lru<Request, Entry>, k: Request, lease: Entry)
    requires ConfigOk(c) && Consistent(was) && lease.decision.freshMs != 0 && lease.mono.now < lease.expires
    ensures var cache := Inserted(c, was, k, lease);
      && Consistent(cache) && cache.order != [] && cache.order[0] == k
      && |cache.entries| == Min(|(was.entries - {k}).Keys| + 1, c.capacity / SHARDS)
  {
    StoredConsistent(was, k, lease, c.capacity / SHARDS);
  }

  lemma InsertLeases(c: Config, s: System, j: nat)
    requires Shaped(c, s) && InCallback(s, j) && s.jobs[j].phase.stage.KnowsWall?
    requires Consistent(s.shards[c.shardOf(s.jobs[j].request)].cache)
    ensures var job, e := s.jobs[j], LeaseOf(c, s, j);
      && IsLeast(e.expires, Ends(job.started.now, job.phase.value, job.session, s.now,
                                 job.phase.stage.wall.now + c.offset))
      && LeasedRightly(job, j, job.phase.value, s.now, e.expires, s.shards[c.shardOf(job.request)].cache,
                       CacheAfterInsert(c, s, j))
  {
    var job := s.jobs[j];
    LeaseEnds(c, s, j);
    InsertedRightly(c, job, j, LeaseOf(c, s, j), s.shards[c.shardOf(job.request)].cache);
  }

  lemma LeaseEnds(c: Config, s: System, j: nat)
    requires InCallback(s, j) && s.jobs[j].phase.stage.KnowsWall?
    ensures var job, e := s.jobs[j], LeaseOf(c, s, j);
      && e.decision == job.phase.value && e.mono.now == s.now && e.source == j && e.retryAfter == 0
      && e.freshUntil == Min(job.started.now + e.decision.freshMs, e.expires)
      && IsLeast(e.expires, Ends(job.started.now, job.phase.value, job.session, s.now,
                                 job.phase.stage.wall.now + c.offset))
  {
    var job := s.jobs[j];
    ExpiryIsLeast(job.started.now, job.phase.value, job.session, s.now, job.phase.stage.wall.now + c.offset);
  }

  lemma StepHistory(c: Config, run: seq<System>, acts: seq<Action>, n: nat, i: nat, k: Request)
    requires IsRun(c, run, acts) && n < |acts| && Cached(run[n + 1], i, k)
    ensures var e := run[n + 1].shards[i].cache.entries[k];
      if e.mono.at < n
      then Cached(run[n], i, k) && SameLease(run[n].shards[i].cache.entries[k], e)
      else e.mono.at == n
  {
    RunStructure(c, run, acts, n);
    StoredBefore(c, run, acts, n + 1, i, k);
    StepLeases(c, run[n], acts[n], run[n + 1], i, k);
  }

  lemma StoredBefore(c: Config, run: seq<System>, acts: seq<Action>, n: nat, i: nat, k: Request)
    requires IsRun(c, run, acts) && n < |run| && Cached(run[n], i, k)
    ensures run[n].shards[i].cache.entries[k].mono.at < n && |run[n].shards| == SHARDS
  {
    RunInvariant(c, run, acts, n);
  }

  lemma {:induction false} LeaseKept(c: Config, run: seq<System>, acts: seq<Action>, n: nat, m: nat, i: nat, k: Request)
    requires IsRun(c, run, acts) && n <= m < |run| && Cached(run[m], i, k)
    requires run[m].shards[i].cache.entries[k].mono.at < n
    ensures Cached(run[n], i, k)
    ensures SameLease(run[n].shards[i].cache.entries[k], run[m].shards[i].cache.entries[k])
    decreases m - n
  {
    if n < m {
      StepHistory(c, run, acts, m - 1, i, k);
      LeaseKept(c, run, acts, n, m - 1, i, k);
    }
  }

  /** A failed refresh never moves a lease. Whatever is cached under a key at a moment m was
      cached under it at every earlier moment since it was stored, the same but for the time of
      the next refresh; and the step that stored it was the completion of a job for that key. */
  lemma LeaseHistory(c: Config, run: seq<System>, acts: seq<Action>, n: nat, m: nat, i: nat, k: Request)
    requires IsRun(c, run, acts) && n <= m < |run| && Cached(run[m], i, k)
    ensures var e := run[m].shards[i].cache.entries[k];
      && e.mono.at < m && acts[e.mono.at] == Insert(e.source)
      && e.source < |run[e.mono.at].jobs| && run[e.mono.at].jobs[e.source].request == k
      && (e.mono.at < n ==>
            Cached(run[n], i, k) && SameLease(run[n].shards[i].cache.entries[k], e))
  {
    var e := run[m].shards[i].cache.entries[k];
    StoredForKey(c, run, acts, m, i, k);
    if e.mono.at < n { LeaseKept(c, run, acts, n, m, i, k); }
  }

  lemma StoredForKey(c: Config, run: seq<System>, acts: seq<Action>, m: nat, i: nat, k: Request)
    requires IsRun(c, run, acts) && m < |run| && Cached(run[m], i, k)
    ensures var e := run[m].shards[i].cache.entries[k];
      && e.mono.at < m && acts[e.mono.at] == Insert(e.source)
      && e.source < |run[e.mono.at].jobs| && run[e.mono.at].jobs[e.source].request == k
  {
    var e := run[m].shards[i].cache.entries[k];
    RunInvariant(c, run, acts, m);
    assert LeaseOk(c, run[m], e.source, e);
    LeaseProvenance(c, run, acts, m, i, k);
    RunLater(c, run, acts, e.mono.at, m);
  }

  /** Clearing a shard leaves nothing leased in it. */
  lemma ClearEmpties(c: Config, s: System, i: nat, s': System)
    requires IsStep(c, s, ClearShard(i), s')
    ensures |s'.shards| == |s.shards| && s'.shards[i].cache == Lru(map[], [])
    ensures s'.shards[i].pending == s.shards[i].pending
    ensures forall x :: 0 <= x < |s.shards| && x != i ==> s'.shards[x] == s.shards[x]
  {
  }

  /** A failed completion delays the next refresh of its key's lease, and moves nothing else. */
  lemma PostponeDelays(c: Config, s: System, j: nat, s': System)
    requires IsStep(c, s, Postpone(j), s')
    ensures |s'.shards| == |s.shards|
    ensures forall i :: 0 <= i < |s.shards| && i != c.shardOf(s.jobs[j].request) ==> s'.shards[i] == s.shards[i]
    ensures var k := s.jobs[j].request; var i := c.shardOf(k);
      var was, now := s.shards[i].cache.entries, s'.shards[i].cache.entries;
      && now.Keys == was.Keys && (forall x :: x in was && x != k ==> now[x] == was[x])
      && (k in was ==> now[k] == was[k].(retryAfter := s.now + c.cooldown))
  {
  }

  lemma CallbackRetries(c: Config, s: System, a: Action, k: Request)
    requires Shaped(c, s) && OfCallback(a) && !a.Postpone? && CallbackMay(c, s, a)
    requires k in CallbackCache(c, s, a).entries
    requires Consistent(s.shards[c.shardOf(s.jobs[a.job].request)].cache)
    ensures var entries, e := s.shards[c.shardOf(s.jobs[a.job].request)].cache.entries,
        CallbackCache(c, s, a).entries[k];
      e.retryAfter == 0 || (k in entries && e.retryAfter == entries[k].retryAfter)
  {
    if a.Insert? {
      var job := s.jobs[a.job];
      var cache := s.shards[c.shardOf(job.request)].cache;
      var e := Lease(c, job, a.job, job.phase.value, job.phase.stage.trail, job.phase.stage.wall, Glance(s, a));
      StoredConsistent(cache, job.request, e, c.capacity / SHARDS);
    }
  }

  /** What a step leaves of a key's retry time. */
  lemma StepRetry(c: Config, s: System, a: Action, s': System, i: nat, k: Request)
    requires Inv(c, s) && IsStep(c, s, a, s') && |s'.shards| == SHARDS && Cached(s', i, k)
    ensures var e := s'.shards[i].cache.entries[k];
      || e.retryAfter == 0
      || (Cached(s, i, k) && e.retryAfter == s.shards[i].cache.entries[k].retryAfter)
      || (a.Postpone? && s.jobs[a.job].request == k && e.retryAfter == s.now + c.cooldown)
  {
    if OfCall(a) { CallShape(c, s, a, s'); }
    else if OfLookup(a) && !a.Submit? { LookupShape(c, s, a, s'); }
    else if a.Postpone? { PostponeDelays(c, s, a.job, s'); }
    else if OfCallback(a) {
      var h := c.shardOf(s.jobs[a.job].request);
      assert JobOk(c, s, a.job) && ShardOk(c, s, h);
      CallbackShape(c, s, a, h);
      if i == h { CallbackRetries(c, s, a, k); }
    }
    else { OthersShrink(c, s, a, s'); }
  }

  /** Step m is a failed completion for this key that set this retry time. */
  ghost predicate PostponedAt(c: Config, run: seq<System>, acts: seq<Action>, m: nat, k: Request, retry: nat) {
    && m < |acts| < |run| && acts[m].Postpone? && acts[m].job < |run[m].jobs| && run[m].jobs[acts[m].job].request == k
    && retry == run[m].now + c.cooldown
  }

  /** A lease's retry time is the one a failed completion for its key set, or none. */
  lemma {:induction false} RetryHistory(c: Config, run: seq<System>, acts: seq<Action>, n: nat, i: nat, k: Request)
    requires IsRun(c, run, acts) && n < |run| && Cached(run[n], i, k)
    ensures var retry := run[n].shards[i].cache.entries[k].retryAfter;
      retry == 0 || exists m :: 0 <= m < n && PostponedAt(c, run, acts, m, k, retry)
  {
    if n == 0 {
      assert false;
    } else {
      var retry := run[n].shards[i].cache.entries[k].retryAfter;
      RetryStep(c, run, acts, n - 1, i, k);
      if retry != 0 && !PostponedAt(c, run, acts, n - 1, k, retry) { RetryHistory(c, run, acts, n - 1, i, k); }
    }
  }

  lemma RetryStep(c: Config, run: seq<System>, acts: seq<Action>, n: nat, i: nat, k: Request)
    requires IsRun(c, run, acts) && n < |acts| && Cached(run[n + 1], i, k)
    ensures var retry := run[n + 1].shards[i].cache.entries[k].retryAfter;
      || retry == 0
      || (Cached(run[n], i, k) && retry == run[n].shards[i].cache.entries[k].retryAfter)
      || PostponedAt(c, run, acts, n, k, retry)
  {
    RunStructure(c, run, acts, n);
    StatesAreNumbered(c, run, acts, n + 1);
    StepRetry(c, run[n], acts[n], run[n + 1], i, k);
  }

  // ---------------------------------------------------------------------------
  // How long a lease serves
  // ---------------------------------------------------------------------------

  /** The time between the two clock readings a completion makes: the wall clock in one step, the
      monotonic clock in a later one, both while it holds the shard's lock. */
  function Drift(e: Entry): int { e.mono.now - e.wall.now }

  ghost predicate DriftRead(run: seq<System>, acts: seq<Action>, e: Entry) {
    && e.wall.at < e.mono.at < |acts| < |run|
    && acts[e.wall.at] == ReadWall(e.source) && acts[e.mono.at] == Insert(e.source)
    && Drift(e) == run[e.mono.at].now - run[e.wall.at].now >= 0
  }

  /** A grant served from the cache is within its lease by the clock its call read, at a step of
      the call: that reading precedes the reading made when the fetching job was created plus the
      granted age, which is at most the configured limit, and it precedes the session's and the
      decision's own expiry, up to the lease's drift. */
  lemma LeaseBound(c: Config, run: seq<System>, acts: seq<Action>, g: Grant)
    requires IsRun(c, run, acts) && g in run[|acts|].grants && g.lease.Some?
    ensures g.job < |run[|acts|].jobs|
    ensures var job, t, e := run[|acts|].jobs[g.job], g.call.clock, g.lease.value;
      && e.source == g.job && job.request == g.call.request
      && WasRead(run, acts, t) && g.call.began <= t.at && WasRead(run, acts, job.started) && DriftRead(run, acts, e)
      && WasStored(c, run, acts, e)
      && t.now < job.started.now + e.decision.maxAgeMs <= job.started.now + c.ageLimit
      && (job.session != 0 ==> t.now + c.offset < job.session + Drift(e))
      && (e.decision.expiresAt != 0 ==> t.now + c.offset < e.decision.expiresAt + Drift(e))
  {
    RunInvariant(c, run, acts, |acts|);
    AllStored(c, run, acts, |acts|);
    var s, e := run[|acts|], g.lease.value;
    GrantWithin(c, s, g);
    ReadingsAreSteps(c, run, acts, |acts|, g.call.clock);
    ReadingsAreSteps(c, run, acts, |acts|, s.jobs[g.job].started);
    ReadingsAreSteps(c, run, acts, |acts|, e.wall);
    ReadingsAreSteps(c, run, acts, |acts|, e.mono);
  }

  lemma GrantWithin(c: Config, s: System, g: Grant)
    requires Inv(c, s) && Times(c, s) && g in s.grants && g.lease.Some?
    ensures g.job < |s.jobs| && LeaseOk(c, s, g.job, g.lease.value)
    ensures var job, t, e := s.jobs[g.job], g.call.clock, g.lease.value;
      && job.request == g.call.request && g.call.began <= t.at && Known(s, t) && Known(s, job.started)
      && t.now < job.started.now + e.decision.maxAgeMs <= job.started.now + c.ageLimit
      && (job.session != 0 ==> t.now + c.offset < job.session + Drift(e))
      && (e.decision.expiresAt != 0 ==> t.now + c.offset < e.decision.expiresAt + Drift(e))
  {
    assert GrantOk(c, s, g) && GrantTimes(c, s, g) && JobTimes(c, s, g.job);
    var e := g.lease.value;
    ExpiryIsExact(s.jobs[g.job].started.now, e.decision, s.jobs[g.job].session, c.offset, e.wall.now, Drift(e));
  }

  /** A call with this clock reading may be served. */
  predicate Serves(e: Entry, t: nat) { t < e.expires }

  /** No clock reading the lease serves is at or past this wall-clock bound. */
  ghost predicate NeverServesLate(c: Config, e: Entry, bound: nat) {
    forall t: nat :: Serves(e, t) ==> t + c.offset < bound
  }

  /** "A cached grant precedes the session's and the decision's own expiry" is not what the source
      keeps: time may pass between the two clock readings. Exactly the leases without drift, and
      those that another bound ends in time, never serve late. */
  lemma ServesInTime(c: Config, run: seq<System>, acts: seq<Action>, n: nat, i: nat, k: Request)
    requires IsRun(c, run, acts) && n < |run| && Cached(run[n], i, k)
    ensures var e := run[n].shards[i].cache.entries[k]; e.source < |run[n].jobs| && DriftRead(run, acts, e)
    ensures var e := run[n].shards[i].cache.entries[k]; var job := run[n].jobs[e.source];
      var age, bound := job.started.now + e.decision.maxAgeMs + c.offset, e.decision.expiresAt;
      && (job.session != 0 ==>
            (NeverServesLate(c, e, job.session) <==>
             Drift(e) == 0 || age <= job.session || (bound != 0 && bound + Drift(e) <= job.session)))
      && (bound != 0 ==>
            (NeverServesLate(c, e, bound) <==>
             Drift(e) == 0 || age <= bound || (job.session != 0 && job.session + Drift(e) <= bound)))
  {
    CachedLease(c, run, acts, n, i, k);
    var e := run[n].shards[i].cache.entries[k];
    ServedExactly(c, run[n].jobs[e.source], e);
  }

  lemma CachedLease(c: Config, run: seq<System>, acts: seq<Action>, n: nat, i: nat, k: Request)
    requires IsRun(c, run, acts) && n < |run| && Cached(run[n], i, k)
    ensures var e := run[n].shards[i].cache.entries[k]; LeaseOk(c, run[n], e.source, e) && DriftRead(run, acts, e)
  {
    RunInvariant(c, run, acts, n);
    var e := run[n].shards[i].cache.entries[k];
    assert LeaseOk(c, run[n], e.source, e);
    ReadingsAreSteps(c, run, acts, n, e.wall);
    ReadingsAreSteps(c, run, acts, n, e.mono);
  }

  lemma ServedExactly(c: Config, job: Job, e: Entry)
    requires e.expires == LeaseExpiry(job.started.now, e.decision, job.session, e.mono.now, e.wall.now + c.offset)
    requires e.wall.now <= e.mono.now < e.expires
    ensures var age, bound := job.started.now + e.decision.maxAgeMs + c.offset, e.decision.expiresAt;
      && (job.session != 0 ==>
            (NeverServesLate(c, e, job.session) <==>
             Drift(e) == 0 || age <= job.session || (bound != 0 && bound + Drift(e) <= job.session)))
      && (bound != 0 ==>
            (NeverServesLate(c, e, bound) <==>
             Drift(e) == 0 || age <= bound || (job.session != 0 && job.session + Drift(e) <= bound)))
  {
    ExpiryIsExact(job.started.now, e.decision, job.session, c.offset, e.wall.now, Drift(e));
    ServedUpTo(c, e, job.session);
    ServedUpTo(c, e, e.decision.expiresAt);
  }

  lemma ServedUpTo(c: Config, e: Entry, bound: nat)
    requires e.expires > 0
    ensures NeverServesLate(c, e, bound) <==> e.expires + c.offset <= bound
  {
    if NeverServesLate(c, e, bound) {
      var last: nat := e.expires - 1;
      assert Serves(e, last);
    }
  }
}
