/** Every step of the provider keeps its invariant. */
module RemoteAuthSteps {
  import opened AuthDecision
  import opened LeaseCache
  import opened RemoteAuth
  import opened Wrappers

  /** What time may do to a state: counters move only together with a logged bump, and a job
      keeps everything but its phase. */
  ghost predicate Later(s: System, s': System) {
    && s.step < s'.step && s.now <= s'.now && |s'.scopes| == |s.scopes|
    && (forall b :: b in s.bumps ==> b in s'.bumps)
    && (forall b :: b in s'.bumps && b !in s.bumps ==> s.step <= b.at < s'.step)
    && s.epoch <= s'.epoch
    && (s.epoch == s'.epoch ==> forall b :: b in s'.bumps && b.scope == None ==> b in s.bumps)
    && (forall x :: 0 <= x < |s.scopes| ==> s.scopes[x] <= s'.scopes[x])
    && (forall x, b :: 0 <= x < |s.scopes| && s.scopes[x] == s'.scopes[x] && b in s'.bumps && b.scope == Some(x) ==>
          b in s.bumps)
    && |s.jobs| <= |s'.jobs|
    && (forall j :: 0 <= j < |s.jobs| ==> s'.jobs[j] == s.jobs[j].(phase := s'.jobs[j].phase))
    && (forall j :: 0 <= j < |s.jobs| && s.jobs[j].phase.Finished? ==> s'.jobs[j].phase == s.jobs[j].phase)
    && (forall r :: r in s.readings ==> r in s'.readings)
    && (forall g :: g in s.grants ==> g in s'.grants)
  }

  lemma CaptureLater(c: Config, s: System, s': System, r: Request, p: Capture)
    requires Later(s, s') && CaptureOk(c, s, r, p)
    ensures CaptureOk(c, s', r, p)
  {
  }

  lemma CheckLater(c: Config, s: System, s': System, call: Call, j: nat, k: Check)
    requires Later(s, s') && CheckOk(c, s, call, j, k)
    ensures CheckOk(c, s', call, j, k)
    ensures Passed(c, s, call, j, k) ==> Passed(c, s', call, j, k)
  {
  }

  lemma EntryLater(c: Config, s: System, s': System, k: Request, e: Entry)
    requires Later(s, s') && EntryOk(c, s, k, e)
    ensures EntryOk(c, s', k, e)
  {
  }

  lemma CacheLater(c: Config, s: System, s': System, i: nat, cache: Lru<Request, Entry>)
    requires Later(s, s') && CacheOk(c, s, i, cache)
    ensures CacheOk(c, s', i, cache)
  {
    forall k | k in cache.entries ensures EntryOk(c, s', k, cache.entries[k]) {
      EntryLater(c, s, s', k, cache.entries[k]);
    }
  }

  /** A job's ties to its shard. */
  ghost predicate Placed(c: Config, s: System, j: nat)
    requires j < |s.jobs| && |s.shards| == SHARDS && ConfigOk(c)
  {
    var job := s.jobs[j];
    var h := s.shards[c.shardOf(job.request)];
    && (job.shared && Unanswered(job.phase) ==> job.request in h.pending && h.pending[job.request] == j)
    && (job.phase.Locked? ==> h.owner == Some(Finisher(j)) && job.request !in h.pending)
  }

  /** Everything outside the touched callers, jobs and shards is as it was. */
  ghost predicate Frame(s: System, s': System, ts: set<nat>, js: set<nat>, hs: set<nat>) {
    && |s.shards| == |s'.shards| == SHARDS && |s.jobs| <= |s'.jobs|
    && (forall t :: t in s'.callers && t !in ts ==> t in s.callers && s'.callers[t] == s.callers[t])
    && (forall t :: t in s.callers && t !in ts ==> t in s'.callers)
    && (forall j :: 0 <= j < |s'.jobs| && j !in js ==> j < |s.jobs| && s'.jobs[j] == s.jobs[j])
    && (forall i :: 0 <= i < SHARDS && i !in hs ==> s'.shards[i] == s.shards[i])
  }

  /** What a step touches holds in the new state. */
  ghost predicate Touches(c: Config, s: System, s': System, ts: set<nat>, js: set<nat>, hs: set<nat>)
    requires Shaped(c, s) && |s'.shards| == SHARDS
  {
    && Later(s, s') && Frame(s, s', ts, js, hs)
    && (forall t :: t in ts && t in s'.callers ==> CallerOk(c, s', t))
    && (forall j :: j in js && j < |s'.jobs| ==> JobOk(c, s', j))
    && (forall i :: i in hs && i < SHARDS ==> ShardOk(c, s', i))
    && QueueOk(s') && (forall j :: j in s.queue && j !in js ==> j in s'.queue)
    && (forall g :: g in s'.grants && g !in s.grants ==> GrantOk(c, s', g))
  }

  /** Nothing a step leaves alone leans on what it touches. */
  ghost predicate Independent(c: Config, s: System, s': System, ts: set<nat>, js: set<nat>, hs: set<nat>)
    requires Inv(c, s) && |s'.shards| == SHARDS
  {
    && (forall t :: t in s.callers && t !in ts && s.callers[t].InLookup? ==>
          c.shardOf(s.callers[t].call.request) !in hs)
    && (forall t :: t in s.callers && t !in ts && s.callers[t].Submitting? ==> s.callers[t].job !in js)
    && (forall j :: 0 <= j < |s.jobs| && j !in js && s.jobs[j].phase.Created? ==> s.jobs[j].phase.creator !in ts)
    && (forall j :: 0 <= j < |s.jobs| && j !in js && j < |s'.jobs| && c.shardOf(s.jobs[j].request) in hs ==>
          Placed(c, s', j))
    && (forall i, k :: 0 <= i < SHARDS && i !in hs && k in s.shards[i].pending
          ==> s.shards[i].pending[k] < |s'.jobs| && Unanswered(s'.jobs[s.shards[i].pending[k]].phase))
    && (forall i :: 0 <= i < SHARDS && i !in hs ==> OwnerOk(c, s', i, s.shards[i].owner))
  }

  lemma FrameJob(c: Config, s: System, s': System, ts: set<nat>, js: set<nat>, hs: set<nat>, j: nat)
    requires Inv(c, s) && |s'.shards| == SHARDS && Touches(c, s, s', ts, js, hs) && Independent(c, s, s', ts, js, hs)
    requires j < |s'.jobs|
    ensures JobOk(c, s', j)
  {
    if j !in js {
      assert JobOk(c, s, j);
      CaptureLater(c, s, s', s.jobs[j].request, s.jobs[j].capture);
    }
  }

  lemma FrameShard(c: Config, s: System, s': System, ts: set<nat>, js: set<nat>, hs: set<nat>, i: nat)
    requires Inv(c, s) && |s'.shards| == SHARDS && Touches(c, s, s', ts, js, hs) && Independent(c, s, s', ts, js, hs)
    requires i < SHARDS
    ensures ShardOk(c, s', i)
  {
    if i !in hs {
      assert ShardOk(c, s, i);
      var h := s.shards[i];
      CacheLater(c, s, s', i, h.cache);
      forall k | k in h.pending ensures PendingOk(c, s', k, h.pending[k]) {
        assert PendingOk(c, s, k, h.pending[k]);
      }
    }
  }

  lemma FrameCaller(c: Config, s: System, s': System, ts: set<nat>, js: set<nat>, hs: set<nat>, t: nat)
    requires Inv(c, s) && |s'.shards| == SHARDS && Touches(c, s, s', ts, js, hs) && Independent(c, s, s', ts, js, hs)
    requires t in s'.callers
    ensures CallerOk(c, s', t)
  {
    if t !in ts {
      assert CallerOk(c, s, t);
      match s.callers[t] {
        case LoadingScope(_, _, _) =>
        case Ready(call, capture) => CaptureLater(c, s, s', call.request, capture);
        case InLookup(call, capture, at) =>
          CaptureLater(c, s, s', call.request, capture);
          CheckLater(c, s, s', call, s.shards[c.shardOf(call.request)].cache.entries[call.request].source, at);
        case Fencing(call, j, at) => CheckLater(c, s, s', call, j, at);
        case Fenced(call, j, at) => CheckLater(c, s, s', call, j, at);
        case _ =>
      }
    }
  }

  lemma Preserved(c: Config, s: System, s': System, ts: set<nat>, js: set<nat>, hs: set<nat>)
    requires Inv(c, s) && |s'.shards| == SHARDS && Touches(c, s, s', ts, js, hs) && Independent(c, s, s', ts, js, hs)
    ensures Inv(c, s')
  {
    forall j | 0 <= j < |s'.jobs| ensures JobOk(c, s', j) { FrameJob(c, s, s', ts, js, hs, j); }
    forall i | 0 <= i < SHARDS ensures ShardOk(c, s', i) { FrameShard(c, s, s', ts, js, hs, i); }
    forall t | t in s'.callers ensures CallerOk(c, s', t) { FrameCaller(c, s, s', ts, js, hs, t); }
    forall g | g in s'.grants ensures GrantOk(c, s', g) {
      if g in s.grants {
        assert GrantOk(c, s, g);
        CheckLater(c, s, s', g.call, g.job, g.check);
      }
    }
  }

  /** The ties between callers, jobs and shards are one to one, so it is enough that a step
      which touches one end of a tie touches the other. */
  ghost predicate Closed(c: Config, s: System, s': System, ts: set<nat>, js: set<nat>, hs: set<nat>)
    requires |s.shards| == SHARDS
  {
    && (forall t :: t in ts && t in s.callers && s.callers[t].InLookup? ==> c.shardOf(s.callers[t].call.request) in hs)
    && (forall t :: t in ts && t in s.callers && s.callers[t].Submitting? ==> s.callers[t].job in js)
    && (forall j :: j in js && j < |s.jobs| && s.jobs[j].phase.Created? ==> s.jobs[j].phase.creator in ts)
    && (forall j :: j in js && j < |s.jobs| && s.jobs[j].phase.Locked? ==> c.shardOf(s.jobs[j].request) in hs)
    && (forall j :: j in js && j < |s.jobs| && s.jobs[j].shared && Unanswered(s.jobs[j].phase)
                    && c.shardOf(s.jobs[j].request) !in hs
          ==> j < |s'.jobs| && Unanswered(s'.jobs[j].phase))
    && (forall i :: i in hs && i < SHARDS && s.shards[i].owner.Some? ==>
          if s.shards[i].owner.value.Caller?
          then s.shards[i].owner.value.t in ts else s.shards[i].owner.value.job in js)
  }

  lemma OwnerAside(c: Config, s: System, s': System, ts: set<nat>, js: set<nat>, hs: set<nat>, i: nat)
    requires Frame(s, s', ts, js, hs) && Closed(c, s, s', ts, js, hs)
    requires i < SHARDS && i !in hs && OwnerOk(c, s, i, s.shards[i].owner)
    ensures OwnerOk(c, s', i, s.shards[i].owner)
  {
  }

  lemma PendingAside(c: Config, s: System, s': System, ts: set<nat>, js: set<nat>, hs: set<nat>, k: Request, j: nat)
    requires Frame(s, s', ts, js, hs) && Closed(c, s, s', ts, js, hs)
    requires c.shardOf(k) !in hs && PendingOk(c, s, k, j)
    ensures j < |s'.jobs| && Unanswered(s'.jobs[j].phase)
  {
  }

  lemma CallerAside(c: Config, s: System, s': System, ts: set<nat>, js: set<nat>, hs: set<nat>, t: nat)
    requires ConfigOk(c) && Frame(s, s', ts, js, hs) && Closed(c, s, s', ts, js, hs)
    requires t in s.callers && t !in ts && CallerOk(c, s, t)
    ensures s.callers[t].InLookup? ==> c.shardOf(s.callers[t].call.request) !in hs
    ensures s.callers[t].Submitting? ==> s.callers[t].job !in js
  {
  }

  lemma ClosedIsIndependent(c: Config, s: System, s': System, ts: set<nat>, js: set<nat>, hs: set<nat>)
    requires Inv(c, s) && Frame(s, s', ts, js, hs) && Closed(c, s, s', ts, js, hs)
    requires forall j :: 0 <= j < |s.jobs| && j !in js && c.shardOf(s.jobs[j].request) in hs && j < |s'.jobs| ==>
        Placed(c, s', j)
    ensures Independent(c, s, s', ts, js, hs)
  {
    forall t | t in s.callers && t !in ts
      ensures s.callers[t].InLookup? ==> c.shardOf(s.callers[t].call.request) !in hs
      ensures s.callers[t].Submitting? ==> s.callers[t].job !in js
    {
      CallerAside(c, s, s', ts, js, hs, t);
    }
    forall j | 0 <= j < |s.jobs| && j !in js && s.jobs[j].phase.Created? ensures s.jobs[j].phase.creator !in ts {
      assert JobOk(c, s, j);
    }
    forall i | 0 <= i < SHARDS && i !in hs ensures OwnerOk(c, s', i, s.shards[i].owner) {
      assert ShardOk(c, s, i);
      OwnerAside(c, s, s', ts, js, hs, i);
    }
    forall i, k | 0 <= i < SHARDS && i !in hs && k in s.shards[i].pending
      ensures s.shards[i].pending[k] < |s'.jobs| && Unanswered(s'.jobs[s.shards[i].pending[k]].phase)
    {
      assert ShardOk(c, s, i);
      PendingAside(c, s, s', ts, js, hs, k, s.shards[i].pending[k]);
    }
  }

  /** Nothing but the clock, the revision or a counter moves. */
  lemma MoveNothing(c: Config, s: System, s': System)
    requires Inv(c, s) && Later(s, s')
    requires s'.shards == s.shards && s'.jobs == s.jobs && s'.queue == s.queue && s'.callers == s.callers
    requires s'.grants == s.grants
    ensures Inv(c, s')
  {
    ClosedIsIndependent(c, s, s', {}, {}, {});
    Preserved(c, s, s', {}, {}, {});
  }

  /** One caller moves between phases that hold nothing. */
  lemma MoveCaller(c: Config, s: System, s': System, t: nat)
    requires Inv(c, s)
    requires s' == s.(callers := s'.callers, step := s.step + 1, grants := s'.grants, readings := s'.readings)
    requires forall u :: u != t && u in s.callers ==> u in s'.callers && s'.callers[u] == s.callers[u]
    requires forall u :: u != t && u in s'.callers ==> u in s.callers
    requires s.grants <= s'.grants && s.readings <= s'.readings
    requires t in s.callers ==> !s.callers[t].InLookup? && !s.callers[t].Submitting?
    requires t in s'.callers ==> CallerOk(c, s', t)
    requires forall g :: g in s'.grants && g !in s.grants ==> GrantOk(c, s', g)
    ensures Inv(c, s')
  {
    assert Later(s, s');
    assert Frame(s, s', {t}, {}, {});
    ClosedIsIndependent(c, s, s', {t}, {}, {});
    Preserved(c, s, s', {t}, {}, {});
  }

  /** One job moves along, in or out of the queue, without touching its shard. */
  lemma MoveJob(c: Config, s: System, s': System, j: nat)
    requires Inv(c, s) && j < |s.jobs| && |s'.jobs| == |s.jobs|
    requires s' == s.(jobs := s.jobs[j := s.jobs[j].(phase := s'.jobs[j].phase)], step := s.step + 1, queue := s'.queue,
                      workers := s'.workers)
    requires !s.jobs[j].phase.Created? && !s.jobs[j].phase.Locked? && !s.jobs[j].phase.Finished?
    requires s.jobs[j].shared && Unanswered(s.jobs[j].phase) ==> Unanswered(s'.jobs[j].phase)
    requires JobOk(c, s', j) && QueueOk(s') && forall i :: i in s.queue && i != j ==> i in s'.queue
    ensures Inv(c, s')
  {
    assert Later(s, s');
    assert Frame(s, s', {}, {j}, {});
    ClosedIsIndependent(c, s, s', {}, {j}, {});
    Preserved(c, s, s', {}, {j}, {});
  }

  /** Time passing, a revision, an invalidation. */
  lemma QuietStep(c: Config, s: System, a: Action)
    requires Inv(c, s) && OfWorld(a) && WorldMay(c, s, a) && !a.ClearShard?
    ensures Inv(c, Counted(WorldEffect(c, s, a)))
  {
    MoveNothing(c, s, Counted(WorldEffect(c, s, a)));
  }

  lemma BeginStep(c: Config, s: System, a: Action)
    requires Inv(c, s) && OfCall(a) && CallMay(c, s, a)
    requires (a.Begin? || a.ReadClock? || a.LoadEpoch? || a.Poll? || a.GiveUp?)
    ensures Inv(c, Counted(CallEffect(c, s, a)))
  {
    if a.t in s.callers { assert CallerOk(c, s, a.t); }
    MoveCaller(c, s, Counted(CallEffect(c, s, a)), a.t);
  }

  lemma LoadScopeStep(c: Config, s: System, t: nat)
    requires Inv(c, s) && CallMay(c, s, LoadScope(t))
    ensures Inv(c, Counted(CallEffect(c, s, LoadScope(t))))
  {
    assert CallerOk(c, s, t);
    MoveCaller(c, s, Counted(CallEffect(c, s, LoadScope(t))), t);
  }

  /** The first load of a fence check: the epoch still equals the captured one, so every bump
      of it came before the capture. */
  lemma FenceEpochStep(c: Config, s: System, t: nat)
    requires Inv(c, s) && CallMay(c, s, FenceEpoch(t))
    ensures Inv(c, Counted(CallEffect(c, s, FenceEpoch(t))))
  {
    assert CallerOk(c, s, t);
    assert JobOk(c, s, s.callers[t].job);
    MoveCaller(c, s, Counted(CallEffect(c, s, FenceEpoch(t))), t);
  }

  lemma FenceScopeStep(c: Config, s: System, t: nat)
    requires Inv(c, s) && CallMay(c, s, FenceScope(t))
    ensures Inv(c, Counted(CallEffect(c, s, FenceScope(t))))
  {
    assert CallerOk(c, s, t);
    assert JobOk(c, s, s.callers[t].job);
    MoveCaller(c, s, Counted(CallEffect(c, s, FenceScope(t))), t);
  }

  lemma ReadStep(c: Config, s: System, t: nat)
    requires Inv(c, s) && CallMay(c, s, ReadDecision(t))
    ensures Inv(c, Counted(CallEffect(c, s, ReadDecision(t))))
  {
    assert CallerOk(c, s, t);
    MoveCaller(c, s, Counted(CallEffect(c, s, ReadDecision(t))), t);
  }

  lemma AnswerStep(c: Config, s: System, a: Action)
    requires Inv(c, s) && a.Answer? && JobMay(c, s, a)
    ensures Inv(c, Counted(JobEffect(c, s, a)))
  {
    assert JobOk(c, s, a.job);
    MoveJob(c, s, Counted(JobEffect(c, s, a)), a.job);
  }

  /** A caller that finished its own job goes on with its call. */
  lemma MoveFinisher(c: Config, s: System, s': System, j: nat, t: nat)
    requires Inv(c, s) && j < |s.jobs| && |s'.jobs| == |s.jobs| && s.jobs[j].phase.Publishing?
    requires s' == s.(jobs := s.jobs[j := s.jobs[j].(phase := s'.jobs[j].phase)], step := s.step + 1,
        callers := s'.callers)
    requires s'.jobs[j].phase.Finished? && JobOk(c, s', j)
    requires t in s.callers && s.callers[t].Finishing?
    requires s'.callers == s.callers - {t} ||
             (t in s'.callers && s'.callers == s.callers[t := s'.callers[t]] && CallerOk(c, s', t))
    ensures Inv(c, s')
  {
    assert Later(s, s') && Frame(s, s', {t}, {j}, {});
    ClosedIsIndependent(c, s, s', {t}, {j}, {});
    Preserved(c, s, s', {t}, {j}, {});
  }

  lemma PublishByCaller(c: Config, s: System, s': System, j: nat, t: nat)
    requires Inv(c, s) && j < |s.jobs| && s.jobs[j].phase.Publishing? && t in s.callers && s.callers[t].Finishing?
    requires s.callers[t].job == j
    requires var p := s.callers[t];
      s' == Counted(Proceed(WithJob(s, j, Finished(s.jobs[j].phase.value, s.step)), t, p.call, j, p.hit))
    ensures Inv(c, s')
  {
    assert JobOk(c, s, j) && CallerOk(c, s, t);
    MoveFinisher(c, s, s', j, t);
  }

  lemma PublishByWorker(c: Config, s: System, s': System, j: nat)
    requires Inv(c, s) && j < |s.jobs| && s.jobs[j].phase.Publishing?
    requires s' == Counted(WithJob(s, j, Finished(s.jobs[j].phase.value, s.step))).(workers := s'.workers)
    ensures Inv(c, s')
  {
    assert JobOk(c, s, j);
    MoveJob(c, s, s', j);
  }

  lemma PublishStep(c: Config, s: System, j: nat)
    requires Inv(c, s) && JobMay(c, s, Publish(j))
    ensures Inv(c, Counted(JobEffect(c, s, Publish(j))))
  {
    var s', p := Counted(JobEffect(c, s, Publish(j))), s.jobs[j].phase;
    if p.agent.ByCaller? && p.agent.t in s.callers && s.callers[p.agent.t].Finishing? && s.callers[p.agent.t].job == j {
      PublishByCaller(c, s, s', j, p.agent.t);
    } else {
      PublishByWorker(c, s, s', j);
    }
  }

  lemma TakeStep(c: Config, s: System, w: nat)
    requires Inv(c, s) && JobMay(c, s, Take(w))
    ensures Inv(c, Counted(JobEffect(c, s, Take(w))))
  {
    var s', j := Counted(JobEffect(c, s, Take(w))), s.queue[0];
    assert s.queue == [j] + s'.queue && s'.queue == s.queue[1..] && j in s.queue && j !in s'.queue;
    assert JobOk(c, s, j);
    forall q | q in s'.queue ensures q < |s'.jobs| && s'.jobs[q].phase.Queued? { assert q in s.queue && q != j; }
    MoveJob(c, s, s', j);
  }

  /** One shard changes, with the jobs and callers tied to it. */
  lemma MoveShard(c: Config, s: System, s': System, ts: set<nat>, js: set<nat>, i: nat)
    requires Inv(c, s) && i < SHARDS && |s'.shards| == SHARDS
    requires Touches(c, s, s', ts, js, {i}) && Closed(c, s, s', ts, js, {i})
    requires forall k :: k in s.shards[i].pending && s.shards[i].pending[k] !in js
               ==> k in s'.shards[i].pending && s'.shards[i].pending[k] == s.shards[i].pending[k]
    ensures Inv(c, s')
  {
    forall j | 0 <= j < |s.jobs| && j !in js && c.shardOf(s.jobs[j].request) == i ensures Placed(c, s', j) {
      assert JobOk(c, s, j);
    }
    ClosedIsIndependent(c, s, s', ts, js, {i});
    Preserved(c, s, s', ts, js, {i});
  }

  /** A shard whose cache keeps some of its entries as they were and whose pending map is
      unchanged or has one more good job. */
  ghost predicate Kept(a: Lru<Request, Entry>, b: Lru<Request, Entry>) {
    && Consistent(b) && |b.entries| <= |a.entries|
    && forall k :: k in b.entries ==> k in a.entries && b.entries[k] == a.entries[k]
  }

  lemma KeptShard(c: Config, s: System, s': System, i: nat)
    requires Inv(c, s) && Later(s, s') && i < SHARDS && |s'.shards| == SHARDS
    requires Kept(s.shards[i].cache, s'.shards[i].cache)
    requires |s'.shards[i].pending| <= c.queueCapacity + c.workers
    requires forall k :: k in s'.shards[i].pending ==> c.shardOf(k) == i && PendingOk(c, s', k, s'.shards[i].pending[k])
    requires OwnerOk(c, s', i, s'.shards[i].owner)
    ensures ShardOk(c, s', i)
  {
    assert ShardOk(c, s, i);
    assert CacheOk(c, s, i, s'.shards[i].cache);
    CacheLater(c, s, s', i, s'.shards[i].cache);
  }

  lemma PendingKept(c: Config, s: System, s': System, i: nat)
    requires Inv(c, s) && i < SHARDS && |s.jobs| <= |s'.jobs| && forall j :: 0 <= j < |s.jobs| ==>
        s'.jobs[j] == s.jobs[j]
    ensures forall k :: k in s.shards[i].pending ==> c.shardOf(k) == i && PendingOk(c, s', k, s.shards[i].pending[k])
  {
    assert ShardOk(c, s, i);
    forall k | k in s.shards[i].pending ensures c.shardOf(k) == i && PendingOk(c, s', k, s.shards[i].pending[k]) {
      assert PendingOk(c, s, k, s.shards[i].pending[k]);
    }
  }

  lemma DroppedKept(a: Lru<Request, Entry>, k: Request)
    requires Consistent(a)
    ensures Kept(a, Dropped(a, k))
  {
    SizeIsLength(a);
    assert (a.entries - {k}).Keys == a.entries.Keys - {k};
  }

  lemma TouchedKept(a: Lru<Request, Entry>, k: Request)
    requires Consistent(a) && k in a.entries
    ensures Kept(a, Touched(a, k))
  {
    assert ([k] + Without(a.order, k))[1..] == Without(a.order, k);
  }

  lemma ClearedShard(c: Config, s: System, s': System, i: nat)
    requires Inv(c, s) && i < SHARDS && s.shards[i].owner.None?
    requires s' == Counted(WithShard(s, i, s.shards[i].(cache := Lru(map[], []))))
    ensures Later(s, s') && Frame(s, s', {}, {}, {i}) && ShardOk(c, s', i)
  {
    assert ShardOk(c, s, i);
    PendingKept(c, s, s', i);
    KeptShard(c, s, s', i);
  }

  lemma MoveCleared(c: Config, s: System, s': System, i: nat)
    requires Inv(c, s) && i < SHARDS && s.shards[i].owner.None?
    requires s' == Counted(WithShard(s, i, s.shards[i].(cache := Lru(map[], []))))
    ensures Inv(c, s')
  {
    ClearedShard(c, s, s', i);
    MoveShard(c, s, s', {}, {}, i);
  }

  lemma ClearStep(c: Config, s: System, i: nat)
    requires Inv(c, s) && WorldMay(c, s, ClearShard(i))
    ensures Inv(c, Counted(WorldEffect(c, s, ClearShard(i))))
  {
    MoveCleared(c, s, Counted(WorldEffect(c, s, ClearShard(i))), i);
  }

  /** A step that changes one caller and one shard, adds some jobs and bumps nothing. */
  ghost predicate Local(s: System, s': System, t: nat, i: nat) {
    && i < |s.shards| == SHARDS && |s'.shards| == SHARDS && |s.jobs| <= |s'.jobs|
    && s'.shards == s.shards[i := s'.shards[i]]
    && s'.jobs[..|s.jobs|] == s.jobs
    && (forall u :: u != t && u in s.callers ==> u in s'.callers && s'.callers[u] == s.callers[u])
    && (forall u :: u != t && u in s'.callers ==> u in s.callers)
    && s.grants <= s'.grants && s.readings <= s'.readings
    && s' == s.(step := s.step + 1, shards := s'.shards, jobs := s'.jobs, callers := s'.callers, grants := s'.grants,
                readings := s'.readings)
  }

  ghost function Added(s: System, s': System): set<nat> {
    set j: nat {:trigger s'.jobs[j]} | |s.jobs| <= j < |s'.jobs|
  }

  lemma LocalFrame(s: System, s': System, t: nat, i: nat)
    requires Local(s, s', t, i)
    ensures Later(s, s') && Frame(s, s', {t}, Added(s, s'), {i})
  {
    assert forall j :: 0 <= j < |s.jobs| ==> s'.jobs[j] == s'.jobs[..|s.jobs|][j];
  }

  lemma LocalTouches(c: Config, s: System, s': System, t: nat, i: nat)
    requires Shaped(c, s) && QueueOk(s) && Local(s, s', t, i)
    requires ShardOk(c, s', i) && (t in s'.callers ==> CallerOk(c, s', t))
    requires forall j :: |s.jobs| <= j < |s'.jobs| ==> JobOk(c, s', j) && !s'.jobs[j].phase.Queued?
    requires forall g :: g in s'.grants && g !in s.grants ==> GrantOk(c, s', g)
    ensures Touches(c, s, s', {t}, Added(s, s'), {i})
  {
    LocalFrame(s, s', t, i);
    assert forall j :: j in s.queue ==> j !in Added(s, s');
  }

  lemma MoveLocal(c: Config, s: System, s': System, t: nat, i: nat)
    requires Inv(c, s) && Local(s, s', t, i)
    requires ShardOk(c, s', i) && (t in s'.callers ==> CallerOk(c, s', t))
    requires forall j :: |s.jobs| <= j < |s'.jobs| ==> JobOk(c, s', j) && !s'.jobs[j].phase.Queued?
    requires forall g :: g in s'.grants && g !in s.grants ==> GrantOk(c, s', g)
    requires t in s.callers ==>
        !s.callers[t].Submitting? && (s.callers[t].InLookup? ==> c.shardOf(s.callers[t].call.request) == i)
    requires s.shards[i].owner == None || s.shards[i].owner == Some(Caller(t))
    requires forall k :: k in s.shards[i].pending ==>
        k in s'.shards[i].pending && s'.shards[i].pending[k] == s.shards[i].pending[k]
    ensures Inv(c, s')
  {
    LocalTouches(c, s, s', t, i);
    assert Closed(c, s, s', {t}, Added(s, s'), {i});
    MoveShard(c, s, s', {t}, Added(s, s'), i);
  }

  /** A new job that is not shared leans on nothing but its creator. */
  lemma CreatedJob(c: Config, s: System, s': System, t: nat)
    requires Inv(c, s) && t in s.callers && s.callers[t].Ready? && |s'.shards| == SHARDS && Later(s, s')
    requires |s'.jobs| == |s.jobs| + 1
    requires var p := s.callers[t];
      && s'.jobs[|s.jobs|] == Job(p.call.request, false, p.capture, s'.jobs[|s.jobs|].started, p.call.session,
          Created(t))
      && t in s'.callers && s'.callers[t] == Submitting(p.call, |s.jobs|, false)
    ensures JobOk(c, s', |s.jobs|) && CallerOk(c, s', t)
  {
    assert CallerOk(c, s, t);
    CaptureLater(c, s, s', s.callers[t].call.request, s.callers[t].capture);
  }

  lemma MoveNewJob(c: Config, s: System, s': System, t: nat)
    requires Inv(c, s) && t in s.callers && s.callers[t].Ready? && |s'.shards| == SHARDS
    requires Touches(c, s, s', {t}, {|s.jobs|}, {})
    ensures Inv(c, s')
  {
    ClosedIsIndependent(c, s, s', {t}, {|s.jobs|}, {});
    Preserved(c, s, s', {t}, {|s.jobs|}, {});
  }

  lemma CreateDirectStep(c: Config, s: System, t: nat)
    requires Inv(c, s) && LookupMay(c, s, CreateDirect(t))
    ensures Inv(c, Counted(LookupEffect(c, s, CreateDirect(t))))
  {
    var s' := Counted(LookupEffect(c, s, CreateDirect(t)));
    assert Later(s, s') && Frame(s, s', {t}, {|s.jobs|}, {});
    CreatedJob(c, s, s', t);
    MoveNewJob(c, s, s', t);
  }

  /** The caller is about to leave the lookup region of shard i with this cache. */
  ghost predicate Leaving(c: Config, s: System, t: nat, call: Call, capture: Capture, cache: Lru<Request, Entry>) {
    && Shaped(c, s) && t in s.callers && s.callers[t].call == call && call.began < s.step && !call.polled
    && (s.callers[t].Ready? || s.callers[t].InLookup?)
    && CaptureOk(c, s, call.request, capture)
    && (var h := s.shards[c.shardOf(call.request)];
        && Kept(h.cache, cache)
        && (h.owner == None || h.owner == Some(Caller(t)))
        && (s.callers[t].InLookup? ==> h.owner == Some(Caller(t))))
  }

  ghost predicate NewGrants(c: Config, s: System, gs: set<Grant>) {
    s.grants <= gs && forall g :: g in gs && g !in s.grants ==> GrantOk(c, s.(step := s.step + 1), g)
  }

  lemma GrantsLater(c: Config, s: System, s': System, gs: set<Grant>)
    requires NewGrants(c, s, gs) && Later(s, s') && s'.step == s.step + 1 && s'.bumps == s.bumps
    ensures forall g :: g in gs && g !in s.grants ==> GrantOk(c, s', g)
  {
    forall g | g in gs && g !in s.grants ensures GrantOk(c, s', g) {
      assert GrantOk(c, s.(step := s.step + 1), g);
    }
  }

  /** Leaving without a new job. */
  lemma LeaveStep(c: Config, s: System, s': System, t: nat, call: Call, capture: Capture, cache: Lru<Request, Entry>,
                  gs: set<Grant>)
    requires Inv(c, s) && Leaving(c, s, t, call, capture, cache) && NewGrants(c, s, gs)
    requires var i := c.shardOf(call.request);
      s' == s.(shards := s.shards[i := s.shards[i].(cache := cache, owner := None)],
               callers := s'.callers, grants := gs, step := s.step + 1)
    requires var h := s.shards[c.shardOf(call.request)];
      || s'.callers == s.callers - {t}
      || (call.request in h.pending && s'.callers == s.callers[t := Waiting(call, h.pending[call.request])])
    ensures Inv(c, s')
  {
    var i := c.shardOf(call.request);
    assert Local(s, s', t, i);
    LocalFrame(s, s', t, i);
    GrantsLater(c, s, s', gs);
    assert ShardOk(c, s', i) by {
      PendingKept(c, s, s', i);
      assert ShardOk(c, s, i);
      KeptShard(c, s, s', i);
    }
    assert t in s'.callers ==> CallerOk(c, s', t) by { PendingKept(c, s, s', i); }
    MoveLocal(c, s, s', t, i);
  }

  lemma CreatedShard(c: Config, s: System, s': System, i: nat, k: Request)
    requires Inv(c, s) && Later(s, s') && i == c.shardOf(k) && |s'.shards| == SHARDS
    requires |s.shards[i].pending| < c.queueCapacity + c.workers
    requires s.jobs <= s'.jobs && |s'.jobs| == |s.jobs| + 1 && Kept(s.shards[i].cache, s'.shards[i].cache)
    requires s'.shards[i].owner == None && s'.shards[i].pending == s.shards[i].pending[k := |s.jobs|]
    requires k !in s.shards[i].pending
    requires PendingOk(c, s', k, |s.jobs|)
    ensures ShardOk(c, s', i)
  {
    PendingKept(c, s, s', i);
    KeptShard(c, s, s', i);
  }

  /** Leaving with a new job, pending under the caller's key. */
  lemma LeaveCreating(c: Config, s: System, s': System, t: nat, call: Call, capture: Capture, hit: bool,
                      cache: Lru<Request, Entry>, gs: set<Grant>, r: Reading)
    requires Inv(c, s) && Leaving(c, s, t, call, capture, cache) && NewGrants(c, s, gs)
    requires var h := s.shards[c.shardOf(call.request)];
      call.request !in h.pending && |h.pending| < c.queueCapacity + c.workers
    requires var i, k := c.shardOf(call.request), call.request;
      s' == s.(shards := s.shards[i := s.shards[i].(cache := cache, owner := None,
          pending := s.shards[i].pending[k := |s.jobs|])],
               jobs := s.jobs + [Job(k, true, capture, r, call.session, Created(t))], readings := s.readings + {r},
               callers := s.callers[t := Submitting(call, |s.jobs|, hit)], grants := gs, step := s.step + 1)
    ensures Inv(c, s')
  {
    var i := c.shardOf(call.request);
    assert Local(s, s', t, i);
    LocalFrame(s, s', t, i);
    GrantsLater(c, s, s', gs);
    CreatedShard(c, s, s', i, call.request);
    assert JobOk(c, s', |s.jobs|) by { CaptureLater(c, s, s', call.request, capture); }
    MoveLocal(c, s, s', t, i);
  }

  lemma JoinOrCreateStep(c: Config, s: System, s': System, t: nat, call: Call, capture: Capture, hit: bool,
                         cache: Lru<Request, Entry>, gs: set<Grant>, r: Reading)
    requires Inv(c, s) && Leaving(c, s, t, call, capture, cache) && NewGrants(c, s, gs)
    requires s' == Counted(JoinOrCreate(c, s.(grants := gs), t, call, capture, hit, cache, r))
    ensures Inv(c, s')
  {
    var h := s.shards[c.shardOf(call.request)];
    if call.request !in h.pending && |h.pending| < c.queueCapacity + c.workers {
      LeaveCreating(c, s, s', t, call, capture, hit, cache, gs, r);
    } else {
      LeaveUncreated(c, s, s', t, call, capture, hit, cache, gs);
    }
  }

  lemma LeaveUncreated(c: Config, s: System, s': System, t: nat, call: Call, capture: Capture, hit: bool,
                       cache: Lru<Request, Entry>, gs: set<Grant>)
    requires Inv(c, s) && Leaving(c, s, t, call, capture, cache) && NewGrants(c, s, gs)
    requires var i, k := c.shardOf(call.request), call.request;
      var s1 := WithShard(s.(grants := gs), i, s.shards[i].(cache := cache, owner := None));
      s' == Counted(
        if k in s.shards[i].pending then Proceed(s1, t, call, s.shards[i].pending[k], hit) else Return(s1, t))
    ensures Inv(c, s')
  {
    LeaveStep(c, s, s', t, call, capture, cache, gs);
  }

  lemma MayLeave(c: Config, s: System, t: nat)
    requires Inv(c, s) && t in s.callers && (s.callers[t].Ready? || s.callers[t].InLookup?)
    requires s.callers[t].Ready? ==> s.shards[c.shardOf(s.callers[t].call.request)].owner == None
    ensures var p := s.callers[t]; var k := p.call.request; var cache := s.shards[c.shardOf(k)].cache;
      && Leaving(c, s, t, p.call, p.capture, Dropped(cache, k))
      && (k in cache.entries ==> Leaving(c, s, t, p.call, p.capture, Touched(cache, k)))
  {
    var k := s.callers[t].call.request;
    assert CallerOk(c, s, t) && ShardOk(c, s, c.shardOf(k));
    DroppedKept(s.shards[c.shardOf(k)].cache, k);
    if k in s.shards[c.shardOf(k)].cache.entries { TouchedKept(s.shards[c.shardOf(k)].cache, k); }
  }

  lemma MissStep(c: Config, s: System, s': System, t: nat, r: Reading)
    requires Inv(c, s) && t in s.callers && (s.callers[t].Ready? || s.callers[t].InLookup?)
    requires s.callers[t].Ready? ==> s.shards[c.shardOf(s.callers[t].call.request)].owner == None
    requires s' == Counted(Miss(c, s, t, s.callers[t].call, s.callers[t].capture, r))
    ensures Inv(c, s')
  {
    var p := s.callers[t];
    MayLeave(c, s, t);
    var cache := Dropped(s.shards[c.shardOf(p.call.request)].cache, p.call.request);
    JoinOrCreateStep(c, s, s', t, p.call, p.capture, false, cache, s.grants, r);
  }

  /** A hit: the entry's epoch was current at the first load and its scope counter is current
      at the second, so both were current at the first. */
  lemma HitGrantOk(c: Config, s: System, t: nat)
    requires Inv(c, s) && t in s.callers && s.callers[t].InLookup?
    requires var k := s.callers[t].call.request; var entries := s.shards[c.shardOf(k)].cache.entries;
      k in entries && entries[k].scopeEpoch == s.scopes[Scope(c, k)]
    ensures var p := s.callers[t]; var e := s.shards[c.shardOf(p.call.request)].cache.entries[p.call.request];
      GrantOk(c, s.(step := s.step + 1), Grant(s.step, p.call, e.source, p.check, Some(e)))
  {
    var i, k := c.shardOf(s.callers[t].call.request), s.callers[t].call.request;
    assert ShardOk(c, s, i) && CallerOk(c, s, t);
    HeldEntry(c, s, i, k);
  }

  ghost function HitGrants(s: System, t: nat, e: Entry): set<Grant>
    requires t in s.callers && s.callers[t].InLookup?
  {
    var p := s.callers[t];
    s.grants + if e.decision.result == SUCCESS then {Grant(s.step, p.call, e.source, p.check, Some(e))} else {}
  }

  lemma HitNewGrants(c: Config, s: System, t: nat, e: Entry)
    requires Inv(c, s) && t in s.callers && s.callers[t].InLookup?
    requires var k := s.callers[t].call.request; var entries := s.shards[c.shardOf(k)].cache.entries;
      k in entries && entries[k] == e && e.scopeEpoch == s.scopes[Scope(c, k)]
    ensures NewGrants(c, s, HitGrants(s, t, e))
  {
    HitGrantOk(c, s, t);
  }

  lemma HitStep(c: Config, s: System, s': System, t: nat, r: Reading)
    requires Inv(c, s) && t in s.callers && s.callers[t].InLookup?
    requires var p := s.callers[t]; var k := p.call.request; var entries := s.shards[c.shardOf(k)].cache.entries;
      && k in entries && entries[k].scopeEpoch == s.scopes[Scope(c, k)]
      && s' == Counted(Hit(c, s, t, p.call, p.capture, p.check, r))
    ensures Inv(c, s')
  {
    var p := s.callers[t];
    var k := p.call.request;
    var h := s.shards[c.shardOf(k)];
    var e := h.cache.entries[k];
    if p.call.clock.now < e.freshUntil || p.call.clock.now < e.retryAfter {
      ServedStep(c, s, Counted(Return(WithShard(s.(grants := HitGrants(s, t, e)), c.shardOf(k),
                                                h.(cache := Touched(h.cache, k), owner := None)), t)), t, e);
    } else {
      RefreshStep(c, s, Counted(JoinOrCreate(c, s.(grants := HitGrants(s, t, e)), t, p.call, p.capture, true,
          Touched(h.cache, k), r)), t, e, r);
    }
  }

  lemma ServedStep(c: Config, s: System, s': System, t: nat, e: Entry)
    requires Inv(c, s) && t in s.callers && s.callers[t].InLookup?
    requires var k := s.callers[t].call.request; var h := s.shards[c.shardOf(k)];
      && k in h.cache.entries && h.cache.entries[k] == e && e.scopeEpoch == s.scopes[Scope(c, k)]
      && s' == Counted(Return(WithShard(s.(grants := HitGrants(s, t, e)), c.shardOf(k),
                                        h.(cache := Touched(h.cache, k), owner := None)), t))
    ensures Inv(c, s')
  {
    var p := s.callers[t];
    HitNewGrants(c, s, t, e);
    MayLeave(c, s, t);
    LeaveStep(c, s, s', t, p.call, p.capture, Touched(s.shards[c.shardOf(p.call.request)].cache, p.call.request),
        HitGrants(s, t, e));
  }

  lemma RefreshStep(c: Config, s: System, s': System, t: nat, e: Entry, r: Reading)
    requires Inv(c, s) && t in s.callers && s.callers[t].InLookup?
    requires var p := s.callers[t]; var k := p.call.request; var h := s.shards[c.shardOf(k)];
      && k in h.cache.entries && h.cache.entries[k] == e && e.scopeEpoch == s.scopes[Scope(c, k)]
      && s' == Counted(JoinOrCreate(c, s.(grants := HitGrants(s, t, e)), t, p.call, p.capture, true,
          Touched(h.cache, k), r))
    ensures Inv(c, s')
  {
    var p := s.callers[t];
    HitNewGrants(c, s, t, e);
    MayLeave(c, s, t);
    JoinOrCreateStep(c, s, s', t, p.call, p.capture, true,
        Touched(s.shards[c.shardOf(p.call.request)].cache, p.call.request),
                     HitGrants(s, t, e), r);
  }

  /** The lookup's first load: found, in time, and the epoch current. The lock stays held. */
  lemma HoldMoved(c: Config, s: System, s': System, t: nat)
    requires Inv(c, s) && t in s.callers && s.callers[t].Ready?
    requires var p := s.callers[t]; var i := c.shardOf(p.call.request);
      && s.shards[i].owner == None
      && s' == s.(step := s.step + 1,
          callers := s.callers[t := InLookup(p.call, p.capture,
              Check(s.step, s.epoch, s.scopes[Scope(c, p.call.request)]))],
                  shards := s.shards[i := s.shards[i].(owner := Some(Caller(t)))])
    requires CallerOk(c, s', t)
    ensures Inv(c, s')
  {
    var i := c.shardOf(s.callers[t].call.request);
    assert Local(s, s', t, i);
    LocalFrame(s, s', t, i);
    assert ShardOk(c, s', i) by {
      assert ShardOk(c, s, i);
      PendingKept(c, s, s', i);
      CacheLater(c, s, s', i, s.shards[i].cache);
    }
    MoveLocal(c, s, s', t, i);
  }

  lemma HeldEntry(c: Config, s: System, i: nat, k: Request)
    requires Inv(c, s) && i < SHARDS && k in s.shards[i].cache.entries
    ensures var e := s.shards[i].cache.entries[k]; EntryOk(c, s, k, e) && JobOk(c, s, e.source)
  {
    assert ShardOk(c, s, i) && CacheOk(c, s, i, s.shards[i].cache);
  }

  lemma LookupHoldStep(c: Config, s: System, t: nat)
    requires Inv(c, s) && LookupMay(c, s, LookupEnter(t))
    requires var p := s.callers[t]; var h := s.shards[c.shardOf(p.call.request)];
      && p.call.request in h.cache.entries && p.call.clock.now < h.cache.entries[p.call.request].expires
      && h.cache.entries[p.call.request].epoch == s.epoch
    ensures Inv(c, Counted(LookupEffect(c, s, LookupEnter(t))))
  {
    var s', p := Counted(LookupEffect(c, s, LookupEnter(t))), s.callers[t];
    assert CallerOk(c, s, t);
    HeldEntry(c, s, c.shardOf(p.call.request), p.call.request);
    assert CallerOk(c, s', t);
    HoldMoved(c, s, s', t);
  }

  lemma EnterStep(c: Config, s: System, t: nat)
    requires Inv(c, s) && LookupMay(c, s, LookupEnter(t))
    ensures Inv(c, Counted(LookupEffect(c, s, LookupEnter(t))))
  {
    var p := s.callers[t];
    var h, k := s.shards[c.shardOf(p.call.request)], p.call.request;
    if k in h.cache.entries && p.call.clock.now < h.cache.entries[k].expires && h.cache.entries[k].epoch == s.epoch {
      LookupHoldStep(c, s, t);
    } else {
      MissStep(c, s, Counted(LookupEffect(c, s, LookupEnter(t))), t, Glance(s, LookupEnter(t)));
    }
  }

  lemma LookupScopeStep(c: Config, s: System, t: nat)
    requires Inv(c, s) && LookupMay(c, s, LookupScope(t))
    ensures Inv(c, Counted(LookupEffect(c, s, LookupScope(t))))
  {
    var p, s' := s.callers[t], Counted(LookupEffect(c, s, LookupScope(t)));
    var h, k := s.shards[c.shardOf(p.call.request)], p.call.request;
    if h.cache.entries[k].scopeEpoch == s.scopes[Scope(c, k)] {
      HitStep(c, s, s', t, Glance(s, LookupScope(t)));
    } else {
      MissStep(c, s, s', t, Glance(s, LookupScope(t)));
    }
  }

  lemma {:induction false} NoDupAppend(q: seq<nat>, x: nat)
    requires NoDup(q) && x !in q
    ensures NoDup(q + [x])
  {
    if q != [] {
      NoDupAppend(q[1..], x);
      assert (q + [x])[1..] == q[1..] + [x];
    }
  }

  lemma SubmitMoved(c: Config, s: System, s': System, t: nat, j: nat)
    requires Inv(c, s) && t in s.callers && s.callers[t].Submitting? && s.callers[t].job == j
    requires s' == s.(step := s.step + 1, jobs := s'.jobs, queue := s'.queue, callers := s'.callers)
    requires j < |s.jobs| == |s'.jobs| && s'.jobs == s.jobs[j := s.jobs[j].(phase := s'.jobs[j].phase)]
    requires s.jobs[j].phase == Created(t) && Unanswered(s'.jobs[j].phase) && JobOk(c, s', j)
    requires s'.callers == s.callers - {t} ||
             (t in s'.callers && s'.callers == s.callers[t := s'.callers[t]] && CallerOk(c, s', t))
    requires QueueOk(s') && forall i :: i in s.queue ==> i in s'.queue
    ensures Inv(c, s')
  {
    assert Later(s, s') && Frame(s, s', {t}, {j}, {});
    ClosedIsIndependent(c, s, s', {t}, {j}, {});
    Preserved(c, s, s', {t}, {j}, {});
  }

  lemma SubmitStep(c: Config, s: System, t: nat, accepted: bool)
    requires Inv(c, s) && LookupMay(c, s, Submit(t, accepted))
    ensures Inv(c, Counted(LookupEffect(c, s, Submit(t, accepted))))
  {
    var s', j := Counted(LookupEffect(c, s, Submit(t, accepted))), s.callers[t].job;
    assert CallerOk(c, s, t);
    assert JobOk(c, s, j);
    if accepted { NoDupAppend(s.queue, j); }
    SubmitMoved(c, s, s', t, j);
  }

  /** A job and its shard change; no caller does. */
  ghost predicate Completion(s: System, s': System, j: nat, i: nat) {
    && i < |s.shards| == SHARDS && |s'.shards| == SHARDS && j < |s.jobs| == |s'.jobs|
    && s' == s.(step := s.step + 1, shards := s.shards[i := s'.shards[i]], readings := s'.readings,
                jobs := s.jobs[j := s.jobs[j].(phase := s'.jobs[j].phase)])
    && !s.jobs[j].phase.Finished? && s.readings <= s'.readings
  }

  lemma CompletionFrame(s: System, s': System, j: nat, i: nat)
    requires Completion(s, s', j, i)
    ensures Later(s, s') && Frame(s, s', {}, {j}, {i})
  {
  }

  lemma CompletionTouches(c: Config, s: System, s': System, j: nat, i: nat)
    requires Shaped(c, s) && QueueOk(s) && Completion(s, s', j, i)
    requires ShardOk(c, s', i) && JobOk(c, s', j) && !s.jobs[j].phase.Queued? && !s'.jobs[j].phase.Queued?
    ensures Touches(c, s, s', {}, {j}, {i})
  {
    CompletionFrame(s, s', j, i);
    assert j !in s.queue;
  }

  lemma MoveCompletion(c: Config, s: System, s': System, j: nat, i: nat)
    requires Inv(c, s) && Completion(s, s', j, i) && c.shardOf(s.jobs[j].request) == i
    requires ShardOk(c, s', i) && JobOk(c, s', j)
    requires !s.jobs[j].phase.Created? && !s.jobs[j].phase.Queued? && !s'.jobs[j].phase.Queued?
    requires s.shards[i].owner == None || s.shards[i].owner == Some(Finisher(j))
    requires forall k :: k in s.shards[i].pending && s.shards[i].pending[k] != j
               ==> k in s'.shards[i].pending && s'.shards[i].pending[k] == s.shards[i].pending[k]
    ensures Inv(c, s')
  {
    CompletionTouches(c, s, s', j, i);
    assert Closed(c, s, s', {}, {j}, {i});
    MoveShard(c, s, s', {}, {j}, i);
  }

  /** The callback takes its own entry out of the pending map, and no other. */
  lemma Unpended(c: Config, s: System, s': System, j: nat)
    requires Inv(c, s) && j < |s.jobs| && s.jobs[j].shared && Unanswered(s.jobs[j].phase)
    requires Completion(s, s', j, c.shardOf(s.jobs[j].request))
    ensures var h := s.shards[c.shardOf(s.jobs[j].request)];
      && s.jobs[j].request in h.pending && h.pending[s.jobs[j].request] == j
      && |h.pending - {s.jobs[j].request}| <= |h.pending|
      && forall k :: k in h.pending && k != s.jobs[j].request
           ==> h.pending[k] != j && c.shardOf(k) == c.shardOf(s.jobs[j].request) && PendingOk(c, s', k, h.pending[k])
  {
    var i := c.shardOf(s.jobs[j].request);
    var h := s.shards[i];
    assert JobOk(c, s, j);
    assert ShardOk(c, s, i);
    assert (h.pending - {s.jobs[j].request}).Keys == h.pending.Keys - {s.jobs[j].request};
    forall k | k in h.pending && k != s.jobs[j].request
      ensures h.pending[k] != j && c.shardOf(k) == i && PendingOk(c, s', k, h.pending[k])
    {
      assert PendingOk(c, s, k, h.pending[k]);
    }
  }

  lemma UnpendedShard(c: Config, s: System, s': System, j: nat)
    requires Inv(c, s) && j < |s.jobs| && s.jobs[j].shared && Unanswered(s.jobs[j].phase)
    requires Completion(s, s', j, c.shardOf(s.jobs[j].request)) && Later(s, s')
    requires var i := c.shardOf(s.jobs[j].request);
      && s'.shards[i].cache == s.shards[i].cache
      && s'.shards[i].pending == s.shards[i].pending - {s.jobs[j].request}
      && OwnerOk(c, s', i, s'.shards[i].owner)
    ensures ShardOk(c, s', c.shardOf(s.jobs[j].request))
  {
    var i := c.shardOf(s.jobs[j].request);
    assert ShardOk(c, s, i);
    Unpended(c, s, s', j);
    CacheLater(c, s, s', i, s.shards[i].cache);
  }

  /** Inside its callback a job leans on its lock; past it, on nothing. */
  lemma JobAnswered(c: Config, s: System, s': System, j: nat)
    requires ConfigOk(c) && |s.shards| == |s'.shards| == SHARDS && Later(s, s') && j < |s.jobs| && JobOk(c, s, j)
    requires var p, h := s'.jobs[j].phase, s'.shards[c.shardOf(s.jobs[j].request)];
      || p.Publishing?
      || (p.Locked? && s.jobs[j].shared && h.owner == Some(Finisher(j)) && s.jobs[j].request !in h.pending)
    ensures JobOk(c, s', j)
  {
    CaptureLater(c, s, s', s.jobs[j].request, s.jobs[j].capture);
  }

  lemma CompleteSharedStep(c: Config, s: System, s': System, j: nat, owner: Option<Actor>, p: JobPhase)
    requires Inv(c, s) && j < |s.jobs| && s.jobs[j].shared && s.jobs[j].phase.Completing?
    requires s.shards[c.shardOf(s.jobs[j].request)].owner == None
    requires var i, k := c.shardOf(s.jobs[j].request), s.jobs[j].request;
      s' == s.(step := s.step + 1, jobs := s.jobs[j := s.jobs[j].(phase := p)],
               shards := s.shards[i := s.shards[i].(pending := s.shards[i].pending - {k}, owner := owner)])
    requires (p.Publishing? && owner == None) || (p.Locked? && owner == Some(Finisher(j)))
    ensures Inv(c, s')
  {
    var i := c.shardOf(s.jobs[j].request);
    assert Completion(s, s', j, i);
    CompletionFrame(s, s', j, i);
    UnpendedShard(c, s, s', j);
    JobAnswered(c, s, s', j);
    Unpended(c, s, s', j);
    MoveCompletion(c, s, s', j, i);
  }

  lemma CompleteEnterStep(c: Config, s: System, j: nat)
    requires Inv(c, s) && JobMay(c, s, CompleteEnter(j))
    ensures Inv(c, Counted(JobEffect(c, s, CompleteEnter(j))))
  {
    var s', p := Counted(JobEffect(c, s, CompleteEnter(j))), s.jobs[j].phase;
    assert JobOk(c, s, j);
    if !s.jobs[j].shared {
      MoveJob(c, s, s', j);
    } else if s.jobs[j].capture.epoch != s.epoch {
      CompleteSharedStep(c, s, s', j, None, Publishing(p.agent, NO_DECISION));
    } else {
      CompleteSharedStep(c, s, s', j, Some(Finisher(j)), Locked(p.agent, p.value, PassedEpoch(s.step)));
    }
  }

  lemma StoredCacheOk(c: Config, s: System, i: nat, cache: Lru<Request, Entry>, k: Request, e: Entry)
    requires ConfigOk(c) && CacheOk(c, s, i, cache) && c.shardOf(k) == i && EntryOk(c, s, k, e)
    ensures CacheOk(c, s, i, Stored(cache, k, e, c.capacity / SHARDS))
  {
    var room := c.capacity / SHARDS;
    var r := Stored(cache, k, e, room);
    StoredConsistent(cache, k, e, room);
    forall x | x in r.entries ensures c.shardOf(x) == i && EntryOk(c, s, x, r.entries[x]) {
      assert x == k || (x in cache.entries && r.entries[x] == cache.entries[x]);
    }
  }

  lemma DroppedCacheOk(c: Config, s: System, i: nat, cache: Lru<Request, Entry>, k: Request)
    requires CacheOk(c, s, i, cache)
    ensures CacheOk(c, s, i, Dropped(cache, k))
  {
    DroppedKept(cache, k);
  }

  lemma PostponedCacheOk(c: Config, s: System, i: nat, cache: Lru<Request, Entry>, k: Request, retry: nat)
    requires CacheOk(c, s, i, cache)
    ensures CacheOk(c, s, i, Postponed(cache, k, retry))
  {
    var r := Postponed(cache, k, retry);
    assert r.order == cache.order;
    assert r.entries.Keys == cache.entries.Keys;
    forall x | x in r.entries ensures c.shardOf(x) == i && EntryOk(c, s, x, r.entries[x]) {
      assert EntryOk(c, s, x, cache.entries[x]);
    }
  }

  /** A step of the callback: the lock is kept or given up, and the cache of the shard may change. */
  lemma CallbackShard(c: Config, s: System, s': System, j: nat, i: nat, h: ShardState, p: JobPhase)
    requires ConfigOk(c) && InCallback(s, j) && i == c.shardOf(s.jobs[j].request) && Completion(s, s', j, i)
    requires Later(s, s')
    requires ShardOk(c, s, i) && s'.shards[i] == h && s'.jobs[j].phase == p && h.pending == s.shards[i].pending
    requires CacheOk(c, s, i, h.cache)
    requires (p.Publishing? && h.owner == None) || (p.Locked? && h.owner == Some(Finisher(j)))
    ensures ShardOk(c, s', i)
  {
    CacheLater(c, s, s', i, h.cache);
    CallbackPending(c, s, s', j, i);
  }

  lemma CallbackPending(c: Config, s: System, s': System, j: nat, i: nat)
    requires InCallback(s, j) && Completion(s, s', j, i) && ShardOk(c, s, i)
    requires s'.shards[i].pending == s.shards[i].pending
    ensures forall k :: k in s'.shards[i].pending ==> c.shardOf(k) == i && PendingOk(c, s', k, s'.shards[i].pending[k])
  {
    forall k | k in s'.shards[i].pending ensures c.shardOf(k) == i && PendingOk(c, s', k, s'.shards[i].pending[k]) {
      assert PendingOk(c, s, k, s.shards[i].pending[k]);
    }
  }

  lemma CallbackMoved(c: Config, s: System, s': System, j: nat, i: nat, h: ShardState, p: JobPhase)
    requires Inv(c, s) && InCallback(s, j) && i == c.shardOf(s.jobs[j].request)
    requires s' == s.(step := s.step + 1, shards := s.shards[i := h], readings := s'.readings,
                      jobs := s.jobs[j := s.jobs[j].(phase := p)])
    requires s.readings <= s'.readings && h.pending == s.shards[i].pending && CacheOk(c, s, i, h.cache)
    requires (p.Publishing? && h.owner == None) || (p.Locked? && h.owner == Some(Finisher(j)))
    ensures Inv(c, s')
  {
    assert JobOk(c, s, j) && ShardOk(c, s, i);
    CompletionFrame(s, s', j, i);
    CallbackShard(c, s, s', j, i, h, p);
    JobAnswered(c, s, s', j);
    MoveCompletion(c, s, s', j, i);
  }

  /** What a step of the callback makes of its shard's cache. */
  function CallbackCache(c: Config, s: System, a: Action): Lru<Request, Entry>
    requires Shaped(c, s) && OfCallback(a) && CallbackMay(c, s, a)
  {
    var job := s.jobs[a.job];
    var cache := s.shards[c.shardOf(job.request)].cache;
    match a
    case Postpone(_) => Postponed(cache, job.request, s.now + c.cooldown)
    case CompleteRevision(_) => Dropped(cache, job.request)
    case Insert(j) =>
      var g := job.phase.stage;
      Inserted(c, cache, job.request, Lease(c, job, j, job.phase.value, g.trail, g.wall, Glance(s, a)))
    case _ => cache
  }

  lemma InsertedCacheOk(c: Config, s: System, i: nat, cache: Lru<Request, Entry>, k: Request, e: Entry)
    requires ConfigOk(c) && CacheOk(c, s, i, cache) && c.shardOf(k) == i && EntryOk(c, s, k, e)
    ensures CacheOk(c, s, i, Inserted(c, cache, k, e))
  {
    StoredCacheOk(c, s, i, cache, k, e);
  }

  lemma CallbackCacheOk(c: Config, s: System, a: Action, i: nat)
    requires Shaped(c, s) && OfCallback(a) && CallbackMay(c, s, a) && i == c.shardOf(s.jobs[a.job].request)
    requires CacheOk(c, s, i, s.shards[i].cache)
    ensures CacheOk(c, s, i, CallbackCache(c, s, a))
  {
    var job := s.jobs[a.job];
    var cache := s.shards[i].cache;
    match a
    case Postpone(_) => PostponedCacheOk(c, s, i, cache, job.request, s.now + c.cooldown);
    case CompleteRevision(_) => DroppedCacheOk(c, s, i, cache, job.request);
    case Insert(j) =>
      var g := job.phase.stage;
      var e := Lease(c, job, j, job.phase.value, g.trail, g.wall, Glance(s, a));
      assert EntryOk(c, s, job.request, e);
      InsertedCacheOk(c, s, i, cache, job.request, e);
    case _ =>
  }

  lemma CallbackShape(c: Config, s: System, a: Action, i: nat)
    requires Shaped(c, s) && OfCallback(a) && CallbackMay(c, s, a)
    requires i == c.shardOf(s.jobs[a.job].request) && s.shards[i].owner == Some(Finisher(a.job))
    ensures var s', j := Counted(CallbackEffect(c, s, a)), a.job;
      && s.readings <= s'.readings && |s'.jobs| == |s.jobs| && |s'.shards| == |s.shards|
      && s' == s.(step := s.step + 1, shards := s.shards[i := s'.shards[i]], readings := s'.readings,
                  jobs := s.jobs[j := s.jobs[j].(phase := s'.jobs[j].phase)])
      && s'.shards[i].pending == s.shards[i].pending && s'.shards[i].cache == CallbackCache(c, s, a)
      && (|| (s'.jobs[j].phase.Publishing? && s'.shards[i].owner == None)
          || (s'.jobs[j].phase.Locked? && s'.shards[i].owner == Some(Finisher(j))))
  {
    CallbackTouches(c, s, a, i);
    CallbackStays(c, s, a, i);
  }

  lemma CallbackTouches(c: Config, s: System, a: Action, i: nat)
    requires Shaped(c, s) && OfCallback(a) && CallbackMay(c, s, a)
    requires i == c.shardOf(s.jobs[a.job].request)
    ensures var s', j := CallbackEffect(c, s, a), a.job;
      && s.readings <= s'.readings && |s'.jobs| == |s.jobs| && |s'.shards| == |s.shards|
      && s' == s.(shards := s.shards[i := s'.shards[i]], readings := s'.readings,
                  jobs := s.jobs[j := s.jobs[j].(phase := s'.jobs[j].phase)])
  {
    assert s.shards == s.shards[i := s.shards[i]];
  }

  lemma CallbackStays(c: Config, s: System, a: Action, i: nat)
    requires Shaped(c, s) && OfCallback(a) && CallbackMay(c, s, a)
    requires i == c.shardOf(s.jobs[a.job].request) && s.shards[i].owner == Some(Finisher(a.job))
    ensures var s', j := CallbackEffect(c, s, a), a.job;
      && |s'.jobs| == |s.jobs| && |s'.shards| == |s.shards|
      && s'.shards[i].pending == s.shards[i].pending && s'.shards[i].cache == CallbackCache(c, s, a)
      && (|| (s'.jobs[j].phase.Publishing? && s'.shards[i].owner == None)
          || (s'.jobs[j].phase.Locked? && s'.shards[i].owner == Some(Finisher(j))))
  {
  }

  lemma CallbackStep(c: Config, s: System, a: Action)
    requires Inv(c, s) && OfCallback(a) && CallbackMay(c, s, a)
    ensures Inv(c, Counted(CallbackEffect(c, s, a)))
  {
    var s', i := Counted(CallbackEffect(c, s, a)), c.shardOf(s.jobs[a.job].request);
    assert JobOk(c, s, a.job) && ShardOk(c, s, i);
    CallbackShape(c, s, a, i);
    CallbackCacheOk(c, s, a, i);
    CallbackMoved(c, s, s', a.job, i, s'.shards[i], s'.jobs[a.job].phase);
  }

  lemma CallStep(c: Config, s: System, a: Action)
    requires Inv(c, s) && OfCall(a) && CallMay(c, s, a)
    ensures Inv(c, Counted(CallEffect(c, s, a)))
  {
    match a
    case LoadScope(t) => LoadScopeStep(c, s, t);
    case FenceEpoch(t) => FenceEpochStep(c, s, t);
    case FenceScope(t) => FenceScopeStep(c, s, t);
    case ReadDecision(t) => ReadStep(c, s, t);
    case _ => BeginStep(c, s, a);
  }

  lemma AnyLookupStep(c: Config, s: System, a: Action)
    requires Inv(c, s) && OfLookup(a) && LookupMay(c, s, a)
    ensures Inv(c, Counted(LookupEffect(c, s, a)))
  {
    match a
    case CreateDirect(t) => CreateDirectStep(c, s, t);
    case Submit(t, accepted) => SubmitStep(c, s, t, accepted);
    case LookupEnter(t) => EnterStep(c, s, t);
    case LookupScope(t) => LookupScopeStep(c, s, t);
  }

  lemma JobStep(c: Config, s: System, a: Action)
    requires Inv(c, s) && OfJob(a) && JobMay(c, s, a)
    ensures Inv(c, Counted(JobEffect(c, s, a)))
  {
    match a
    case Take(w) => TakeStep(c, s, w);
    case Answer(_, _) => AnswerStep(c, s, a);
    case CompleteEnter(j) => CompleteEnterStep(c, s, j);
    case Publish(j) => PublishStep(c, s, j);
  }

  lemma WorldStep(c: Config, s: System, a: Action)
    requires Inv(c, s) && OfWorld(a) && WorldMay(c, s, a)
    ensures Inv(c, Counted(WorldEffect(c, s, a)))
  {
    if a.ClearShard? { ClearStep(c, s, a.shard); } else { QuietStep(c, s, a); }
  }

  /** Every step keeps the invariant. */
  lemma StepPreserves(c: Config, s: System, a: Action)
    requires Inv(c, s) && Enabled(c, s, a)
    ensures Inv(c, Next(c, s, a))
  {
    if OfCall(a) { CallStep(c, s, a); }
    else if OfLookup(a) { AnyLookupStep(c, s, a); }
    else if OfJob(a) { JobStep(c, s, a); }
    else if OfCallback(a) { CallbackStep(c, s, a); }
    else { WorldStep(c, s, a); }
  }
}
