/** The remote authorization provider as a machine over its atomic steps. A step is one
    lock-protected region, or one load of an atomic or of a clock inside one: the loads inside a
    region are separate steps taken with the shard lock held, so invalidations and the passing of
    time fall between any two of them. Every step has an index. The loads behind a request, a
    fence check or a lease carry the index at which they were made, every clock reading is kept
    with the action that took it, and every invalidation is logged. */
module RemoteAuth {
  import opened AuthDecision
  import opened Basics
  import opened LeaseCache
  import opened Wrappers

  /** The members whose digest is the cache key. */
  datatype Request = Request(session: nat, username: string, clientId: string,
                             action: string, topic: string, payload: string)

  datatype Config = Config(freshLimit: nat, ageLimit: nat, cooldown: nat, capacity: nat,
                           queueCapacity: nat, workers: nat, versioned: bool,
                           offset: nat, shardOf: Request -> nat, scopeOf: string -> nat)

  const SHARDS: nat := 16
  const SCOPES: nat := 1024

  ghost predicate ConfigOk(c: Config) {
    && c.freshLimit <= c.ageLimit && c.capacity >= SHARDS
    && (forall r :: c.shardOf(r) < SHARDS)
    && (forall u :: c.scopeOf(u) < SCOPES)
  }

  /** The fence a request carries: both counters, each with the step that loaded it. */
  datatype Capture = Capture(epoch: nat, epochAt: nat, scopeEpoch: nat, scopeAt: nat)

  /** A fence check: the step of its first load, and both counters as they were at that step. */
  datatype Check = Check(at: nat, epoch: nat, scopeEpoch: nat)

  /** What a step read: the monotonic clock and the policy revision, and which action did. */
  datatype Reading = Reading(at: nat, now: nat, revision: string, act: Action)

  /** Whose turn it is to move an unfinished job that is not in the queue. */
  datatype Agent = ByCaller(t: nat) | ByWorker(w: nat)

  /** How far a completion callback has come while it holds its shard's lock. */
  datatype Stage =
    | PassedEpoch(epochAt: nat)
    | PassedScope(epochAt: nat, scopeAt: nat)
    | KnowsRevision(trail: Trail)
    | KnowsWall(trail: Trail, wall: Reading)

  /** The steps at which a completion found its counters current, and the revision it loaded. */
  datatype Trail = Trail(epochAt: nat, scopeAt: nat, revision: Reading)

  datatype JobPhase =
    | Created(creator: nat)                      // its creator has still to submit it
    | Queued
    | Taken(worker: nat)                         // a worker is asking the service
    | Completing(agent: Agent, value: Decision)  // answered, completion callback not yet entered
    | Locked(agent: Agent, value: Decision, stage: Stage)  // inside the callback: unpended, lock held
    | Publishing(agent: Agent, value: Decision)  // callback done, flag not yet set
    | Finished(value: Decision, at: nat)         // the flag was set at this step

  datatype Job = Job(request: Request, shared: bool, capture: Capture, started: Reading, session: nat, phase: JobPhase)

  datatype Entry = Entry(decision: Decision, freshUntil: nat, expires: nat, retryAfter: nat,
                         epoch: nat, scopeEpoch: nat, source: nat, trail: Trail, wall: Reading, mono: Reading)

  datatype Actor = Caller(t: nat) | Finisher(job: nat)

  datatype ShardState = ShardState(cache: Lru<Request, Entry>, pending: map<Request, nat>, owner: Option<Actor>)

  /** One call: `checked` is the reading its session was checked with, `clock` the one leases are
      compared with. A call that `waits` looks at the fence only after the job has finished; one
      that does not looks at the fence first. A `polled` call brings its own request. */
  datatype Call = Call(request: Request, session: nat, checked: Reading, clock: Reading, began: nat, waits: bool,
                       polled: bool)

  datatype Phase =
    | Begun(call: Call)
    | LoadingEpoch(call: Call)
    | LoadingScope(call: Call, epoch: nat, epochAt: nat)
    | Ready(call: Call, capture: Capture)
    | InLookup(call: Call, capture: Capture, check: Check)
    | Submitting(call: Call, job: nat, hit: bool)
    | Finishing(call: Call, job: nat, hit: bool)   // the queue refused the job: its creator finishes it
    | Waiting(call: Call, job: nat)
    | Fencing(call: Call, job: nat, check: Check)
    | Fenced(call: Call, job: nat, check: Check)

  /** A worker, and the jobs it has taken and not yet finished. */
  datatype Worker = Idle | Busy(jobs: set<nat>, gathering: bool) | Exited

  /** An invalidation: of everything, or of one identity partition. */
  datatype Bump = Bump(at: nat, scope: Option<nat>)

  /** A permission: given at this step, to this call, from this job's answer. */
  datatype Grant = Grant(at: nat, call: Call, job: nat, check: Check, lease: Option<Entry>)

  datatype System = System(
    step: nat, now: nat, epoch: nat, scopes: seq<nat>, revision: string, stopping: bool,
    shards: seq<ShardState>, jobs: seq<Job>, queue: seq<nat>, callers: map<nat, Phase>, workers: map<nat, Worker>,
    bumps: set<Bump>, readings: set<Reading>, grants: set<Grant>)

  datatype Action =
    | Tick(elapsed: nat)
    | SetRevision(revision: string)
    | BumpEpoch
    | BumpScope(scope: nat)
    | ClearShard(shard: nat)
    | Stop
    | Begin(t: nat, request: Request, session: nat, waits: bool)
    | ReadClock(t: nat)
    | LoadEpoch(t: nat)
    | LoadScope(t: nat)
    | CreateDirect(t: nat)
    | LookupEnter(t: nat)
    | LookupScope(t: nat)
    | Submit(t: nat, accepted: bool)
    | Hire(w: nat)
    | Take(w: nat)
    | Ask(w: nat)
    | Leave(w: nat)
    | Answer(job: nat, reply: Option<Reply>)
    | CompleteEnter(job: nat)
    | CompleteScope(job: nat)
    | Postpone(job: nat)
    | CompleteRevision(job: nat)
    | ReadWall(job: nat)
    | Insert(job: nat)
    | Publish(job: nat)
    | Poll(t: nat, job: nat, request: Request, session: nat)
    | FenceEpoch(t: nat)
    | FenceScope(t: nat)
    | ReadDecision(t: nat)
    | GiveUp(t: nat)

  // ---------------------------------------------------------------------------
  // Steps
  // ---------------------------------------------------------------------------

  function Scope(c: Config, r: Request): nat { c.scopeOf(r.username) }

  function Live(expiry: nat, c: Config, now: nat): bool { expiry == 0 || now + c.offset < expiry }

  predicate SameIdentity(a: Request, b: Request) {
    a.session == b.session && a.username == b.username && a.clientId == b.clientId && a.topic == b.topic
  }

  ghost predicate Shaped(c: Config, s: System) {
    ConfigOk(c) && |s.shards| == SHARDS && |s.scopes| == SCOPES
  }

  function AgentOf(p: JobPhase): Option<Agent> {
    match p
    case Created(t) => Some(ByCaller(t))
    case Taken(w) => Some(ByWorker(w))
    case Completing(a, _) => Some(a)
    case Locked(a, _, _) => Some(a)
    case Publishing(a, _) => Some(a)
    case _ => None
  }

  /** What this step reads. */
  function Glance(s: System, a: Action): Reading { Reading(s.step, s.now, s.revision, a) }

  function Noted(s: System, r: Reading): System { s.(readings := s.readings + {r}) }

  function WithShard(s: System, i: nat, h: ShardState): System
    requires i < |s.shards|
  {
    s.(shards := s.shards[i := h])
  }

  function WithPhase(s: System, t: nat, p: Phase): System { s.(callers := s.callers[t := p]) }

  function WithWorker(s: System, w: nat, p: Worker): System { s.(workers := s.workers[w := p]) }

  function Return(s: System, t: nat): System { s.(callers := s.callers - {t}) }

  function WithJob(s: System, j: nat, p: JobPhase): System
    requires j < |s.jobs|
  {
    s.(jobs := s.jobs[j := s.jobs[j].(phase := p)])
  }

  /** A caller whose job is out of its hands: it waits for the answer, or had one already. */
  function Proceed(s: System, t: nat, call: Call, j: nat, hit: bool): System {
    if hit then Return(s, t) else WithPhase(s, t, Waiting(call, j))
  }

  /** The rest of the lookup region: join the pending job, or create one, or neither. */
  function JoinOrCreate(c: Config, s: System, t: nat, call: Call, capture: Capture, hit: bool,
                        cache: Lru<Request, Entry>, r: Reading): System
    requires Shaped(c, s)
  {
    var i, k := c.shardOf(call.request), call.request;
    var h := s.shards[i].(cache := cache, owner := None);
    if k in h.pending then
      Proceed(WithShard(s, i, h), t, call, h.pending[k], hit)
    else if |h.pending| < c.queueCapacity + c.workers then
      var job := Job(k, true, capture, r, call.session, Created(t));
      var s1 := WithShard(Noted(s, r).(jobs := s.jobs + [job]), i, h.(pending := h.pending[k := |s.jobs|]));
      WithPhase(s1, t, Submitting(call, |s.jobs|, hit))
    else Return(WithShard(s, i, h), t)
  }

  /** A cache hit: touch, record the grant, and refresh if the lease has gone stale. */
  function Hit(c: Config, s: System, t: nat, call: Call, capture: Capture, check: Check, r: Reading): System
    requires Shaped(c, s)
    requires call.request in s.shards[c.shardOf(call.request)].cache.entries
  {
    var i, k := c.shardOf(call.request), call.request;
    var h := s.shards[i];
    var e := h.cache.entries[k];
    var g := if e.decision.result == SUCCESS then {Grant(s.step, call, e.source, check, Some(e))} else {};
    var s1 := s.(grants := s.grants + g);
    if call.clock.now < e.freshUntil || call.clock.now < e.retryAfter
    then Return(WithShard(s1, i, h.(cache := Touched(h.cache, k), owner := None)), t)
    else JoinOrCreate(c, s1, t, call, capture, true, Touched(h.cache, k), r)
  }

  function Miss(c: Config, s: System, t: nat, call: Call, capture: Capture, r: Reading): System
    requires Shaped(c, s)
  {
    JoinOrCreate(c, s, t, call, capture, false, Dropped(s.shards[c.shardOf(call.request)].cache, call.request), r)
  }

  /** The lease a completed job earns, from its two clock readings. */
  function Lease(c: Config, job: Job, j: nat, v: Decision, trail: Trail, wall: Reading, mono: Reading): Entry {
    var expires := LeaseExpiry(job.started.now, v, job.session, mono.now, wall.now + c.offset);
    Entry(v, Min(job.started.now + v.freshMs, expires), expires, 0, job.capture.epoch, job.capture.scopeEpoch,
          j, trail, wall, mono)
  }

  /** A failed refresh delays the next one and changes nothing else. */
  function Postponed(cache: Lru<Request, Entry>, k: Request, retry: nat): Lru<Request, Entry> {
    if k in cache.entries
    then Lru(cache.entries[k := cache.entries[k].(retryAfter := retry)], cache.order)
    else cache
  }

  predicate RevisionFits(c: Config, v: Decision, revision: string) {
    c.versioned ==> v.revision != "" && (revision == "" || v.revision == revision)
  }

  /** The end of the callback: fresh enough and not already over, the lease is stored. */
  function Inserted(c: Config, cache: Lru<Request, Entry>, k: Request, lease: Entry): Lru<Request, Entry> {
    if lease.decision.freshMs == 0 || lease.expires <= lease.mono.now then cache
    else Stored(cache, k, lease, c.capacity / SHARDS)
  }

  /** Leaves the callback and the lock with this cache. */
  function Released(c: Config, s: System, j: nat, cache: Lru<Request, Entry>, v: Decision): System
    requires Shaped(c, s) && j < |s.jobs| && s.jobs[j].phase.Locked?
  {
    var i := c.shardOf(s.jobs[j].request);
    WithJob(WithShard(s, i, s.shards[i].(cache := cache, owner := None)), j, Publishing(s.jobs[j].phase.agent, v))
  }

  predicate InCallback(s: System, j: nat) { j < |s.jobs| && s.jobs[j].phase.Locked? }

  // Actions come in five kinds. The bounds on job indices and the presence of a locked entry in the
  // guards are there to make a step defined; `GuardsHold` shows that they never rule anything out.

  /** A worker that has finished one of its jobs; after the last it goes back for more. */
  function Relieved(w: Worker, j: nat): Worker {
    if w.Busy? then (if w.jobs <= {j} then Idle else Busy(w.jobs - {j}, w.gathering)) else w
  }

  predicate OfCall(a: Action) {
    || a.Begin? || a.ReadClock? || a.LoadEpoch? || a.LoadScope? || a.Poll? || a.FenceEpoch?
    || a.FenceScope? || a.ReadDecision? || a.GiveUp?
  }

  predicate CallMay(c: Config, s: System, a: Action)
    requires Shaped(c, s) && OfCall(a)
  {
    match a
    case Begin(t, _, session, _) => t !in s.callers && Live(session, c, s.now)
    case ReadClock(t) => t in s.callers && s.callers[t].Begun?
    case LoadEpoch(t) => t in s.callers && s.callers[t].LoadingEpoch?
    case LoadScope(t) => t in s.callers && s.callers[t].LoadingScope?
    case Poll(t, j, request, session) =>
      t !in s.callers && j < |s.jobs| && SameIdentity(request, s.jobs[j].request) && Live(session, c, s.now)
    case FenceEpoch(t) =>
      && t in s.callers && s.callers[t].Waiting? && s.callers[t].job < |s.jobs|
      && (s.callers[t].call.waits ==> s.jobs[s.callers[t].job].phase.Finished?)
    case FenceScope(t) => t in s.callers && s.callers[t].Fencing? && s.callers[t].job < |s.jobs|
    case ReadDecision(t) =>
      t in s.callers && s.callers[t].Fenced? && s.callers[t].job < |s.jobs| && s.jobs[s.callers[t].job].phase.Finished?
    case GiveUp(t) => t in s.callers && (s.callers[t].Waiting? || s.callers[t].Fencing? || s.callers[t].Fenced?)
  }

  /** The steps of a call outside the shard lock. */
  function CallEffect(c: Config, s: System, a: Action): System
    requires Shaped(c, s) && OfCall(a) && CallMay(c, s, a)
  {
    match a
    case Begin(t, r, session, waits) =>
      WithPhase(Noted(s, Glance(s, a)), t, Begun(Call(r, session, Glance(s, a), Glance(s, a), s.step, waits, false)))
    case ReadClock(t) =>
      WithPhase(Noted(s, Glance(s, a)), t, LoadingEpoch(s.callers[t].call.(clock := Glance(s, a))))
    case LoadEpoch(t) => WithPhase(s, t, LoadingScope(s.callers[t].call, s.epoch, s.step))
    case LoadScope(t) =>
      var p := s.callers[t];
      WithPhase(s, t, Ready(p.call, Capture(p.epoch, p.epochAt, s.scopes[Scope(c, p.call.request)], s.step)))
    case Poll(t, j, r, session) =>
      WithPhase(Noted(s, Glance(s, a)), t,
          Waiting(Call(r, session, Glance(s, a), Glance(s, a), s.step, false, true), j))
    case FenceEpoch(t) =>
      var p := s.callers[t];
      var job := s.jobs[p.job];
      if job.capture.epoch == s.epoch
      then WithPhase(s, t, Fencing(p.call, p.job, Check(s.step, s.epoch, s.scopes[Scope(c, job.request)])))
      else Return(s, t)
    case FenceScope(t) =>
      var p := s.callers[t];
      var job := s.jobs[p.job];
      if job.capture.scopeEpoch == s.scopes[Scope(c, job.request)]
      then WithPhase(s, t, Fenced(p.call, p.job, p.check)) else Return(s, t)
    case ReadDecision(t) =>
      var p := s.callers[t];
      var v := s.jobs[p.job].phase.value;
      var g := if v.result == SUCCESS && Live(v.expiresAt, c, s.now)
          then {Grant(s.step, p.call, p.job, p.check, None)} else {};
      Return(s, t).(grants := s.grants + g)
    case GiveUp(t) => Return(s, t)
  }

  predicate OfLookup(a: Action) {
    || a.CreateDirect? || a.LookupEnter? || a.LookupScope? || a.Submit?
  }

  predicate LookupMay(c: Config, s: System, a: Action)
    requires Shaped(c, s) && OfLookup(a)
  {
    match a
    case CreateDirect(t) => t in s.callers && s.callers[t].Ready? && c.freshLimit == 0
    case LookupEnter(t) =>
      && t in s.callers && s.callers[t].Ready? && c.freshLimit > 0
      && s.shards[c.shardOf(s.callers[t].call.request)].owner.None?
    case LookupScope(t) =>
      && t in s.callers && s.callers[t].InLookup?
      && s.callers[t].call.request in s.shards[c.shardOf(s.callers[t].call.request)].cache.entries
    case Submit(t, accepted) =>
      t in s.callers && s.callers[t].Submitting? && s.callers[t].job < |s.jobs| && (accepted ==> !s.stopping)
  }

  /** Looking a key up, and making or refusing a job for it. */
  function LookupEffect(c: Config, s: System, a: Action): System
    requires Shaped(c, s) && OfLookup(a) && LookupMay(c, s, a)
  {
    match a
    case CreateDirect(t) =>
      var p := s.callers[t];
      var job := Job(p.call.request, false, p.capture, Glance(s, a), p.call.session, Created(t));
      WithPhase(Noted(s, Glance(s, a)).(jobs := s.jobs + [job]), t, Submitting(p.call, |s.jobs|, false))
    case LookupEnter(t) =>
      var p := s.callers[t];
      var i, k := c.shardOf(p.call.request), p.call.request;
      var h := s.shards[i];
      if k in h.cache.entries && p.call.clock.now < h.cache.entries[k].expires && h.cache.entries[k].epoch == s.epoch
      then WithPhase(WithShard(s, i, h.(owner := Some(Caller(t)))), t,
                     InLookup(p.call, p.capture, Check(s.step, s.epoch, s.scopes[Scope(c, k)])))
      else Miss(c, s, t, p.call, p.capture, Glance(s, a))
    case LookupScope(t) =>
      var p := s.callers[t];
      var k := p.call.request;
      if s.shards[c.shardOf(k)].cache.entries[k].scopeEpoch == s.scopes[Scope(c, k)]
      then Hit(c, s, t, p.call, p.capture, p.check, Glance(s, a))
      else Miss(c, s, t, p.call, p.capture, Glance(s, a))
    case Submit(t, accepted) =>
      var p := s.callers[t];
      if accepted then Proceed(WithJob(s, p.job, Queued).(queue := s.queue + [p.job]), t, p.call, p.job, p.hit)
      else WithPhase(WithJob(s, p.job, Completing(ByCaller(t), NO_DECISION)), t, Finishing(p.call, p.job, p.hit))
  }

  predicate OfJob(a: Action) {
    || a.Take? || a.Answer? || a.CompleteEnter? || a.Publish?
  }

  predicate JobMay(c: Config, s: System, a: Action)
    requires Shaped(c, s) && OfJob(a)
  {
    match a
    case Take(w) =>
      && w in s.workers && (s.workers[w].Idle? || (s.workers[w].Busy? && s.workers[w].gathering))
      && s.queue != [] && s.queue[0] < |s.jobs|
    case Answer(j, _) =>
      && j < |s.jobs| && s.jobs[j].phase.Taken?
      && s.jobs[j].phase.worker in s.workers && s.workers[s.jobs[j].phase.worker].Busy?
      && !s.workers[s.jobs[j].phase.worker].gathering
    case CompleteEnter(j) =>
      j < |s.jobs| && s.jobs[j].phase.Completing? &&
      (s.jobs[j].shared ==> s.shards[c.shardOf(s.jobs[j].request)].owner.None?)
    case Publish(j) => j < |s.jobs| && s.jobs[j].phase.Publishing?
  }

  /** A job outside its completion callback. */
  function JobEffect(c: Config, s: System, a: Action): System
    requires Shaped(c, s) && OfJob(a) && JobMay(c, s, a)
  {
    match a
    case Take(w) =>
      var held := if s.workers[w].Busy? then s.workers[w].jobs else {};
      WithWorker(WithJob(s, s.queue[0], Taken(w)).(queue := s.queue[1..]), w, Busy(held + {s.queue[0]}, true))
    case Answer(j, reply) =>
      var v := if reply.Some? then Parse(reply.value, c.freshLimit, c.ageLimit, s.now + c.offset) else NO_DECISION;
      WithJob(s, j, Completing(ByWorker(s.jobs[j].phase.worker), v))
    case CompleteEnter(j) =>
      var job := s.jobs[j];
      var p := job.phase;
      if !job.shared then WithJob(s, j, Publishing(p.agent, p.value)) else
        var i := c.shardOf(job.request);
        var h := s.shards[i].(pending := s.shards[i].pending - {job.request});
        if job.capture.epoch != s.epoch then WithJob(WithShard(s, i, h), j, Publishing(p.agent, NO_DECISION))
        else WithJob(WithShard(s, i, h.(owner := Some(Finisher(j)))), j, Locked(p.agent, p.value, PassedEpoch(s.step)))
    case Publish(j) =>
      var p := s.jobs[j].phase;
      var s1 := WithJob(s, j, Finished(p.value, s.step));
      (match p.agent
       case ByCaller(t) =>
         if t in s.callers && s.callers[t].Finishing? && s.callers[t].job == j
         then Proceed(s1, t, s.callers[t].call, j, s.callers[t].hit) else s1
       case ByWorker(w) => if w in s.workers then WithWorker(s1, w, Relieved(s.workers[w], j)) else s1)
  }

  predicate OfCallback(a: Action) {
    || a.CompleteScope? || a.Postpone? || a.CompleteRevision? || a.ReadWall? || a.Insert?
  }

  predicate CallbackMay(c: Config, s: System, a: Action)
    requires Shaped(c, s) && OfCallback(a)
  {
    match a
    case CompleteScope(j) => InCallback(s, j) && s.jobs[j].phase.stage.PassedEpoch?
    case Postpone(j) => InCallback(s, j) && s.jobs[j].phase.stage.PassedScope? && !s.jobs[j].phase.value.authoritative
    case CompleteRevision(j) =>
      InCallback(s, j) && s.jobs[j].phase.stage.PassedScope? && s.jobs[j].phase.value.authoritative
    case ReadWall(j) => InCallback(s, j) && s.jobs[j].phase.stage.KnowsRevision?
    case Insert(j) => InCallback(s, j) && s.jobs[j].phase.stage.KnowsWall?
  }

  /** The completion callback, with the shard lock held. */
  function CallbackEffect(c: Config, s: System, a: Action): System
    requires Shaped(c, s) && OfCallback(a) && CallbackMay(c, s, a)
  {
    match a
    case CompleteScope(j) =>
      var job := s.jobs[j];
      var p := job.phase;
      if job.capture.scopeEpoch != s.scopes[Scope(c, job.request)]
      then Released(c, s, j, s.shards[c.shardOf(job.request)].cache, NO_DECISION)
      else WithJob(s, j, p.(stage := PassedScope(p.stage.epochAt, s.step)))
    case Postpone(j) =>
      var job := s.jobs[j];
      var cache := s.shards[c.shardOf(job.request)].cache;
      Released(c, s, j, Postponed(cache, job.request, s.now + c.cooldown), job.phase.value)
    case CompleteRevision(j) =>
      var job := s.jobs[j];
      var p, i := job.phase, c.shardOf(job.request);
      var cache := Dropped(s.shards[i].cache, job.request);
      if !RevisionFits(c, p.value, s.revision) then Released(c, s, j, cache, p.value)
      else
        var trail := Trail(p.stage.epochAt, p.stage.scopeAt, Glance(s, a));
        WithJob(WithShard(Noted(s, Glance(s, a)), i, s.shards[i].(cache := cache)), j,
            p.(stage := KnowsRevision(trail)))
    case ReadWall(j) =>
      var p := s.jobs[j].phase;
      WithJob(Noted(s, Glance(s, a)), j, p.(stage := KnowsWall(p.stage.trail, Glance(s, a))))
    case Insert(j) =>
      var job := s.jobs[j];
      var p, i := job.phase, c.shardOf(job.request);
      var lease := Lease(c, job, j, p.value, p.stage.trail, p.stage.wall, Glance(s, a));
      Released(c, Noted(s, Glance(s, a)), j, Inserted(c, s.shards[i].cache, job.request, lease), p.value)
  }

  predicate OfWorld(a: Action) {
    || a.Tick? || a.SetRevision? || a.BumpEpoch? || a.BumpScope? || a.ClearShard? || a.Stop?
    || a.Hire? || a.Ask? || a.Leave?
  }

  predicate WorldMay(c: Config, s: System, a: Action)
    requires Shaped(c, s) && OfWorld(a)
  {
    match a
    case Tick(_) => true
    case SetRevision(_) => true
    case BumpEpoch => true
    case BumpScope(x) => x < SCOPES
    case ClearShard(i) => i < SHARDS && s.shards[i].owner.None?
    case Stop => true
    case Hire(w) => w !in s.workers && !s.stopping
    case Ask(w) => w in s.workers && s.workers[w].Busy? && s.workers[w].gathering
    case Leave(w) => w in s.workers && s.workers[w].Idle? && s.stopping && s.queue == []
  }

  /** Time, the policy, invalidations and the coming and going of workers. */
  function WorldEffect(c: Config, s: System, a: Action): System
    requires Shaped(c, s) && OfWorld(a) && WorldMay(c, s, a)
  {
    match a
    case Tick(d) => s.(now := s.now + d)
    case SetRevision(r) => s.(revision := r)
    case BumpEpoch => s.(epoch := s.epoch + 1, bumps := s.bumps + {Bump(s.step, None)})
    case BumpScope(x) => s.(scopes := s.scopes[x := s.scopes[x] + 1], bumps := s.bumps + {Bump(s.step, Some(x))})
    case ClearShard(i) => WithShard(s, i, s.shards[i].(cache := Lru(map[], [])))
    case Stop => s.(stopping := true)
    case Hire(w) => WithWorker(s, w, Idle)
    case Ask(w) => WithWorker(s, w, s.workers[w].(gathering := false))
    case Leave(w) => WithWorker(s, w, Exited)
  }

  predicate Enabled(c: Config, s: System, a: Action)
    requires Shaped(c, s)
  {
    if OfCall(a) then CallMay(c, s, a)
    else if OfLookup(a) then LookupMay(c, s, a)
    else if OfJob(a) then JobMay(c, s, a)
    else if OfCallback(a) then CallbackMay(c, s, a)
    else WorldMay(c, s, a)
  }

  function Effect(c: Config, s: System, a: Action): System
    requires Shaped(c, s) && Enabled(c, s, a)
  {
    if OfCall(a) then CallEffect(c, s, a)
    else if OfLookup(a) then LookupEffect(c, s, a)
    else if OfJob(a) then JobEffect(c, s, a)
    else if OfCallback(a) then CallbackEffect(c, s, a)
    else WorldEffect(c, s, a)
  }

  ghost predicate Init(c: Config, s: System) {
    && Shaped(c, s) && s.step == 0 && !s.stopping
    && (forall i :: 0 <= i < SHARDS ==> s.shards[i] == ShardState(Lru(map[], []), map[], None))
    && s.jobs == [] && s.queue == [] && s.callers == map[] && s.workers == map[]
    && s.bumps == {} && s.readings == {} && s.grants == {}
  }

  function Counted(s: System): System { s.(step := s.step + 1) }

  function Next(c: Config, s: System, a: Action): System
    requires Shaped(c, s) && Enabled(c, s, a)
  {
    Counted(Effect(c, s, a))
  }

  // ---------------------------------------------------------------------------
  // Invariant
  // ---------------------------------------------------------------------------

  /** A counter value loaded at step `at`: while it is still current, every bump came before. */
  ghost predicate EpochSeen(s: System, v: nat, at: nat) {
    && v <= s.epoch && at < s.step
    && (v == s.epoch ==> forall b :: b in s.bumps && b.scope == None ==> b.at < at)
  }

  ghost predicate ScopeSeen(s: System, x: nat, v: nat, at: nat) {
    && x < |s.scopes| && v <= s.scopes[x] && at < s.step
    && (v == s.scopes[x] ==> forall b :: b in s.bumps && b.scope == Some(x) ==> b.at < at)
  }

  ghost predicate CaptureOk(c: Config, s: System, r: Request, p: Capture) {
    EpochSeen(s, p.epoch, p.epochAt) && ScopeSeen(s, Scope(c, r), p.scopeEpoch, p.scopeAt)
  }

  /** No invalidation of the given kind between the load and the check. */
  ghost predicate Clear(s: System, scope: Option<nat>, loaded: nat, checked: nat) {
    forall b :: b in s.bumps && b.scope == scope ==> b.at < loaded || checked < b.at
  }

  predicate Unanswered(p: JobPhase) { p.Created? || p.Queued? || p.Taken? || p.Completing? }

  ghost predicate JobOk(c: Config, s: System, j: nat)
    requires j < |s.jobs| && |s.shards| == SHARDS && ConfigOk(c)
  {
    var job := s.jobs[j];
    var h := s.shards[c.shardOf(job.request)];
    && CaptureOk(c, s, job.request, job.capture)
    && (job.shared && Unanswered(job.phase) ==> job.request in h.pending && h.pending[job.request] == j)
    && (job.phase.Locked? ==> job.shared && h.owner == Some(Finisher(j)) && job.request !in h.pending)
    && (job.phase.Queued? ==> j in s.queue)
    && (job.phase.Created? ==> job.phase.creator in s.callers && s.callers[job.phase.creator].Submitting?
                               && s.callers[job.phase.creator].job == j)
  }

  ghost predicate EntryOk(c: Config, s: System, k: Request, e: Entry) {
    && e.source < |s.jobs|
    && s.jobs[e.source].request == k
    && e.epoch == s.jobs[e.source].capture.epoch
    && e.scopeEpoch == s.jobs[e.source].capture.scopeEpoch
  }

  ghost predicate CacheOk(c: Config, s: System, i: nat, cache: Lru<Request, Entry>) {
    && Consistent(cache)
    && |cache.entries| <= c.capacity / SHARDS
    && (forall k :: k in cache.entries ==> c.shardOf(k) == i && EntryOk(c, s, k, cache.entries[k]))
  }

  ghost predicate PendingOk(c: Config, s: System, k: Request, j: nat) {
    j < |s.jobs| && s.jobs[j].shared && s.jobs[j].request == k && Unanswered(s.jobs[j].phase)
  }

  ghost predicate OwnerOk(c: Config, s: System, i: nat, o: Option<Actor>) {
    match o
    case None => true
    case Some(Caller(t)) => t in s.callers && s.callers[t].InLookup? && c.shardOf(s.callers[t].call.request) == i
    case Some(Finisher(j)) => j < |s.jobs| && s.jobs[j].phase.Locked? && c.shardOf(s.jobs[j].request) == i
  }

  ghost predicate ShardOk(c: Config, s: System, i: nat)
    requires i < |s.shards|
  {
    var h := s.shards[i];
    && CacheOk(c, s, i, h.cache)
    && |h.pending| <= c.queueCapacity + c.workers
    && (forall k :: k in h.pending ==> c.shardOf(k) == i && PendingOk(c, s, k, h.pending[k]))
    && OwnerOk(c, s, i, h.owner)
  }

  /** A caller is entitled to whatever its job answers. */
  ghost predicate MayUse(s: System, call: Call, j: nat) {
    && j < |s.jobs|
    && SameIdentity(call.request, s.jobs[j].request)
    && (!call.polled ==> call.request == s.jobs[j].request)
  }

  /** After the first load: the epoch was the captured one, and the scope counter had reached
      the captured one and has not been seen to pass it. */
  ghost predicate CheckOk(c: Config, s: System, call: Call, j: nat, k: Check) {
    && MayUse(s, call, j) && call.began <= k.at < s.step
    && (var job := s.jobs[j]; var x := Scope(c, job.request);
        && k.epoch == job.capture.epoch
        && Clear(s, None, job.capture.epochAt, k.at)
        && x < |s.scopes| && job.capture.scopeEpoch <= k.scopeEpoch <= s.scopes[x])
  }

  /** After the second load: both counters were the captured ones at the first. */
  ghost predicate Passed(c: Config, s: System, call: Call, j: nat, k: Check) {
    && CheckOk(c, s, call, j, k)
    && k.scopeEpoch == s.jobs[j].capture.scopeEpoch
    && Clear(s, Some(Scope(c, s.jobs[j].request)), s.jobs[j].capture.scopeAt, k.at)
  }

  ghost predicate CallerOk(c: Config, s: System, t: nat)
    requires t in s.callers && |s.shards| == SHARDS && ConfigOk(c)
  {
    var p := s.callers[t];
    && p.call.began < s.step
    && match p
       case Begun(call) => !call.polled
       case LoadingEpoch(call) => !call.polled
       case LoadingScope(call, e, at) => !call.polled && EpochSeen(s, e, at)
       case Ready(call, capture) => CaptureOk(c, s, call.request, capture) && !call.polled
       case InLookup(call, capture, check) =>
         var h := s.shards[c.shardOf(call.request)];
         && CaptureOk(c, s, call.request, capture) && !call.polled
         && h.owner == Some(Caller(t))
         && call.request in h.cache.entries
         && call.clock.now < h.cache.entries[call.request].expires
         && CheckOk(c, s, call, h.cache.entries[call.request].source, check)
       case Submitting(call, j, _) => MayUse(s, call, j) && s.jobs[j].phase == Created(t)
       case Finishing(call, j, _) => MayUse(s, call, j)
       case Waiting(call, j) => MayUse(s, call, j)
       case Fencing(call, j, check) => CheckOk(c, s, call, j, check)
       case Fenced(call, j, check) => Passed(c, s, call, j, check)
  }

  ghost predicate GrantOk(c: Config, s: System, g: Grant) {
    && Passed(c, s, g.call, g.job, g.check) && g.at < s.step
    && (g.lease.Some? ==> g.lease.value.source == g.job && !g.call.polled && g.call.clock.now < g.lease.value.expires)
  }

  ghost predicate QueueOk(s: System) {
    NoDup(s.queue) && forall j :: j in s.queue ==> j < |s.jobs| && s.jobs[j].phase.Queued?
  }

  ghost predicate Inv(c: Config, s: System) {
    && Shaped(c, s)
    && (forall b :: b in s.bumps ==> b.at < s.step)
    && (forall j {:trigger JobOk(c, s, j)} :: 0 <= j < |s.jobs| ==> JobOk(c, s, j))
    && (forall i {:trigger ShardOk(c, s, i)} :: 0 <= i < SHARDS ==> ShardOk(c, s, i))
    && (forall t {:trigger CallerOk(c, s, t)} :: t in s.callers ==> CallerOk(c, s, t))
    && QueueOk(s)
    && (forall g {:trigger GrantOk(c, s, g)} :: g in s.grants ==> GrantOk(c, s, g))
  }
}
