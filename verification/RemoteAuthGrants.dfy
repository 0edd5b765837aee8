/** Who is granted what: every grant is a permission the service gave, and every live permission that a
    call comes to is granted. */
module RemoteAuthGrants {
  import opened AuthDecision
  import opened LeaseCache
  import opened RemoteAuth
  import opened RemoteAuthAnswers
  import opened RemoteAuthLeases
  import opened RemoteAuthRuns
  import opened RemoteAuthSteps
  import opened RemoteAuthTheorems
  import opened RemoteAuthTimes
  import opened Wrappers

  // ---------------------------------------------------------------------------
  // Every grant is a permission
  // ---------------------------------------------------------------------------

  /** Every grant was made in the step it names. */
  lemma {:induction false} GrantIsStep(c: Config, run: seq<System>, acts: seq<Action>, n: nat, g: Grant)
    requires IsRun(c, run, acts) && n < |run| && g in run[n].grants
    ensures g.at < n && g !in run[g.at].grants && g in run[g.at + 1].grants
  {
    if n == 0 {
      assert false;
    } else if g in run[n - 1].grants {
      GrantIsStep(c, run, acts, n - 1, g);
    } else {
      NewGrantAt(c, run, acts, n - 1, g);
    }
  }

  lemma NewGrantAt(c: Config, run: seq<System>, acts: seq<Action>, n: nat, g: Grant)
    requires IsRun(c, run, acts) && n < |acts| && g in run[n + 1].grants && g !in run[n].grants
    ensures g.at == n
  {
    RunInvariant(c, run, acts, n);
    StepGrants(c, run[n], acts[n], g);
  }

  /** What a grant made in step n was made from: a lease found in the cache, or its job's own answer. */
  lemma NewGrantFrom(c: Config, run: seq<System>, acts: seq<Action>, n: nat, g: Grant)
    requires IsRun(c, run, acts) && n < |acts| && g in run[n + 1].grants && g !in run[n].grants
    ensures g.job < |run[n].jobs| && g.at == n
    ensures g.lease.Some? ==>
      && WasStored(c, run, acts, g.lease.value) && g.lease.value.mono.at < n
      && g.lease.value.decision.result == SUCCESS && g.lease.value.source == g.job
    ensures g.lease.None? ==>
      && run[n].jobs[g.job].phase.Finished? && run[n].jobs[g.job].phase.value.result == SUCCESS
      && Live(run[n].jobs[g.job].phase.value.expiresAt, c, run[n].now)
  {
    RunStructure(c, run, acts, n);
    StepGrants(c, run[n], acts[n], g);
    if g.lease.Some? { CachedGrant(c, run, acts, n, g.call.request, g); }
  }

  lemma CachedGrant(c: Config, run: seq<System>, acts: seq<Action>, n: nat, k: Request, g: Grant)
    requires IsRun(c, run, acts) && n < |acts| && g.lease.Some? && g in run[n + 1].grants
    requires Cached(run[n], c.shardOf(k), k) && g.lease.value == run[n].shards[c.shardOf(k)].cache.entries[k]
    ensures WasStored(c, run, acts, g.lease.value) && g.lease.value.mono.at < n && g.lease.value.source == g.job
  {
    CachedWasStored(c, run, acts, n, c.shardOf(k), k);
    StoredBefore(c, run, acts, n, c.shardOf(k), k);
    GrantJob(c, run, acts, n + 1, g);
  }

  lemma CachedWasStored(c: Config, run: seq<System>, acts: seq<Action>, n: nat, i: nat, k: Request)
    requires IsRun(c, run, acts) && n < |run| && Cached(run[n], i, k)
    ensures WasStored(c, run, acts, run[n].shards[i].cache.entries[k])
  {
    AllStored(c, run, acts, n);
  }

  lemma GrantJob(c: Config, run: seq<System>, acts: seq<Action>, n: nat, g: Grant)
    requires IsRun(c, run, acts) && n < |run| && g in run[n].grants && g.lease.Some?
    ensures g.lease.value.source == g.job
  {
    RunInvariant(c, run, acts, n);
    assert GrantOk(c, run[n], g);
  }

  /** The decision a grant rests on: its lease's, or the one its job was published with. */
  ghost function GroundOf(s: System, g: Grant): Decision
    requires g.job < |s.jobs| && (g.lease.None? ==> s.jobs[g.job].phase.Finished?)
  {
    if g.lease.Some? then g.lease.value.decision else s.jobs[g.job].phase.value
  }

  /** Step m is the service's answer to the job: a permission in force when it came. */
  ghost predicate PermittedAt(c: Config, run: seq<System>, acts: seq<Action>, m: nat, j: nat) {
    && m < |acts| < |run| && acts[m].Answer? && acts[m].job == j && acts[m].reply.Some?
    && Permits(acts[m].reply.value, run[m].now + c.offset)
  }

  /** Every grant rests on a permission: the service answered its job with one that was intelligible and in
      force, before the grant, and the decision it rests on carries that answer's expiry and revision. A
      grant that is not from the cache is made while that expiry is still ahead. */
  lemma GrantsArePermissions(c: Config, run: seq<System>, acts: seq<Action>, g: Grant) returns (m: nat)
    requires IsRun(c, run, acts) && g in run[|acts|].grants
    ensures m < g.at < |acts| && PermittedAt(c, run, acts, m, g.job)
    ensures g.job < |run[|acts|].jobs| && (g.lease.None? ==> run[|acts|].jobs[g.job].phase.Finished?)
    ensures var d, r := GroundOf(run[|acts|], g), acts[m].reply.value;
      && d.result == SUCCESS && d.expiresAt == ReplyExpiry(r) && d.revision == r.revision
      && (g.lease.None? && ReplyExpiry(r) != 0 ==> run[g.at].now + c.offset < ReplyExpiry(r))
  {
    GrantIsStep(c, run, acts, |acts|, g);
    m := GrantSource(c, run, acts, g);
    RunLater(c, run, acts, g.at, |acts|);
  }

  lemma GrantSource(c: Config, run: seq<System>, acts: seq<Action>, g: Grant) returns (m: nat)
    requires IsRun(c, run, acts) && g.at < |acts| && g !in run[g.at].grants && g in run[g.at + 1].grants
    ensures g.job < |run[g.at].jobs| && (g.lease.None? ==> run[g.at].jobs[g.job].phase.Finished?)
    ensures m < g.at && CarriedFrom(c, run, acts, m, g.job, GroundOf(run[g.at], g))
    ensures GroundOf(run[g.at], g).result == SUCCESS
    ensures g.lease.None? ==> Live(GroundOf(run[g.at], g).expiresAt, c, run[g.at].now)
  {
    NewGrantFrom(c, run, acts, g.at, g);
    m := DecisionsAreCarried(c, run, acts, if g.lease.Some? then g.lease.value.mono.at else g.at, g.job);
  }

  // ---------------------------------------------------------------------------
  // Every permission is granted
  // ---------------------------------------------------------------------------

  lemma ReadDecisionGrants(c: Config, s: System, t: nat)
    requires Shaped(c, s) && CallMay(c, s, ReadDecision(t))
    ensures var p := s.callers[t]; var d := s.jobs[p.job].phase.value;
      CallEffect(c, s, ReadDecision(t)).grants ==
        s.grants + if d.result == SUCCESS && (d.expiresAt == 0 || s.now + c.offset < d.expiresAt)
                   then {Grant(s.step, p.call, p.job, p.check, None)} else {}
  {
  }

  /** A call that has passed its fence and reads its job's decision is granted exactly a permission that has
      not expired. */
  lemma PermissionsAreGranted(c: Config, run: seq<System>, acts: seq<Action>, n: nat, t: nat)
    requires IsRun(c, run, acts) && n < |acts| && acts[n] == ReadDecision(t)
    ensures t in run[n].callers && run[n].callers[t].Fenced?
    ensures var p := run[n].callers[t];
      && p.job < |run[n].jobs| && run[n].jobs[p.job].phase.Finished?
      && var d := run[n].jobs[p.job].phase.value;
      run[n + 1].grants == run[n].grants +
        if d.result == SUCCESS && (d.expiresAt == 0 || run[n].now + c.offset < d.expiresAt)
        then {Grant(n, p.call, p.job, p.check, None)} else {}
  {
    StatesAreNumbered(c, run, acts, n);
    ReadDecisionGrants(c, run[n], t);
  }

  /** What a lookup that needs the service comes to: it joins the pending job for its key; with none, it
      creates one while there is room; and otherwise it goes without. A call that was served anyway waits
      for nothing. */
  ghost predicate Asks(c: Config, s: System, s': System, t: nat, call: Call, capture: Capture, hit: bool)
    requires Shaped(c, s)
  {
    var k, h := call.request, s.shards[c.shardOf(call.request)];
    if k in h.pending
    then s'.jobs == s.jobs && (if hit
        then t !in s'.callers else t in s'.callers && s'.callers[t] == Waiting(call, h.pending[k]))
    else if |h.pending| < c.queueCapacity + c.workers
    then && |s'.jobs| == |s.jobs| + 1 && t in s'.callers && s'.callers[t] == Submitting(call, |s.jobs|, hit)
         && (var job := s'.jobs[|s.jobs|];
             && job.request == k && job.shared && job.capture == capture && job.session == call.session
             && job.phase == Created(t) && job.started.now == s.now)
    else s'.jobs == s.jobs && t !in s'.callers
  }

  lemma JoinOrCreateAsks(c: Config, s: System, t: nat, call: Call, capture: Capture, hit: bool,
                         cache: Lru<Request, Entry>, r: Reading)
    requires Shaped(c, s) && r.now == s.now
    ensures Asks(c, s, Counted(JoinOrCreate(c, s, t, call, capture, hit, cache, r)), t, call, capture, hit)
  {
  }

  /** A miss leaves its key out of the cache, and every other lease as it was. */
  ghost predicate Forgets(c: Config, s: System, s': System, k: Request)
    requires Shaped(c, s)
  {
    && |s'.shards| == |s.shards| && s'.shards[c.shardOf(k)].cache.entries == s.shards[c.shardOf(k)].cache.entries - {k}
    && s'.shards[c.shardOf(k)].owner == None
  }

  lemma MissForgets(c: Config, s: System, t: nat, call: Call, capture: Capture, r: Reading)
    requires Shaped(c, s)
    ensures Forgets(c, s, Counted(Miss(c, s, t, call, capture, r)), call.request)
  {
    var cache := Dropped(s.shards[c.shardOf(call.request)].cache, call.request);
    JoinOrCreateShards(c, s, t, call, capture, false, cache, r, Counted(Miss(c, s, t, call, capture, r)));
    JoinOrCreateFrees(c, s, t, call, capture, false, cache, r);
  }

  lemma JoinOrCreateFrees(c: Config, s: System, t: nat, call: Call, capture: Capture, hit: bool,
                          cache: Lru<Request, Entry>, r: Reading)
    requires Shaped(c, s)
    ensures var s' := JoinOrCreate(c, s, t, call, capture, hit, cache, r);
      |s'.shards| == |s.shards| && s'.shards[c.shardOf(call.request)].owner == None
  {
  }

  /** A hit keeps every lease, its own as the latest used, and frees the lock. */
  ghost predicate Refreshes(c: Config, s: System, s': System, k: Request)
    requires Shaped(c, s)
  {
    && |s'.shards| == |s.shards| && s'.shards[c.shardOf(k)].cache.entries == s.shards[c.shardOf(k)].cache.entries
    && s'.shards[c.shardOf(k)].cache.order != [] && s'.shards[c.shardOf(k)].cache.order[0] == k
    && s'.shards[c.shardOf(k)].owner == None
  }

  lemma HitRefreshes(c: Config, s: System, t: nat, call: Call, capture: Capture, check: Check, r: Reading)
    requires Shaped(c, s) && call.request in s.shards[c.shardOf(call.request)].cache.entries
    ensures Refreshes(c, s, Counted(Hit(c, s, t, call, capture, check, r)), call.request)
  {
    var k, s' := call.request, Counted(Hit(c, s, t, call, capture, check, r));
    var h := s.shards[c.shardOf(k)];
    if !(call.clock.now < h.cache.entries[k].freshUntil || call.clock.now < h.cache.entries[k].retryAfter) {
      var e := h.cache.entries[k];
      var s1 := s.(grants := s.grants + if e.decision.result == SUCCESS
                             then {Grant(s.step, call, e.source, check, Some(e))} else {});
      JoinOrCreateShards(c, s1, t, call, capture, true, Touched(h.cache, k), r, s');
      JoinOrCreateFrees(c, s1, t, call, capture, true, Touched(h.cache, k), r);
    }
  }

  /** A lookup finds a lease under its key that by its clock reading is not over and whose epoch is current,
      and goes on to the second counter with the lock held; or it asks the service. */
  lemma LookupEnters(c: Config, s: System, t: nat)
    requires Shaped(c, s) && LookupMay(c, s, LookupEnter(t))
    ensures var p, s' := s.callers[t], Counted(LookupEffect(c, s, LookupEnter(t)));
      var k, h := p.call.request, s.shards[c.shardOf(p.call.request)];
      if k in h.cache.entries && p.call.clock.now < h.cache.entries[k].expires && h.cache.entries[k].epoch == s.epoch
      then && t in s'.callers && s'.callers[t].InLookup? && s'.callers[t].call == p.call && s'.jobs == s.jobs
           && |s'.shards| == |s.shards| && s'.shards[c.shardOf(k)] == h.(owner := Some(Caller(t)))
      else Asks(c, s, s', t, p.call, p.capture, false) && Forgets(c, s, s', k)
  {
    var p := s.callers[t];
    var k := p.call.request;
    MissForgets(c, s, t, p.call, p.capture, Glance(s, LookupEnter(t)));
    JoinOrCreateAsks(c, s, t, p.call, p.capture, false, Dropped(s.shards[c.shardOf(k)].cache, k),
        Glance(s, LookupEnter(t)));
  }

  ghost predicate Served(c: Config, s: System, s': System, t: nat, call: Call, capture: Capture, check: Check, e: Entry)
    requires Shaped(c, s)
  {
    && s'.grants == s.grants + (if e.decision.result == SUCCESS
        then {Grant(s.step, call, e.source, check, Some(e))} else {})
    && if call.clock.now < e.freshUntil || call.clock.now < e.retryAfter
       then s'.jobs == s.jobs && t !in s'.callers else Asks(c, s, s', t, call, capture, true)
  }

  lemma HitServes(c: Config, s: System, t: nat, call: Call, capture: Capture, check: Check, r: Reading)
    requires Shaped(c, s) && call.request in s.shards[c.shardOf(call.request)].cache.entries && r.now == s.now
    ensures Served(c, s, Counted(Hit(c, s, t, call, capture, check, r)), t, call, capture, check,
                   s.shards[c.shardOf(call.request)].cache.entries[call.request])
  {
    var h := s.shards[c.shardOf(call.request)];
    var e := h.cache.entries[call.request];
    var s1 := s.(grants := s.grants + if e.decision.result == SUCCESS
        then {Grant(s.step, call, e.source, check, Some(e))} else {});
    JoinOrCreateAsks(c, s1, t, call, capture, true, Touched(h.cache, call.request), r);
    JoinOrCreateLeftGrants(c, s1, t, call, capture, true, Touched(h.cache, call.request), r);
  }

  lemma JoinOrCreateLeftGrants(c: Config, s: System, t: nat, call: Call, capture: Capture, hit: bool,
                               cache: Lru<Request, Entry>, r: Reading)
    requires Shaped(c, s)
    ensures JoinOrCreate(c, s, t, call, capture, hit, cache, r).grants == s.grants
  {
  }

  /** A lookup whose second counter is current too is served the lease it found: a permission is granted, and
      the service is asked again exactly when the lease is stale and no failed attempt is recent. One whose
      counter is not asks the service. */
  lemma LookupServes(c: Config, run: seq<System>, acts: seq<Action>, n: nat, t: nat)
    requires IsRun(c, run, acts) && n < |acts| && acts[n] == LookupScope(t)
    ensures Shaped(c, run[n]) && t in run[n].callers && run[n].callers[t].InLookup?
    ensures var p, s := run[n].callers[t], run[n];
      var k := p.call.request; var entries := s.shards[c.shardOf(k)].cache.entries;
      && k in entries && run[n].step == n
      && if entries[k].scopeEpoch == s.scopes[Scope(c, k)]
         then Served(c, s, run[n + 1], t, p.call, p.capture, p.check, entries[k]) && Refreshes(c, s, run[n + 1], k)
         else && Asks(c, s, run[n + 1], t, p.call, p.capture, false) && Forgets(c, s, run[n + 1], k)
              && run[n + 1].grants == s.grants
  {
    StatesAreNumbered(c, run, acts, n);
    LookupScopeServes(c, run[n], t, run[n + 1]);
  }

  lemma LookupScopeServes(c: Config, s: System, t: nat, s': System)
    requires IsStep(c, s, LookupScope(t), s')
    ensures var p := s.callers[t]; var k := p.call.request; var entries := s.shards[c.shardOf(k)].cache.entries;
      if entries[k].scopeEpoch == s.scopes[Scope(c, k)]
      then Served(c, s, s', t, p.call, p.capture, p.check, entries[k]) && Refreshes(c, s, s', k)
      else Asks(c, s, s', t, p.call, p.capture, false) && Forgets(c, s, s', k) && s'.grants == s.grants
  {
    var p, r := s.callers[t], Glance(s, LookupScope(t));
    var k := p.call.request;
    var cache := s.shards[c.shardOf(k)].cache;
    if cache.entries[k].scopeEpoch == s.scopes[Scope(c, k)] {
      HitServes(c, s, t, p.call, p.capture, p.check, r);
      HitRefreshes(c, s, t, p.call, p.capture, p.check, r);
    } else {
      MissForgets(c, s, t, p.call, p.capture, r);
      JoinOrCreateAsks(c, s, t, p.call, p.capture, false, Dropped(cache, k), r);
      JoinOrCreateLeftGrants(c, s, t, p.call, p.capture, false, Dropped(cache, k), r);
    }
  }

  // ---------------------------------------------------------------------------
  // Every call was made
  // ---------------------------------------------------------------------------

  /** The step in which a call began is the one that asked for it, with its request, its session and the
      job it polls, while its session had not expired. */
  ghost predicate Asked(c: Config, run: seq<System>, acts: seq<Action>, call: Call) {
    && call.began < |acts| < |run|
    && (call.session == 0 || run[call.began].now + c.offset < call.session)
    && match acts[call.began]
       case Begin(_, request, session, waits) =>
         !call.polled && call.request == request && call.session == session && call.waits == waits
       case Poll(_, _, request, session) =>
         call.polled && call.request == request && call.session == session && !call.waits
       case _ => false
  }

  /** A polled call looks at the job it was asked to poll. */
  ghost predicate AskedFor(acts: seq<Action>, call: Call, j: nat) {
    call.polled ==> call.began < |acts| && acts[call.began].Poll? && acts[call.began].job == j
  }

  ghost predicate PhaseAsked(c: Config, run: seq<System>, acts: seq<Action>, p: Phase) {
    && Asked(c, run, acts, p.call)
    && (p.Waiting? || p.Fencing? || p.Fenced? ==> AskedFor(acts, p.call, p.job))
    && (p.Submitting? || p.Finishing? ==> !p.call.polled)
    && (!p.Begun? ==> ClockRead(p.call))
  }

  /** The clock a call compares leases with was read by a step of its own, after it began. */
  ghost predicate ClockRead(call: Call) { !call.polled ==> call.clock.act.ReadClock? }

  ghost predicate CallsAsked(c: Config, run: seq<System>, acts: seq<Action>, n: nat)
    requires n < |run|
  {
    && (forall t {:trigger run[n].callers[t]} :: t in run[n].callers ==> PhaseAsked(c, run, acts, run[n].callers[t]))
    && (forall g {:trigger g in run[n].grants} :: g in run[n].grants ==>
          Asked(c, run, acts, g.call) && ClockRead(g.call) && (g.lease.None? ==> AskedFor(acts, g.call, g.job)))
  }

  lemma OwnCall(c: Config, s: System, a: Action, s': System)
    requires IsStep(c, s, a, s') && OfCall(a) && a.t in s'.callers
    ensures var p := s'.callers[a.t];
      || (&& a.t in s.callers && p.call == s.callers[a.t].call.(clock := p.call.clock)
          && (p.Waiting? || p.Fencing? || p.Fenced? ==>
                (s.callers[a.t].Waiting? || s.callers[a.t].Fencing?) && p.job == s.callers[a.t].job))
      || (a.Begin? && p == Begun(Call(a.request, a.session, p.call.checked, p.call.clock, s.step, a.waits, false))
          && Live(a.session, c, s.now))
      || (a.Poll? && p == Waiting(Call(a.request, a.session, p.call.checked, p.call.clock, s.step, false, true), a.job)
          && Live(a.session, c, s.now))
    ensures !s'.callers[a.t].Submitting? && !s'.callers[a.t].Finishing?
    ensures var p := s'.callers[a.t];
      p.Begun? || p.call.polled || p.call.clock.act.ReadClock?
      || (a.t in s.callers && !s.callers[a.t].Begun? && p.call == s.callers[a.t].call)
  {
  }

  lemma CallerAsked(c: Config, run: seq<System>, acts: seq<Action>, n: nat, t: nat)
    requires IsRun(c, run, acts) && n < |acts| && CallsAsked(c, run, acts, n) && t in run[n + 1].callers
    ensures PhaseAsked(c, run, acts, run[n + 1].callers[t])
  {
    RunStructure(c, run, acts, n);
    CallerAskedStep(c, run, acts, n, t);
  }

  lemma CallerAskedStep(c: Config, run: seq<System>, acts: seq<Action>, n: nat, t: nat)
    requires IsRun(c, run, acts) && n < |acts| && CallsAsked(c, run, acts, n) && t in run[n + 1].callers
    requires Inv(c, run[n]) && run[n].step == n
    ensures PhaseAsked(c, run, acts, run[n + 1].callers[t])
  {
    assert t in run[n].callers ==> PhaseAsked(c, run, acts, run[n].callers[t]);
    if OfCall(acts[n]) && t == acts[n].t { OwnAsked(c, run, acts, n, t); }
    else if !(t in run[n].callers && run[n + 1].callers[t] == run[n].callers[t]) { OtherAsked(c, run, acts, n, t); }
  }

  lemma OtherAsked(c: Config, run: seq<System>, acts: seq<Action>, n: nat, t: nat)
    requires IsRun(c, run, acts) && n < |acts| && t in run[n + 1].callers && Inv(c, run[n])
    requires t in run[n].callers ==> PhaseAsked(c, run, acts, run[n].callers[t])
    requires !(OfCall(acts[n]) && t == acts[n].t)
    requires !(t in run[n].callers && run[n + 1].callers[t] == run[n].callers[t])
    ensures PhaseAsked(c, run, acts, run[n + 1].callers[t])
  {
    MovedCaller(c, run[n], acts[n], run[n + 1], t);
  }

  lemma OwnAsked(c: Config, run: seq<System>, acts: seq<Action>, n: nat, t: nat)
    requires IsRun(c, run, acts) && n < |acts| && CallsAsked(c, run, acts, n) && t in run[n + 1].callers
    requires OfCall(acts[n]) && acts[n].t == t && run[n].step == n
    ensures PhaseAsked(c, run, acts, run[n + 1].callers[t])
  {
    OwnCall(c, run[n], acts[n], run[n + 1]);
    assert t in run[n].callers ==> PhaseAsked(c, run, acts, run[n].callers[t]);
  }

  /** A caller moved by anything but a step of its own outside the lock is not polling. */
  lemma MovedCaller(c: Config, s: System, a: Action, s': System, t: nat)
    requires Inv(c, s) && IsStep(c, s, a, s') && t in s'.callers && !(OfCall(a) && t == a.t)
    requires !(t in s.callers && s'.callers[t] == s.callers[t])
    requires t in s.callers && (s.callers[t].Submitting? || s.callers[t].Finishing?) ==> !s.callers[t].call.polled
    ensures t in s.callers && !s.callers[t].call.polled && s'.callers[t].call == s.callers[t].call
    ensures !s.callers[t].Begun?
  {
    if OfCall(a) { CallShape(c, s, a, s'); assert false; }
    else if a.Submit? { SubmitCaller(c, s, a, s'); }
    else if OfLookup(a) { assert CallerOk(c, s, a.t); LookupShape(c, s, a, s'); }
    else if a.Publish? { PublishOwner(c, s, a.job, s', t); }
    else { NoCallerMoved(c, s, a, s'); }
  }

  lemma SubmitCaller(c: Config, s: System, a: Action, s': System)
    requires IsStep(c, s, a, s') && a.Submit?
    ensures forall u :: u in s'.callers ==> u in s.callers && s'.callers[u].call == s.callers[u].call
    ensures forall u :: u in s'.callers && u != a.t ==> s'.callers[u] == s.callers[u]
    ensures s.callers[a.t].Submitting?
  {
  }

  lemma PublishOwner(c: Config, s: System, j: nat, s': System, t: nat)
    requires IsStep(c, s, Publish(j), s') && t in s'.callers && !(t in s.callers && s'.callers[t] == s.callers[t])
    ensures t in s.callers && s.callers[t].Finishing? && s'.callers[t].call == s.callers[t].call
  {
  }

  lemma NoCallerMoved(c: Config, s: System, a: Action, s': System)
    requires IsStep(c, s, a, s') && !OfCall(a) && !OfLookup(a) && !a.Publish?
    ensures s'.callers == s.callers
  {
    if OfCallback(a) { CallbackCallers(c, s, a); }
  }

  lemma NewGrantCall(c: Config, s: System, a: Action, g: Grant)
    requires Inv(c, s) && Enabled(c, s, a) && g in Next(c, s, a).grants && g !in s.grants
    ensures (a.LookupScope? || a.ReadDecision?) && a.t in s.callers && g.call == s.callers[a.t].call
    ensures !s.callers[a.t].Begun?
    ensures g.lease.None? ==> s.callers[a.t].Fenced? && g.job == s.callers[a.t].job
  {
    StepGrants(c, s, a, g);
    if a.ReadDecision? { ReadJob(c, s, a.t, g); }
  }

  lemma ReadJob(c: Config, s: System, t: nat, g: Grant)
    requires Shaped(c, s) && CallMay(c, s, ReadDecision(t)) && g in CallEffect(c, s, ReadDecision(t)).grants
    requires g !in s.grants
    ensures s.callers[t].Fenced? && g.job == s.callers[t].job
  {
  }

  lemma GrantAsked(c: Config, run: seq<System>, acts: seq<Action>, n: nat, g: Grant)
    requires IsRun(c, run, acts) && n < |acts| && CallsAsked(c, run, acts, n) && g in run[n + 1].grants
    ensures Asked(c, run, acts, g.call) && ClockRead(g.call) && (g.lease.None? ==> AskedFor(acts, g.call, g.job))
  {
    if g !in run[n].grants { GrantCall(c, run, acts, n, g); }
  }

  lemma GrantCall(c: Config, run: seq<System>, acts: seq<Action>, n: nat, g: Grant)
    requires IsRun(c, run, acts) && n < |acts| && g in run[n + 1].grants && g !in run[n].grants
    ensures (acts[n].LookupScope? || acts[n].ReadDecision?) && acts[n].t in run[n].callers
    ensures g.call == run[n].callers[acts[n].t].call && !run[n].callers[acts[n].t].Begun?
    ensures g.lease.None? ==> run[n].callers[acts[n].t].Fenced? && g.job == run[n].callers[acts[n].t].job
  {
    RunInvariant(c, run, acts, n);
    NewGrantCall(c, run[n], acts[n], g);
  }

  /** Every grant went to a call that was made as it stands, while its session had not expired, and for the
      job it asked about when it polls. */
  lemma {:induction false} CallsAreAsked(c: Config, run: seq<System>, acts: seq<Action>, n: nat)
    requires IsRun(c, run, acts) && n < |run|
    ensures CallsAsked(c, run, acts, n)
  {
    if n > 0 {
      CallsAreAsked(c, run, acts, n - 1);
      forall t | t in run[n].callers ensures PhaseAsked(c, run, acts, run[n].callers[t]) {
        CallerAsked(c, run, acts, n - 1, t);
      }
      forall g {:trigger g in run[n].grants} | g in run[n].grants
        ensures Asked(c, run, acts, g.call) && ClockRead(g.call) && (g.lease.None? ==> AskedFor(acts, g.call, g.job))
      {
        GrantAsked(c, run, acts, n - 1, g);
      }
    }
  }
}
