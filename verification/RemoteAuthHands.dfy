/** Who has each job of the provider: its creator, the queue, a worker, or nobody any more. */
module RemoteAuthHands {
  import opened AuthDecision
  import opened LeaseCache
  import opened RemoteAuth
  import opened RemoteAuthSteps
  import opened RemoteAuthTimes
  import opened Wrappers

  /** The job a caller still has to hand over or to finish itself. */
  function Holds(p: Phase): Option<nat> {
    if p.Submitting? || p.Finishing? then Some(p.job) else None
  }

  function Hand(w: Worker): set<nat> { if w.Busy? then w.jobs else {} }

  ghost predicate JobHeld(s: System, j: nat)
    requires j < |s.jobs|
  {
    match AgentOf(s.jobs[j].phase)
    case None => true
    case Some(ByWorker(w)) => w in s.workers && j in Hand(s.workers[w])
    case Some(ByCaller(t)) => t in s.callers && Holds(s.callers[t]) == Some(j)
  }

  ghost predicate WorkerHolds(s: System, w: nat)
    requires w in s.workers
  {
    && (forall j :: j in Hand(s.workers[w]) ==> j < |s.jobs| && AgentOf(s.jobs[j].phase) == Some(ByWorker(w)))
    && (s.workers[w].Busy? ==> s.workers[w].jobs != {})
    && (s.workers[w].Exited? ==> s.stopping && s.queue == [])
  }

  ghost predicate CallerHolds(s: System, t: nat)
    requires t in s.callers
  {
    var h := Holds(s.callers[t]);
    h.Some? ==> h.value < |s.jobs| && AgentOf(s.jobs[h.value].phase) == Some(ByCaller(t))
  }

  /** Every agent named by a job has it in hand, and every hand holds only jobs that name it. */
  ghost predicate Hands(s: System) {
    && (forall j {:trigger JobHeld(s, j)} :: 0 <= j < |s.jobs| ==> JobHeld(s, j))
    && (forall w {:trigger WorkerHolds(s, w)} :: w in s.workers ==> WorkerHolds(s, w))
    && (forall t {:trigger CallerHolds(s, t)} :: t in s.callers ==> CallerHolds(s, t))
  }

  /** Nobody's hand changes. */
  ghost predicate SameHands(s: System, s': System) {
    && |s'.jobs| == |s.jobs| && (forall j :: 0 <= j < |s.jobs| ==>
        AgentOf(s'.jobs[j].phase) == AgentOf(s.jobs[j].phase))
    && (forall w :: w in s.workers ==> w in s'.workers && Hand(s'.workers[w]) == Hand(s.workers[w]))
    && (forall w :: w in s'.workers ==>
          (if w in s.workers then Hand(s'.workers[w]) == Hand(s.workers[w]) else Hand(s'.workers[w]) == {}))
    && (forall t :: t in s.callers && Holds(s.callers[t]).Some? ==>
          t in s'.callers && Holds(s'.callers[t]) == Holds(s.callers[t]))
    && (forall t :: t in s'.callers && Holds(s'.callers[t]).Some? ==>
          t in s.callers && Holds(s'.callers[t]) == Holds(s.callers[t]))
  }

  lemma HandsKept(s: System, s': System)
    requires Hands(s) && SameHands(s, s')
    requires forall w :: w in s'.workers && s'.workers[w].Busy? ==> w in s.workers && s.workers[w].Busy?
    requires forall w :: w in s'.workers && s'.workers[w].Exited? ==>
      || (w in s.workers && s.workers[w].Exited? && s'.queue == s.queue && s'.stopping == s.stopping)
      || (s'.stopping && s'.queue == [])
    ensures Hands(s')
  {
    forall j | 0 <= j < |s'.jobs| ensures JobHeld(s', j) { assert JobHeld(s, j); }
    forall w | w in s'.workers ensures WorkerHolds(s', w) {
      if w in s.workers { assert WorkerHolds(s, w); }
    }
    forall t | t in s'.callers ensures CallerHolds(s', t) {
      if t in s.callers { assert CallerHolds(s, t); }
    }
  }

  lemma WorldHands(c: Config, s: System, a: Action)
    requires Hands(s) && Shaped(c, s) && OfWorld(a) && WorldMay(c, s, a)
    ensures Hands(Counted(WorldEffect(c, s, a)))
  {
    var s' := Counted(WorldEffect(c, s, a));
    if a.Stop? {
      forall w | w in s.workers ensures s.workers[w].Exited? ==> s.queue == [] { assert WorkerHolds(s, w); }
    }
    HandsKept(s, s');
  }

  lemma CallHands(c: Config, s: System, a: Action)
    requires Hands(s) && Shaped(c, s) && OfCall(a) && CallMay(c, s, a)
    ensures Hands(Counted(CallEffect(c, s, a)))
  {
    var s' := Counted(CallEffect(c, s, a));
    CallShape(c, s, a, s');
    CallHolds(c, s, a, s');
    HandsKept(s, s');
  }

  lemma CallHolds(c: Config, s: System, a: Action, s': System)
    requires Shaped(c, s) && OfCall(a) && CallMay(c, s, a) && s' == Counted(CallEffect(c, s, a))
    ensures a.t in s.callers ==> Holds(s.callers[a.t]).None?
    ensures a.t in s'.callers ==> Holds(s'.callers[a.t]).None?
    ensures forall u :: u != a.t && u in s.callers ==> u in s'.callers
  {
  }

  lemma CallbackHands(c: Config, s: System, a: Action)
    requires Hands(s) && Inv(c, s) && OfCallback(a) && CallbackMay(c, s, a)
    ensures Hands(Counted(CallbackEffect(c, s, a)))
  {
    var s' := Counted(CallbackEffect(c, s, a));
    assert JobOk(c, s, a.job);
    CallbackShape(c, s, a, c.shardOf(s.jobs[a.job].request));
    CallbackAgent(c, s, a, s');
    HandsKept(s, s');
  }

  lemma CallbackAgent(c: Config, s: System, a: Action, s': System)
    requires Shaped(c, s) && OfCallback(a) && CallbackMay(c, s, a) && s' == Counted(CallbackEffect(c, s, a))
    ensures a.job < |s'.jobs| && AgentOf(s'.jobs[a.job].phase) == AgentOf(s.jobs[a.job].phase)
  {
  }

  /** A caller leaves the lookup region, perhaps with a new job in its hand. */
  lemma LeftHands(c: Config, s: System, s': System, t: nat, r: Reading)
    requires Hands(s) && Left(s, s', t, r) && t in s.callers && Holds(s.callers[t]).None?
    requires t in s'.callers && Holds(s'.callers[t]).Some? ==>
        |s.jobs| < |s'.jobs| && Holds(s'.callers[t]) == Some(|s.jobs|)
    requires |s.jobs| < |s'.jobs| ==>
        |s'.jobs| == |s.jobs| + 1 && t in s'.callers && Holds(s'.callers[t]) == Some(|s.jobs|)
    ensures Hands(s')
  {
    assert forall j :: 0 <= j < |s.jobs| ==> s'.jobs[j] == s'.jobs[..|s.jobs|][j];
    forall j | 0 <= j < |s'.jobs| ensures JobHeld(s', j) {
      if j < |s.jobs| { assert JobHeld(s, j); }
    }
    forall w | w in s'.workers ensures WorkerHolds(s', w) { assert WorkerHolds(s, w); }
    forall u | u in s'.callers ensures CallerHolds(s', u) {
      if u != t { assert CallerHolds(s, u); }
    }
  }

  lemma JoinOrCreateHolds(c: Config, s: System, t: nat, call: Call, capture: Capture, hit: bool,
                          cache: Lru<Request, Entry>, r: Reading)
    requires Shaped(c, s)
    ensures var s' := JoinOrCreate(c, s, t, call, capture, hit, cache, r);
      && (t in s'.callers && Holds(s'.callers[t]).Some? ==>
            |s'.jobs| == |s.jobs| + 1 && Holds(s'.callers[t]) == Some(|s.jobs|))
      && (s'.jobs == s.jobs || (|s'.jobs| == |s.jobs| + 1 && t in s'.callers && Holds(s'.callers[t]) == Some(|s.jobs|)))
  {
  }

  lemma HitHolds(c: Config, s: System, t: nat, call: Call, capture: Capture, check: Check, r: Reading)
    requires Shaped(c, s) && call.request in s.shards[c.shardOf(call.request)].cache.entries
    ensures var s' := Hit(c, s, t, call, capture, check, r);
      && (t in s'.callers && Holds(s'.callers[t]).Some? ==>
            |s'.jobs| == |s.jobs| + 1 && Holds(s'.callers[t]) == Some(|s.jobs|))
      && (s'.jobs == s.jobs || (|s'.jobs| == |s.jobs| + 1 && t in s'.callers && Holds(s'.callers[t]) == Some(|s.jobs|)))
  {
    var s1 := s.(grants := Hit(c, s, t, call, capture, check, r).grants);
    JoinOrCreateHolds(c, s1, t, call, capture, true, Touched(s.shards[c.shardOf(call.request)].cache, call.request), r);
  }

  lemma LookupHolds(c: Config, s: System, a: Action)
    requires Shaped(c, s) && OfLookup(a) && LookupMay(c, s, a) && !a.Submit?
    ensures var s' := Counted(LookupEffect(c, s, a));
      && (a.t in s'.callers && Holds(s'.callers[a.t]).Some? ==>
            |s'.jobs| == |s.jobs| + 1 && Holds(s'.callers[a.t]) == Some(|s.jobs|))
      && (|| s'.jobs == s.jobs
          || (|s'.jobs| == |s.jobs| + 1 && a.t in s'.callers && Holds(s'.callers[a.t]) == Some(|s.jobs|)))
  {
    var p, r := s.callers[a.t], Glance(s, a);
    if a.LookupEnter? { EnterHolds(c, s, a.t, p.call, p.capture); }
    else if a.LookupScope? {
      var k := p.call.request;
      HitHolds(c, s, a.t, p.call, p.capture, p.check, r);
      JoinOrCreateHolds(c, s, a.t, p.call, p.capture, false, Dropped(s.shards[c.shardOf(k)].cache, k), r);
    }
  }

  lemma EnterHolds(c: Config, s: System, t: nat, call: Call, capture: Capture)
    requires Shaped(c, s) && LookupMay(c, s, LookupEnter(t)) && s.callers[t] == Ready(call, capture)
    ensures var s' := Counted(LookupEffect(c, s, LookupEnter(t)));
      && (t in s'.callers && Holds(s'.callers[t]).Some? ==>
            |s'.jobs| == |s.jobs| + 1 && Holds(s'.callers[t]) == Some(|s.jobs|))
      && (s'.jobs == s.jobs || (|s'.jobs| == |s.jobs| + 1 && t in s'.callers && Holds(s'.callers[t]) == Some(|s.jobs|)))
  {
    var k, r := call.request, Glance(s, LookupEnter(t));
    JoinOrCreateHolds(c, s, t, call, capture, false, Dropped(s.shards[c.shardOf(k)].cache, k), r);
  }

  lemma LookupHands(c: Config, s: System, a: Action)
    requires Hands(s) && Shaped(c, s) && OfLookup(a) && LookupMay(c, s, a) && !a.Submit?
    ensures Hands(Counted(LookupEffect(c, s, a)))
  {
    var s' := Counted(LookupEffect(c, s, a));
    LookupShape(c, s, a, s');
    LookupHolds(c, s, a);
    LeftHands(c, s, s', a.t, Glance(s, a));
  }

  /** One job changes hands; its old and its new holder are the only ones to notice. */
  ghost predicate Passes(s: System, s': System, j: nat) {
    && j < |s.jobs| == |s'.jobs| && s'.stopping == s.stopping
    && (forall i :: 0 <= i < |s.jobs| && i != j ==> s'.jobs[i] == s.jobs[i])
    && s'.workers.Keys == s.workers.Keys
    && (forall w :: w in s.workers ==> Hand(s'.workers[w]) - {j} == Hand(s.workers[w]) - {j})
    && (forall w :: w in s.workers ==> (j in Hand(s'.workers[w]) <==> AgentOf(s'.jobs[j].phase) == Some(ByWorker(w))))
    && (forall w :: w in s.workers ==> (s'.workers[w].Busy? ==> s'.workers[w].jobs != {}))
    && (forall w :: w in s.workers && s'.workers[w].Exited? ==> s.workers[w].Exited? && s'.queue == s.queue)
    && (forall t :: t in s.callers && Holds(s.callers[t]).Some? && Holds(s.callers[t]) != Some(j) ==>
          t in s'.callers && s'.callers[t] == s.callers[t])
    && (forall t :: t in s'.callers && Holds(s'.callers[t]).Some? && Holds(s'.callers[t]) != Some(j) ==>
          t in s.callers && s'.callers[t] == s.callers[t])
    && (forall t :: t in s'.callers ==>
          (Holds(s'.callers[t]) == Some(j) <==> AgentOf(s'.jobs[j].phase) == Some(ByCaller(t))))
    && (AgentOf(s'.jobs[j].phase).Some? ==>
          match AgentOf(s'.jobs[j].phase).value case ByWorker(w) => w in s.workers case ByCaller(t) => t in s'.callers)
  }

  lemma PassesHands(s: System, s': System, j: nat)
    requires Hands(s) && Passes(s, s', j)
    ensures Hands(s')
  {
    forall i | 0 <= i < |s'.jobs| ensures JobHeld(s', i) {
      assert JobHeld(s, i);
      if i != j && AgentOf(s.jobs[i].phase).Some? && AgentOf(s.jobs[i].phase).value.ByWorker? {
        var w := AgentOf(s.jobs[i].phase).value.w;
        assert i in Hand(s.workers[w]) - {j};
      }
    }
    forall w | w in s'.workers ensures WorkerHolds(s', w) {
      assert WorkerHolds(s, w);
      forall i | i in Hand(s'.workers[w]) ensures i < |s'.jobs| && AgentOf(s'.jobs[i].phase) == Some(ByWorker(w)) {
        if i != j { assert i in Hand(s'.workers[w]) - {j}; }
      }
    }
    forall t | t in s'.callers ensures CallerHolds(s', t) {
      if t in s.callers { assert CallerHolds(s, t); }
    }
  }

  lemma AcceptedHands(c: Config, s: System, t: nat, s': System)
    requires Hands(s) && !s.stopping && t in s.callers && s.callers[t].Submitting? && s.callers[t].job < |s.jobs|
    requires var p := s.callers[t];
      s' == Counted(Proceed(WithJob(s, p.job, Queued).(queue := s.queue + [p.job]), t, p.call, p.job, p.hit))
    ensures Hands(s')
  {
    HeldByCaller(s, t);
    forall w | w in s.workers ensures !s.workers[w].Exited? { assert WorkerHolds(s, w); }
    PassesHands(s, s', s.callers[t].job);
  }

  lemma RefusedHands(c: Config, s: System, t: nat, s': System)
    requires Hands(s) && t in s.callers && s.callers[t].Submitting? && s.callers[t].job < |s.jobs|
    requires var p := s.callers[t];
      s' == Counted(WithPhase(WithJob(s, p.job, Completing(ByCaller(t), NO_DECISION)), t,
          Finishing(p.call, p.job, p.hit)))
    ensures Hands(s')
  {
    HeldByCaller(s, t);
    HandsKept(s, s');
  }

  lemma SubmitHands(c: Config, s: System, t: nat, accepted: bool)
    requires Hands(s) && Inv(c, s) && LookupMay(c, s, Submit(t, accepted))
    ensures Hands(Counted(LookupEffect(c, s, Submit(t, accepted))))
  {
    var s' := Counted(LookupEffect(c, s, Submit(t, accepted)));
    if accepted { AcceptedHands(c, s, t, s'); } else { RefusedHands(c, s, t, s'); }
  }

  /** What a caller has in hand, nobody else has. */
  lemma HeldByCaller(s: System, t: nat)
    requires Hands(s) && t in s.callers && Holds(s.callers[t]).Some?
    ensures var j := Holds(s.callers[t]).value; j < |s.jobs| && AgentOf(s.jobs[j].phase) == Some(ByCaller(t))
    ensures forall u :: u in s.callers && Holds(s.callers[u]) == Holds(s.callers[t]) ==> u == t
    ensures forall w :: w in s.workers ==> Holds(s.callers[t]).value !in Hand(s.workers[w])
    ensures forall w :: w in s.workers && s.workers[w].Busy? ==> s.workers[w].jobs != {}
  {
    assert CallerHolds(s, t);
    forall u | u in s.callers && Holds(s.callers[u]) == Holds(s.callers[t]) ensures u == t { assert CallerHolds(s, u); }
    forall w | w in s.workers
      ensures Holds(s.callers[t]).value !in Hand(s.workers[w]) && (s.workers[w].Busy? ==> s.workers[w].jobs != {})
    {
      assert WorkerHolds(s, w);
    }
  }

  /** A job that names no agent is in no hand. */
  lemma HeldByNobody(s: System, j: nat)
    requires Hands(s) && j < |s.jobs| && AgentOf(s.jobs[j].phase).None?
    ensures forall t :: t in s.callers ==> Holds(s.callers[t]) != Some(j)
    ensures forall w :: w in s.workers ==> j !in Hand(s.workers[w])
    ensures forall w :: w in s.workers && s.workers[w].Busy? ==> s.workers[w].jobs != {}
  {
    forall t | t in s.callers ensures Holds(s.callers[t]) != Some(j) { assert CallerHolds(s, t); }
    forall w | w in s.workers ensures j !in Hand(s.workers[w]) && (s.workers[w].Busy? ==> s.workers[w].jobs != {}) {
      assert WorkerHolds(s, w);
    }
  }

  /** What a worker has in hand, nobody else has. */
  lemma HeldByWorker(s: System, j: nat, w: nat)
    requires Hands(s) && j < |s.jobs| && AgentOf(s.jobs[j].phase) == Some(ByWorker(w))
    ensures w in s.workers && j in Hand(s.workers[w])
    ensures forall t :: t in s.callers ==> Holds(s.callers[t]) != Some(j)
    ensures forall v :: v in s.workers && v != w ==> j !in Hand(s.workers[v])
    ensures forall v :: v in s.workers && s.workers[v].Busy? ==> s.workers[v].jobs != {}
  {
    assert JobHeld(s, j);
    forall t | t in s.callers ensures Holds(s.callers[t]) != Some(j) { assert CallerHolds(s, t); }
    forall v | v in s.workers
      ensures (v != w ==> j !in Hand(s.workers[v])) && (s.workers[v].Busy? ==> s.workers[v].jobs != {})
    {
      assert WorkerHolds(s, v);
    }
  }

  lemma TakeHands(c: Config, s: System, w: nat)
    requires Hands(s) && Inv(c, s) && JobMay(c, s, Take(w))
    ensures Hands(Counted(JobEffect(c, s, Take(w))))
  {
    var s', j := Counted(JobEffect(c, s, Take(w))), s.queue[0];
    assert s.jobs[j].phase.Queued?;
    HeldByNobody(s, j);
    forall v | v in s.workers ensures !s.workers[v].Exited? { assert WorkerHolds(s, v); }
    PassesHands(s, s', j);
  }

  lemma AnswerHands(c: Config, s: System, a: Action)
    requires Hands(s) && Shaped(c, s) && a.Answer? && JobMay(c, s, a)
    ensures Hands(Counted(JobEffect(c, s, a)))
  {
    HandsKept(s, Counted(JobEffect(c, s, a)));
  }

  lemma CompleteEnterHands(c: Config, s: System, j: nat)
    requires Hands(s) && Shaped(c, s) && JobMay(c, s, CompleteEnter(j))
    ensures Hands(Counted(JobEffect(c, s, CompleteEnter(j))))
  {
    var s' := Counted(JobEffect(c, s, CompleteEnter(j)));
    CompleteEnterAgent(c, s, j, s');
    HandsKept(s, s');
  }

  lemma CompleteEnterAgent(c: Config, s: System, j: nat, s': System)
    requires Shaped(c, s) && JobMay(c, s, CompleteEnter(j)) && s' == Counted(JobEffect(c, s, CompleteEnter(j)))
    ensures s'.workers == s.workers && s'.callers == s.callers && s'.queue == s.queue && s'.stopping == s.stopping
    ensures |s'.jobs| == |s.jobs| && forall i :: 0 <= i < |s.jobs| ==>
        AgentOf(s'.jobs[i].phase) == AgentOf(s.jobs[i].phase)
  {
  }

  lemma PublishByCallerHands(c: Config, s: System, j: nat, t: nat, s': System)
    requires Hands(s) && Shaped(c, s) && j < |s.jobs| && s.jobs[j].phase.Publishing?
    requires s.jobs[j].phase.agent == ByCaller(t)
    requires t in s.callers && s.callers[t].Finishing? && s.callers[t].job == j
    requires s' == Counted(Proceed(WithJob(s, j, Finished(s.jobs[j].phase.value, s.step)), t, s.callers[t].call, j,
        s.callers[t].hit))
    ensures Hands(s')
  {
    HeldByCaller(s, t);
    PassesHands(s, s', j);
  }

  lemma PublishByWorkerHands(c: Config, s: System, j: nat, w: nat, s': System)
    requires Hands(s) && Shaped(c, s) && j < |s.jobs| && s.jobs[j].phase.Publishing?
    requires s.jobs[j].phase.agent == ByWorker(w)
    requires w in s.workers && s.workers[w].Busy?
    requires s' == Counted(WithWorker(WithJob(s, j, Finished(s.jobs[j].phase.value, s.step)), w,
        Relieved(s.workers[w], j)))
    ensures Hands(s')
  {
    HeldByWorker(s, j, w);
    PassesHands(s, s', j);
  }

  lemma PublishHands(c: Config, s: System, j: nat)
    requires Hands(s) && Inv(c, s) && JobMay(c, s, Publish(j))
    ensures Hands(Counted(JobEffect(c, s, Publish(j))))
  {
    var s' := Counted(JobEffect(c, s, Publish(j)));
    assert JobHeld(s, j);
    match s.jobs[j].phase.agent
    case ByCaller(t) =>
      assert CallerOk(c, s, t);
      PublishByCallerHands(c, s, j, t, s');
    case ByWorker(w) => PublishByWorkerHands(c, s, j, w, s');
  }

  lemma StepHands(c: Config, s: System, a: Action)
    requires Hands(s) && Inv(c, s) && Enabled(c, s, a)
    ensures Hands(Next(c, s, a))
  {
    if OfCall(a) { CallHands(c, s, a); }
    else if a.Submit? { SubmitHands(c, s, a.t, a.accepted); }
    else if OfLookup(a) {
      if a.LookupScope? || a.LookupEnter? { assert CallerOk(c, s, a.t); }
      LookupHands(c, s, a);
    }
    else if OfCallback(a) { CallbackHands(c, s, a); }
    else if OfWorld(a) { WorldHands(c, s, a); }
    else {
      match a
      case Take(w) => TakeHands(c, s, w);
      case Answer(_, _) => AnswerHands(c, s, a);
      case CompleteEnter(j) => CompleteEnterHands(c, s, j);
      case Publish(j) => PublishHands(c, s, j);
    }
  }
}
