/** What becomes of the service's answers: every value a job carries is the answer it was given, and an
    answer is published, withheld and leased exactly as the counters and the revision say. */
module RemoteAuthAnswers {
  import opened AuthDecision
  import opened LeaseCache
  import opened RemoteAuth
  import opened RemoteAuthRuns
  import opened RemoteAuthSteps
  import opened RemoteAuthTimes
  import opened Wrappers

  /** The decision a job carries since it was answered or given up. */
  function ValueOf(p: JobPhase): Option<Decision> {
    match p
    case Completing(_, v) => Some(v)
    case Locked(_, v, _) => Some(v)
    case Publishing(_, v) => Some(v)
    case Finished(v, _) => Some(v)
    case _ => None
  }

  /** This step moves job j once it carries a decision, or gives it one. */
  predicate ActsOn(a: Action, j: nat) {
    && (|| a.Answer? || a.CompleteEnter? || a.CompleteScope? || a.Postpone? || a.CompleteRevision? || a.ReadWall?
        || a.Insert? || a.Publish?)
    && a.job == j
  }

  lemma JobsKeepOthers(c: Config, s: System, a: Action, j: nat)
    requires Shaped(c, s) && OfJob(a) && JobMay(c, s, a) && j < |s.jobs| && !ActsOn(a, j)
    requires a.Take? ==> s.queue[0] != j
    ensures j < |JobEffect(c, s, a).jobs| && JobEffect(c, s, a).jobs[j] == s.jobs[j]
  {
    if a.Publish? { PublishShape(c, s, a.job, Counted(JobEffect(c, s, a))); }
  }

  lemma CallbackKeepsOthers(c: Config, s: System, a: Action, j: nat)
    requires Shaped(c, s) && OfCallback(a) && CallbackMay(c, s, a) && j < |s.jobs| && a.job != j
    ensures j < |CallbackEffect(c, s, a).jobs| && CallbackEffect(c, s, a).jobs[j] == s.jobs[j]
  {
  }

  /** Whatever does not act on a job that carries a decision leaves it as it is. */
  lemma OthersKeepJob(c: Config, s: System, a: Action, j: nat)
    requires Inv(c, s) && Enabled(c, s, a) && j < |s.jobs| && ValueOf(s.jobs[j].phase).Some? && !ActsOn(a, j)
    ensures j < |Next(c, s, a).jobs| && Next(c, s, a).jobs[j] == s.jobs[j]
  {
    var s' := Next(c, s, a);
    if OfCall(a) { CallShape(c, s, a, s'); }
    else if a.Submit? { assert CallerOk(c, s, a.t); }
    else if OfLookup(a) {
      LookupShape(c, s, a, s');
      assert s'.jobs[..|s.jobs|][j] == s'.jobs[j];
    }
    else if OfJob(a) {
      if a.Take? { assert s.queue[0] in s.queue; }
      JobsKeepOthers(c, s, a, j);
    }
    else if OfCallback(a) { CallbackKeepsOthers(c, s, a, j); }
  }

  /** The revision a completion found is one the answer may be kept under. */
  predicate MayKeep(c: Config, d: Decision, revision: string) {
    c.versioned ==> d.revision != "" && revision in {"", d.revision}
  }

  /** The step is the next one of a job in this phase. */
  predicate PhaseFits(a: Action, p: JobPhase) {
    match a
    case CompleteEnter(_) => p.Completing?
    case CompleteScope(_) => p.Locked? && p.stage.PassedEpoch?
    case Postpone(_) => p.Locked? && p.stage.PassedScope? && !p.value.authoritative
    case CompleteRevision(_) => p.Locked? && p.stage.PassedScope? && p.value.authoritative
    case ReadWall(_) => p.Locked? && p.stage.KnowsRevision?
    case Insert(_) => p.Locked? && p.stage.KnowsWall?
    case Publish(_) => p.Publishing?
    case _ => false
  }

  /** What it makes of the job. */
  function NewPhase(c: Config, s: System, a: Action, job: Job): JobPhase
    requires Shaped(c, s) && PhaseFits(a, job.phase)
  {
    var p := job.phase;
    match a
    case CompleteEnter(_) =>
      if !job.shared then Publishing(p.agent, p.value)
      else if job.capture.epoch != s.epoch then Publishing(p.agent, NO_DECISION)
      else Locked(p.agent, p.value, PassedEpoch(s.step))
    case CompleteScope(_) =>
      if job.capture.scopeEpoch != s.scopes[Scope(c, job.request)] then Publishing(p.agent, NO_DECISION)
      else p.(stage := PassedScope(p.stage.epochAt, s.step))
    case CompleteRevision(_) =>
      if !MayKeep(c, p.value, s.revision) then Publishing(p.agent, p.value)
      else p.(stage := KnowsRevision(Trail(p.stage.epochAt, p.stage.scopeAt, Glance(s, a))))
    case ReadWall(_) => p.(stage := KnowsWall(p.stage.trail, Glance(s, a)))
    case Publish(_) => Finished(p.value, s.step)
    case Postpone(_) => Publishing(p.agent, p.value)
    case Insert(_) => Publishing(p.agent, p.value)
    case _ => p
  }

  lemma CallbackPhase(c: Config, s: System, a: Action)
    requires Shaped(c, s) && OfCallback(a) && CallbackMay(c, s, a)
    ensures PhaseFits(a, s.jobs[a.job].phase) && a.job < |CallbackEffect(c, s, a).jobs|
    ensures CallbackEffect(c, s, a).jobs[a.job] == s.jobs[a.job].(phase := NewPhase(c, s, a, s.jobs[a.job]))
  {
  }

  lemma EnterPhase(c: Config, s: System, a: Action)
    requires Shaped(c, s) && a.CompleteEnter? && JobMay(c, s, a)
    ensures PhaseFits(a, s.jobs[a.job].phase) && a.job < |JobEffect(c, s, a).jobs|
    ensures JobEffect(c, s, a).jobs[a.job] == s.jobs[a.job].(phase := NewPhase(c, s, a, s.jobs[a.job]))
  {
  }

  /** A job that carries a decision moves on as its next step says. */
  lemma ActedOn(c: Config, s: System, a: Action, j: nat, s': System)
    requires IsStep(c, s, a, s') && j < |s.jobs| && ValueOf(s.jobs[j].phase).Some? && ActsOn(a, j)
    ensures PhaseFits(a, s.jobs[j].phase) && j < |s'.jobs|
    ensures s'.jobs[j] == s.jobs[j].(phase := NewPhase(c, s, a, s.jobs[j]))
  {
    if OfCallback(a) { CallbackPhase(c, s, a); }
    else if a.CompleteEnter? { EnterPhase(c, s, a); }
    else if a.Publish? { PublishShape(c, s, j, s'); }
  }

  // ---------------------------------------------------------------------------
  // Every value is an answer
  // ---------------------------------------------------------------------------

  /** What this reply is worth to the machine when it comes. */
  function Worth(c: Config, s: System, reply: Option<Reply>): Decision {
    match reply
    case Some(r) => Parse(r, c.freshLimit, c.ageLimit, s.now + c.offset)
    case None => NO_DECISION
  }

  lemma StepValue(c: Config, s: System, a: Action, j: nat)
    requires Inv(c, s) && Enabled(c, s, a) && j < |Next(c, s, a).jobs| && ValueOf(Next(c, s, a).jobs[j].phase).Some?
    ensures var v := ValueOf(Next(c, s, a).jobs[j].phase).value;
      || v == NO_DECISION
      || (j < |s.jobs| && ValueOf(s.jobs[j].phase) == Some(v))
      || (a.Answer? && a.job == j && v == Worth(c, s, a.reply))
  {
    if j < |s.jobs| && ValueOf(s.jobs[j].phase).Some? {
      if ActsOn(a, j) { ActedOn(c, s, a, j, Next(c, s, a)); } else { OthersKeepJob(c, s, a, j); }
    } else {
      FirstValue(c, s, a, j);
    }
  }

  lemma FirstValue(c: Config, s: System, a: Action, j: nat)
    requires Shaped(c, s) && Enabled(c, s, a) && (j < |s.jobs| ==> ValueOf(s.jobs[j].phase).None?)
    ensures j < |Next(c, s, a).jobs| && ValueOf(Next(c, s, a).jobs[j].phase).Some? ==>
      var v := ValueOf(Next(c, s, a).jobs[j].phase).value;
      v == NO_DECISION || (a.Answer? && a.job == j && v == Worth(c, s, a.reply))
  {
    var s' := Next(c, s, a);
    if OfCall(a) { CallShape(c, s, a, s'); }
    else if OfLookup(a) && !a.Submit? {
      LookupShape(c, s, a, s');
      if j < |s.jobs| { assert s'.jobs[..|s.jobs|][j] == s'.jobs[j]; }
    }
    else if OfCallback(a) { if j < |s.jobs| { CallbackKeepsOthers(c, s, a, j); } else { CallbackAdds(c, s, a); } }
    else { FirstJobValue(c, s, a, j); }
  }

  lemma FirstJobValue(c: Config, s: System, a: Action, j: nat)
    requires Shaped(c, s) && Enabled(c, s, a) && !OfCall(a) && !OfCallback(a) && (OfLookup(a) ==> a.Submit?)
    requires j < |s.jobs| ==> ValueOf(s.jobs[j].phase).None?
    ensures j < |Effect(c, s, a).jobs| && ValueOf(Effect(c, s, a).jobs[j].phase).Some? ==>
      var v := ValueOf(Effect(c, s, a).jobs[j].phase).value;
      v == NO_DECISION || (a.Answer? && a.job == j && v == Worth(c, s, a.reply))
  {
    if a.Publish? { PublishShape(c, s, a.job, Next(c, s, a)); }
  }

  lemma CallbackAdds(c: Config, s: System, a: Action)
    requires Shaped(c, s) && OfCallback(a) && CallbackMay(c, s, a)
    ensures |CallbackEffect(c, s, a).jobs| == |s.jobs|
  {
  }

  /** Step m is the answer that made job j worth this. */
  ghost predicate AnsweredAt(c: Config, run: seq<System>, acts: seq<Action>, m: nat, j: nat, v: Decision) {
    m < |acts| < |run| && acts[m].Answer? && acts[m].job == j && acts[m].reply.Some? && v == Worth(c, run[m],
        acts[m].reply)
  }

  /** Every decision a job ever carries is nothing, or what an earlier answer to that job was worth. */
  lemma {:induction false} ValuesAreAnswers(c: Config, run: seq<System>, acts: seq<Action>, n: nat, j: nat)
    requires IsRun(c, run, acts) && n < |run| && j < |run[n].jobs| && ValueOf(run[n].jobs[j].phase).Some?
    ensures var v := ValueOf(run[n].jobs[j].phase).value;
      v == NO_DECISION || exists m :: 0 <= m < n && AnsweredAt(c, run, acts, m, j, v)
  {
    if n == 0 {
      assert false;
    } else {
      StepValueRun(c, run, acts, n - 1, j);
      var v := ValueOf(run[n].jobs[j].phase).value;
      if v != NO_DECISION && !AnsweredAt(c, run, acts, n - 1, j, v) {
        ValuesAreAnswers(c, run, acts, n - 1, j);
      }
    }
  }

  /** Step m is an intelligible answer to job j, and d says what it says. */
  ghost predicate CarriedFrom(c: Config, run: seq<System>, acts: seq<Action>, m: nat, j: nat, d: Decision) {
    && m < |acts| < |run| && acts[m].Answer? && acts[m].job == j && acts[m].reply.Some?
    && Intelligible(acts[m].reply.value) && Carries(d, acts[m].reply.value, run[m].now + c.offset)
  }

  /** So an authoritative decision, or a permission, is the service's own word. */
  lemma DecisionsAreCarried(c: Config, run: seq<System>, acts: seq<Action>, n: nat, j: nat) returns (m: nat)
    requires IsRun(c, run, acts) && n < |run| && j < |run[n].jobs| && ValueOf(run[n].jobs[j].phase).Some?
    requires var d := ValueOf(run[n].jobs[j].phase).value; d.authoritative || d.result == SUCCESS
    ensures m < n && CarriedFrom(c, run, acts, m, j, ValueOf(run[n].jobs[j].phase).value)
  {
    var d := ValueOf(run[n].jobs[j].phase).value;
    ValuesAreAnswers(c, run, acts, n, j);
    m :| 0 <= m < n && AnsweredAt(c, run, acts, m, j, d);
    ParseCarries(acts[m].reply.value, c.freshLimit, c.ageLimit, run[m].now + c.offset);
  }

  lemma StepValueRun(c: Config, run: seq<System>, acts: seq<Action>, n: nat, j: nat)
    requires IsRun(c, run, acts) && n < |acts| && j < |run[n + 1].jobs| && ValueOf(run[n + 1].jobs[j].phase).Some?
    ensures var v := ValueOf(run[n + 1].jobs[j].phase).value;
      || v == NO_DECISION
      || (j < |run[n].jobs| && ValueOf(run[n].jobs[j].phase) == Some(v))
      || AnsweredAt(c, run, acts, n, j, v)
  {
    RunInvariant(c, run, acts, n);
    StepValue(c, run[n], acts[n], j);
  }

  // ---------------------------------------------------------------------------
  // And every answer is heard
  // ---------------------------------------------------------------------------

  /** What a completion that found both counters current does with the answer in step y, before step n:
      a failure postpones the next attempt, and an answer that may be kept goes on to be leased. */
  ghost predicate Settled(c: Config, run: seq<System>, acts: seq<Action>, y: nat, n: nat, j: nat, d: Decision)
    requires y < n <= |acts| < |run|
  {
    if !d.authoritative then acts[y] == Postpone(j)
    else acts[y] == CompleteRevision(j) && (MayKeep(c, d, run[y].revision) ==>
        exists i :: y < i < n && acts[i] == Insert(j))
  }

  /** What follows from the second counter's load in step x. */
  ghost predicate ScopeSeenAt(c: Config, run: seq<System>, acts: seq<Action>, x: nat, n: nat, j: nat, job: Job,
                              d: Decision, v: Decision)
    requires x < n <= |acts| < |run|
  {
    && acts[x] == CompleteScope(j) && Scope(c, job.request) < |run[x].scopes|
    && if run[x].scopes[Scope(c, job.request)] != job.capture.scopeEpoch then v == NO_DECISION
       else v == d && exists y :: x < y < n && Settled(c, run, acts, y, n, j, d)
  }

  /** What follows from the first counter's load in step e. */
  ghost predicate EpochSeenAt(c: Config, run: seq<System>, acts: seq<Action>, e: nat, n: nat, j: nat, job: Job,
                              d: Decision, v: Decision)
    requires e < n <= |acts| < |run|
  {
    && acts[e] == CompleteEnter(j)
    && if run[e].epoch != job.capture.epoch then v == NO_DECISION
       else exists x :: e < x < n && ScopeSeenAt(c, run, acts, x, n, j, job, d, v)
  }

  /** The value v that job j has come to by step n, after the answer d of step m: the answer itself for a
      job of its caller's own; and for a shared one the answer exactly when both counters were still the
      captured ones as its callback looked. */
  ghost predicate Outcome(c: Config, run: seq<System>, acts: seq<Action>, m: nat, n: nat, j: nat, job: Job, d: Decision,
                          v: Decision)
    requires n <= |acts| < |run|
  {
    if !job.shared then v == d else exists e :: m < e < n && EpochSeenAt(c, run, acts, e, n, j, job, d, v)
  }

  lemma SettledLater(c: Config, run: seq<System>, acts: seq<Action>, y: nat, n: nat, j: nat, d: Decision)
    requires y < n < |acts| < |run| && Settled(c, run, acts, y, n, j, d)
    ensures Settled(c, run, acts, y, n + 1, j, d)
  {
  }

  lemma ScopeSeenLater(c: Config, run: seq<System>, acts: seq<Action>, x: nat, n: nat, j: nat, job: Job, d: Decision,
                       v: Decision)
    requires x < n < |acts| < |run| && ScopeSeenAt(c, run, acts, x, n, j, job, d, v)
    ensures ScopeSeenAt(c, run, acts, x, n + 1, j, job, d, v)
  {
    if y :| x < y < n && Settled(c, run, acts, y, n, j, d) { SettledLater(c, run, acts, y, n, j, d); }
  }

  lemma OutcomeLater(c: Config, run: seq<System>, acts: seq<Action>, m: nat, n: nat, j: nat, job: Job, d: Decision,
                     v: Decision)
    requires n < |acts| < |run| && Outcome(c, run, acts, m, n, j, job, d, v)
    ensures Outcome(c, run, acts, m, n + 1, j, job, d, v)
  {
    if job.shared {
      var e :| m < e < n && EpochSeenAt(c, run, acts, e, n, j, job, d, v);
      if x :| e < x < n && ScopeSeenAt(c, run, acts, x, n, j, job, d, v) {
        ScopeSeenLater(c, run, acts, x, n, j, job, d, v);
      }
      assert EpochSeenAt(c, run, acts, e, n + 1, j, job, d, v);
    }
  }

  /** The checks a completion has behind it: where they were made, and what they found. */
  ghost predicate EpochFound(run: seq<System>, acts: seq<Action>, m: nat, n: nat, j: nat, job: Job, e: nat)
    requires n <= |acts| < |run|
  {
    m < e < n && acts[e] == CompleteEnter(j) && run[e].epoch == job.capture.epoch
  }

  ghost predicate ScopeFound(c: Config, run: seq<System>, acts: seq<Action>, n: nat, j: nat, job: Job, e: nat, x: nat)
    requires n <= |acts| < |run|
  {
    && e < x < n && acts[x] == CompleteScope(j)
    && Scope(c, job.request) < |run[x].scopes| && run[x].scopes[Scope(c, job.request)] == job.capture.scopeEpoch
  }

  ghost predicate StageReached(c: Config, run: seq<System>, acts: seq<Action>, m: nat, n: nat, j: nat, job: Job,
                               d: Decision, stage: Stage)
    requires n <= |acts| < |run|
  {
    match stage
    case PassedEpoch(e) => EpochFound(run, acts, m, n, j, job, e)
    case PassedScope(e, x) => EpochFound(run, acts, m, n, j, job, e) && ScopeFound(c, run, acts, n, j, job, e, x)
    case KnowsRevision(trail) => TrailReached(c, run, acts, m, n, j, job, d, trail)
    case KnowsWall(trail, _) => TrailReached(c, run, acts, m, n, j, job, d, trail)
  }

  ghost predicate TrailReached(c: Config, run: seq<System>, acts: seq<Action>, m: nat, n: nat, j: nat, job: Job,
                               d: Decision, trail: Trail)
    requires n <= |acts| < |run|
  {
    && EpochFound(run, acts, m, n, j, job, trail.epochAt)
    && ScopeFound(c, run, acts, n, j, job, trail.epochAt, trail.scopeAt)
    && trail.scopeAt < trail.revision.at < n && acts[trail.revision.at] == CompleteRevision(j) && d.authoritative
  }

  ghost predicate Progress(c: Config, run: seq<System>, acts: seq<Action>, m: nat, n: nat, j: nat, d: Decision)
    requires n <= |acts| < |run| && j < |run[n].jobs|
  {
    var job := run[n].jobs[j];
    match job.phase
    case Completing(_, v) => v == d
    case Locked(_, v, stage) => job.shared && v == d && StageReached(c, run, acts, m, n, j, job, d, stage)
    case Publishing(_, v) => Outcome(c, run, acts, m, n, j, job, d, v)
    case Finished(v, _) => Outcome(c, run, acts, m, n, j, job, d, v)
    case _ => false
  }

  lemma ConcludeEpoch(c: Config, run: seq<System>, acts: seq<Action>, m: nat, n: nat, j: nat, job: Job, d: Decision)
    requires m < n < |acts| < |run| && job.shared && acts[n] == CompleteEnter(j) && run[n].epoch != job.capture.epoch
    ensures Outcome(c, run, acts, m, n + 1, j, job, d, NO_DECISION)
  {
    assert EpochSeenAt(c, run, acts, n, n + 1, j, job, d, NO_DECISION);
  }

  lemma ConcludeScope(c: Config, run: seq<System>, acts: seq<Action>, m: nat, n: nat, j: nat, job: Job, d: Decision,
                      e: nat)
    requires m < n < |acts| < |run| && job.shared && EpochFound(run, acts, m, n, j, job, e)
    requires acts[n] == CompleteScope(j)
    requires Scope(c, job.request) < |run[n].scopes| && run[n].scopes[Scope(c, job.request)] != job.capture.scopeEpoch
    ensures Outcome(c, run, acts, m, n + 1, j, job, d, NO_DECISION)
  {
    assert ScopeSeenAt(c, run, acts, n, n + 1, j, job, d, NO_DECISION);
    assert EpochSeenAt(c, run, acts, e, n + 1, j, job, d, NO_DECISION);
  }

  lemma ConcludeSettled(c: Config, run: seq<System>, acts: seq<Action>, m: nat, n: nat, j: nat, job: Job, d: Decision,
                        e: nat, x: nat, y: nat)
    requires m < n < |acts| < |run| && job.shared && EpochFound(run, acts, m, n, j, job, e)
    requires ScopeFound(c, run, acts, n, j, job, e, x) && x < y <= n && Settled(c, run, acts, y, n + 1, j, d)
    ensures Outcome(c, run, acts, m, n + 1, j, job, d, d)
  {
    assert ScopeSeenAt(c, run, acts, x, n + 1, j, job, d, d);
    assert EpochSeenAt(c, run, acts, e, n + 1, j, job, d, d);
  }

  /** Step n moves job j as its next step says. */
  ghost predicate MovesOn(c: Config, run: seq<System>, acts: seq<Action>, n: nat, j: nat) {
    && n < |acts| < |run| && Shaped(c, run[n]) && run[n].step == n && j < |run[n].jobs| && j < |run[n + 1].jobs|
    && PhaseFits(acts[n], run[n].jobs[j].phase) && ActsOn(acts[n], j)
    && run[n + 1].jobs[j] == run[n].jobs[j].(phase := NewPhase(c, run[n], acts[n], run[n].jobs[j]))
  }

  lemma EnterProgress(c: Config, run: seq<System>, acts: seq<Action>, m: nat, n: nat, j: nat, d: Decision)
    requires MovesOn(c, run, acts, n, j) && m < n && Progress(c, run, acts, m, n, j, d) && acts[n].CompleteEnter?
    ensures Progress(c, run, acts, m, n + 1, j, d)
  {
    var job := run[n].jobs[j];
    if job.shared && run[n].epoch != job.capture.epoch { ConcludeEpoch(c, run, acts, m, n, j, run[n + 1].jobs[j], d); }
  }

  lemma ScopeProgress(c: Config, run: seq<System>, acts: seq<Action>, m: nat, n: nat, j: nat, d: Decision)
    requires MovesOn(c, run, acts, n, j) && m < n && Progress(c, run, acts, m, n, j, d) && acts[n].CompleteScope?
    ensures Progress(c, run, acts, m, n + 1, j, d)
  {
    var job := run[n].jobs[j];
    if run[n].scopes[Scope(c, job.request)] != job.capture.scopeEpoch {
      ConcludeScope(c, run, acts, m, n, j, run[n + 1].jobs[j], d, job.phase.stage.epochAt);
    }
  }

  lemma RevisionProgress(c: Config, run: seq<System>, acts: seq<Action>, m: nat, n: nat, j: nat, d: Decision)
    requires MovesOn(c, run, acts, n, j) && m < n && Progress(c, run, acts, m, n, j, d)
    requires acts[n].CompleteRevision? || acts[n].Postpone?
    ensures Progress(c, run, acts, m, n + 1, j, d)
  {
    var job := run[n].jobs[j];
    if run[n + 1].jobs[j].phase.Publishing? {
      assert Settled(c, run, acts, n, n + 1, j, d);
      ConcludeSettled(c, run, acts, m, n, j, run[n + 1].jobs[j], d, job.phase.stage.epochAt, job.phase.stage.scopeAt,
          n);
    }
  }

  lemma InsertProgress(c: Config, run: seq<System>, acts: seq<Action>, m: nat, n: nat, j: nat, d: Decision)
    requires MovesOn(c, run, acts, n, j) && m < n && Progress(c, run, acts, m, n, j, d)
    requires acts[n].ReadWall? || acts[n].Insert?
    ensures Progress(c, run, acts, m, n + 1, j, d)
  {
    if acts[n].Insert? {
      var trail := run[n].jobs[j].phase.stage.trail;
      assert Settled(c, run, acts, trail.revision.at, n + 1, j, d);
      ConcludeSettled(c, run, acts, m, n, j, run[n + 1].jobs[j], d, trail.epochAt, trail.scopeAt, trail.revision.at);
    }
  }

  lemma PublishProgress(c: Config, run: seq<System>, acts: seq<Action>, m: nat, n: nat, j: nat, d: Decision)
    requires MovesOn(c, run, acts, n, j) && m < n && Progress(c, run, acts, m, n, j, d) && acts[n].Publish?
    ensures Progress(c, run, acts, m, n + 1, j, d)
  {
    var job := run[n].jobs[j];
    OutcomeLater(c, run, acts, m, n, j, job, d, job.phase.value);
    OutcomeSame(c, run, acts, m, n + 1, j, job, run[n + 1].jobs[j], d, job.phase.value);
  }

  lemma MovedProgress(c: Config, run: seq<System>, acts: seq<Action>, m: nat, n: nat, j: nat, d: Decision)
    requires MovesOn(c, run, acts, n, j) && m < n && Progress(c, run, acts, m, n, j, d)
    ensures Progress(c, run, acts, m, n + 1, j, d)
  {
    var a := acts[n];
    if a.CompleteEnter? { EnterProgress(c, run, acts, m, n, j, d); }
    else if a.CompleteScope? { ScopeProgress(c, run, acts, m, n, j, d); }
    else if a.CompleteRevision? || a.Postpone? { RevisionProgress(c, run, acts, m, n, j, d); }
    else if a.ReadWall? || a.Insert? { InsertProgress(c, run, acts, m, n, j, d); }
    else { PublishProgress(c, run, acts, m, n, j, d); }
  }

  lemma ProgressNext(c: Config, run: seq<System>, acts: seq<Action>, m: nat, n: nat, j: nat, d: Decision)
    requires IsRun(c, run, acts) && m < n < |acts| && j < |run[n].jobs| && Progress(c, run, acts, m, n, j, d)
    ensures j < |run[n + 1].jobs| && Progress(c, run, acts, m, n + 1, j, d)
  {
    if ActsOn(acts[n], j) {
      ActedOnRun(c, run, acts, n, j);
      MovedProgress(c, run, acts, m, n, j, d);
    } else {
      KeptProgress(c, run, acts, m, n, j, d);
    }
  }

  lemma ActedOnRun(c: Config, run: seq<System>, acts: seq<Action>, n: nat, j: nat)
    requires IsRun(c, run, acts) && n < |acts| && j < |run[n].jobs| && ValueOf(run[n].jobs[j].phase).Some?
    requires ActsOn(acts[n], j)
    ensures MovesOn(c, run, acts, n, j)
  {
    StatesAreNumbered(c, run, acts, n);
    ActedOn(c, run[n], acts[n], j, run[n + 1]);
  }

  lemma OutcomeSame(c: Config, run: seq<System>, acts: seq<Action>, m: nat, n: nat, j: nat, job: Job, job': Job,
                    d: Decision, v: Decision)
    requires n <= |acts| < |run| && Outcome(c, run, acts, m, n, j, job, d, v) && job' == job.(phase := job'.phase)
    ensures Outcome(c, run, acts, m, n, j, job', d, v)
  {
    if job.shared {
      var e :| m < e < n && EpochSeenAt(c, run, acts, e, n, j, job, d, v);
      if x :| e < x < n && ScopeSeenAt(c, run, acts, x, n, j, job, d, v) {
        assert ScopeSeenAt(c, run, acts, x, n, j, job', d, v);
      }
      assert EpochSeenAt(c, run, acts, e, n, j, job', d, v);
    }
  }

  lemma KeptProgress(c: Config, run: seq<System>, acts: seq<Action>, m: nat, n: nat, j: nat, d: Decision)
    requires IsRun(c, run, acts) && m < n < |acts| && j < |run[n].jobs| && Progress(c, run, acts, m, n, j, d)
    requires !ActsOn(acts[n], j)
    ensures j < |run[n + 1].jobs| && Progress(c, run, acts, m, n + 1, j, d)
  {
    KeptJob(c, run, acts, n, j);
    SameProgress(c, run, acts, m, n, j, d);
  }

  lemma SameProgress(c: Config, run: seq<System>, acts: seq<Action>, m: nat, n: nat, j: nat, d: Decision)
    requires n < |acts| < |run| && j < |run[n].jobs| && j < |run[n + 1].jobs| && run[n + 1].jobs[j] == run[n].jobs[j]
    requires Progress(c, run, acts, m, n, j, d)
    ensures Progress(c, run, acts, m, n + 1, j, d)
  {
    var job := run[n].jobs[j];
    if job.phase.Publishing? || job.phase.Finished? { OutcomeLater(c, run, acts, m, n, j, job, d, job.phase.value); }
  }

  lemma KeptJob(c: Config, run: seq<System>, acts: seq<Action>, n: nat, j: nat)
    requires IsRun(c, run, acts) && n < |acts| && j < |run[n].jobs| && ValueOf(run[n].jobs[j].phase).Some?
    requires !ActsOn(acts[n], j)
    ensures j < |run[n + 1].jobs| && run[n + 1].jobs[j] == run[n].jobs[j]
  {
    RunInvariant(c, run, acts, n);
    OthersKeepJob(c, run[n], acts[n], j);
  }

  lemma {:induction false} AnswerProgress(c: Config, run: seq<System>, acts: seq<Action>, m: nat, n: nat, j: nat)
    requires IsRun(c, run, acts) && m < n < |run| && acts[m].Answer? && acts[m].job == j
    ensures j < |run[n].jobs| && Progress(c, run, acts, m, n, j, Worth(c, run[m], acts[m].reply))
  {
    if n == m + 1 {
      StatesAreNumbered(c, run, acts, m);
    } else {
      AnswerProgress(c, run, acts, m, n - 1, j);
      ProgressNext(c, run, acts, m, n - 1, j, Worth(c, run[m], acts[m].reply));
    }
  }

  /** A job that was answered and is through its completion has come to exactly what its answer was worth
      when both captured counters were still current as its callback looked, and to nothing otherwise;
      and an authoritative answer that may be kept under the revision found went on to be leased. */
  lemma AnswersAreHeard(c: Config, run: seq<System>, acts: seq<Action>, m: nat, n: nat, j: nat)
    requires IsRun(c, run, acts) && m < n < |run| && acts[m].Answer? && acts[m].job == j
    ensures j < |run[n].jobs| && ValueOf(run[n].jobs[j].phase).Some?
    ensures var job := run[n].jobs[j];
      job.phase.Publishing? || job.phase.Finished? ==>
        Outcome(c, run, acts, m, n, j, job, Worth(c, run[m], acts[m].reply), job.phase.value)
  {
    AnswerProgress(c, run, acts, m, n, j);
  }
}
