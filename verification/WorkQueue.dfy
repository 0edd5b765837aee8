/** The byte-bounded work queue, the workers that empty it, and the batches they form. */
module WorkQueue {
  import opened Basics

  /** A job is numbered by its place among the accepted ones. */
  datatype Job = Job(id: nat, authorize: bool, size: nat)

  datatype Limits = Limits(capacity: nat, byteLimit: nat, batchSize: nat, batchBytes: nat, grpc: bool)

  const OVERHEAD: nat := 32

  function Bytes(q: seq<Job>): nat {
    if q == [] then 0 else q[0].size + Bytes(q[1..])
  }

  /** What a batch weighs on the wire. */
  function Weight(q: seq<Job>): nat {
    if q == [] then 0 else q[0].size + OVERHEAD + Weight(q[1..])
  }

  lemma {:induction false} BytesAppend(q: seq<Job>, r: seq<Job>)
    ensures Bytes(q + r) == Bytes(q) + Bytes(r)
    ensures Weight(q + r) == Weight(q) + Weight(r)
  {
    if q == [] {
      assert q + r == r;
    } else {
      assert (q + r)[1..] == q[1..] + r;
      BytesAppend(q[1..], r);
    }
  }

  predicate Accepts(l: Limits, q: seq<Job>, bytes: nat, stopping: bool, j: Job) {
    && !stopping && |q| < l.capacity && bytes + j.size <= l.byteLimit
    && (l.grpc && j.authorize ==> j.size + OVERHEAD <= l.batchBytes)
  }

  /** How many jobs at the front of the queue still fit a batch of `n` jobs weighing `w`. */
  function Fit(l: Limits, q: seq<Job>, n: nat, w: nat): nat {
    if q == [] || n >= l.batchSize || !q[0].authorize || w + q[0].size + OVERHEAD > l.batchBytes then 0
    else 1 + Fit(l, q[1..], n + 1, w + q[0].size + OVERHEAD)
  }

  /** They are authorize jobs, they fit both limits, and the job after them does not belong. */
  lemma {:induction false} FitIsLongest(l: Limits, q: seq<Job>, n: nat, w: nat)
    ensures var k := Fit(l, q, n, w);
      && k <= |q|
      && (forall i :: 0 <= i < k ==> q[i].authorize)
      && (n <= l.batchSize ==> n + k <= l.batchSize)
      && (w <= l.batchBytes ==> w + Weight(q[..k]) <= l.batchBytes)
      && (k < |q| ==>
            !q[k].authorize || n + k >= l.batchSize || w + Weight(q[..k]) + q[k].size + OVERHEAD > l.batchBytes)
  {
    var k := Fit(l, q, n, w);
    if k > 0 {
      FitIsLongest(l, q[1..], n + 1, w + q[0].size + OVERHEAD);
      assert q[..k][1..] == q[1..][..k - 1];
    }
  }

  lemma OneMore(q: seq<Job>, k: nat)
    requires k < |q|
    ensures q[..k + 1] == q[..k] + [q[k]] && q[k..][0] == q[k] && q[k..][1..] == q[k + 1..]
    ensures Bytes(q[k..]) == q[k].size + Bytes(q[k + 1..])
  {
  }

  class Queue {
    const l: Limits
    var queue: seq<Job>
    var bytes: nat
    var stopping: bool

    ghost predicate Valid() reads this {
      bytes == Bytes(queue) <= l.byteLimit && |queue| <= l.capacity
    }

    constructor (l: Limits)
      ensures Valid() && queue == [] && !stopping && this.l == l
    {
      this.l := l;
      queue, bytes, stopping := [], 0, false;
    }

    method Enqueue(j: Job) returns (ok: bool)
      requires Valid()
      modifies this
      ensures Valid() && stopping == old(stopping)
      ensures ok == Accepts(l, old(queue), old(bytes), stopping, j)
      ensures ok <==> !stopping && |old(queue) + [j]| <= l.capacity && Bytes(old(queue) + [j]) <= l.byteLimit
                      && (l.grpc && j.authorize ==> Weight([j]) <= l.batchBytes)
      ensures queue == if ok then old(queue) + [j] else old(queue)
    {
      BytesAppend(queue, [j]);
      // The unsigned subtraction of the source cannot wrap: bytes is within its limit.
      if stopping || |queue| >= l.capacity || j.size > l.byteLimit - bytes ||
         (l.grpc && j.authorize && j.size + OVERHEAD > l.batchBytes) {
        return false;
      }
      bytes := bytes + j.size;
      queue := queue + [j];
      return true;
    }

    method PopFront() returns (j: Job)
      requires Valid() && queue != []
      modifies this
      ensures Valid() && stopping == old(stopping)
      ensures [j] + queue == old(queue)
    {
      j := queue[0];
      queue := queue[1..];
      bytes := bytes - j.size;
    }

    /** The second critical section of a worker that took an authorize job: fill the batch. */
    method Gather(first: Job) returns (batch: seq<Job>)
      requires Valid()
      modifies this
      ensures Valid() && stopping == old(stopping)
      ensures var k := Fit(l, old(queue), 1, first.size + OVERHEAD);
        k <= |old(queue)| && batch == [first] + old(queue)[..k] && queue == old(queue)[k..]
    {
      batch := [first];
      var w: nat := first.size + OVERHEAD;
      ghost var q0, k := queue, 0;
      FitIsLongest(l, q0, 1, w);
      while queue != [] && |batch| < l.batchSize && queue[0].authorize
        invariant Valid() && stopping == old(stopping)
        invariant k <= |q0| && |batch| == k + 1
        invariant batch == [first] + q0[..k] && queue == q0[k..]
        invariant Fit(l, q0, 1, first.size + OVERHEAD) == k + Fit(l, queue, k + 1, w)
        decreases |queue|
      {
        var next := queue[0];
        OneMore(q0, k);
        if w + next.size + OVERHEAD > l.batchBytes { break; }
        w := w + next.size + OVERHEAD;
        bytes := bytes - next.size;
        batch := batch + [next];
        queue := queue[1..];
        k := k + 1;
      }
    }
  }

  // ---------------------------------------------------------------------------
  // Several workers
  // ---------------------------------------------------------------------------

  /** A worker between its critical sections; the numbers index the log of batches. */
  datatype Worker = Waiting | Gathering(batch: nat) | Holding(batch: nat) | Exited

  datatype System = System(queue: seq<Job>, bytes: nat, stopping: bool, workers: map<nat, Worker>,
                           accepted: seq<Job>, taken: seq<Job>, batches: seq<seq<Job>>)

  datatype Action =
    | Submit(authorize: bool, size: nat)
    | Stop
    | Start(w: nat)
    | TakeFirst(w: nat, late: bool)
    | Fill(w: nat)
    | Finish(w: nat)
    | Exit(w: nat)

  predicate Enabled(l: Limits, s: System, a: Action) {
    match a
    case Submit(authorize, size) => true
    case Stop => true
    case Start(w) => w !in s.workers && !s.stopping
    case TakeFirst(w, _) => w in s.workers && s.workers[w].Waiting? && s.queue != []
    case Fill(w) =>
      && w in s.workers && s.workers[w].Gathering?
      && s.workers[w].batch < |s.batches| && s.batches[s.workers[w].batch] != []
    case Finish(w) => w in s.workers && s.workers[w].Holding?
    case Exit(w) => w in s.workers && s.workers[w].Waiting? && s.stopping && s.queue == []
  }

  /** What is subtracted from the byte count has been added to it: `Fifo` rules the second case out. */
  function Less(bytes: nat, n: nat): nat { if n <= bytes then bytes - n else 0 }

  function Next(l: Limits, s: System, a: Action): System
    requires Enabled(l, s, a)
  {
    match a
    case Submit(authorize, size) =>
      var j := Job(|s.accepted|, authorize, size);
      if Accepts(l, s.queue, s.bytes, s.stopping, j)
      then s.(queue := s.queue + [j], bytes := s.bytes + size, accepted := s.accepted + [j])
      else s
    case Stop => s.(stopping := true)
    case Start(w) => s.(workers := s.workers[w := Waiting])
    case TakeFirst(w, late) =>
      var j := s.queue[0];
      s.(queue := s.queue[1..], bytes := Less(s.bytes, j.size),
         taken := s.taken + [j], batches := s.batches + [[j]],
         workers := s.workers[w := if l.grpc && j.authorize && !late
             then Gathering(|s.batches|) else Holding(|s.batches|)])
    case Fill(w) =>
      var b := s.workers[w].batch;
      FitIsLongest(l, s.queue, 1, s.batches[b][0].size + OVERHEAD);
      var k := Fit(l, s.queue, 1, s.batches[b][0].size + OVERHEAD);
      s.(queue := s.queue[k..], bytes := Less(s.bytes, Bytes(s.queue[..k])),
         taken := s.taken + s.queue[..k], batches := s.batches[b := s.batches[b] + s.queue[..k]],
         workers := s.workers[w := Holding(b)])
    case Finish(w) => s.(workers := s.workers[w := Waiting])
    case Exit(w) => s.(workers := s.workers[w := Exited])
  }

  /** One authenticate job (or one job of any kind), or authorize jobs in order of acceptance
      within the count and the weight. */
  predicate BatchOk(l: Limits, b: seq<Job>) {
    && b != []
    && (forall i, j :: 0 <= i < j < |b| ==> b[i].id < b[j].id)
    && (|b| > 1 ==> forall i :: 0 <= i < |b| ==> b[i].authorize)
    && |b| <= l.batchSize
    && (l.grpc && b[0].authorize ==> Weight(b) <= l.batchBytes)
  }

  /** Jobs are numbered in order of acceptance, leave in that order, and are counted exactly. */
  ghost predicate Fifo(l: Limits, s: System) {
    && s.accepted == s.taken + s.queue
    && (forall i :: 0 <= i < |s.accepted| ==> s.accepted[i].id == i)
    && (forall i :: 0 <= i < |s.accepted| && l.grpc && s.accepted[i].authorize ==>
          s.accepted[i].size + OVERHEAD <= l.batchBytes)
    && s.bytes == Bytes(s.queue) <= l.byteLimit && |s.queue| <= l.capacity
  }

  /** The batches divide the jobs taken among them: none lost, none in two batches. */
  ghost predicate Divided(l: Limits, taken: seq<Job>, batches: seq<seq<Job>>) {
    && multiset(Concat(batches)) == multiset(taken)
    && forall b :: 0 <= b < |batches| ==> BatchOk(l, batches[b])
  }

  ghost predicate WorkersOk(l: Limits, workers: map<nat, Worker>, batches: seq<seq<Job>>) {
    && (forall w :: w in workers && Busy(workers[w]) ==> workers[w].batch < |batches|)
    && (forall w :: w in workers && workers[w].Gathering? ==>
          l.grpc && |batches[workers[w].batch]| == 1 && batches[workers[w].batch][0].authorize)
    && (forall v, w :: v in workers && w in workers && v != w && Busy(workers[v]) && Busy(workers[w])
          ==> workers[v].batch != workers[w].batch)
  }

  /** No worker leaves while there is, or may yet be, work. */
  ghost predicate ExitOk(s: System) {
    forall w :: w in s.workers && s.workers[w].Exited? ==> s.stopping && s.queue == []
  }

  ghost predicate Inv(l: Limits, s: System) {
    l.batchSize >= 1 && Fifo(l, s) && Divided(l, s.taken, s.batches) && WorkersOk(l, s.workers, s.batches) && ExitOk(s)
  }

  predicate Busy(w: Worker) { w.Gathering? || w.Holding? }

  lemma {:induction false} ConcatExtend(bs: seq<seq<Job>>, i: nat, more: seq<Job>)
    requires i < |bs|
    ensures multiset(Concat(bs[i := bs[i] + more])) == multiset(Concat(bs)) + multiset(more)
  {
    if i == 0 {
      assert bs[0 := bs[0] + more][1..] == bs[1..];
    } else {
      assert bs[i := bs[i] + more][1..] == bs[1..][i - 1 := bs[1..][i - 1] + more];
      ConcatExtend(bs[1..], i - 1, more);
    }
  }

  lemma {:induction false} InConcat(bs: seq<seq<Job>>, b: nat, i: nat)
    requires b < |bs| && i < |bs[b]|
    ensures bs[b][i] in Concat(bs)
  {
    if b > 0 { InConcat(bs[1..], b - 1, i); }
  }

  lemma SubmitKeeps(l: Limits, s: System, a: Action)
    requires Inv(l, s) && Enabled(l, s, a) && a.Submit?
    ensures Inv(l, Next(l, s, a))
  {
    BytesAppend(s.queue, [Job(|s.accepted|, a.authorize, a.size)]);
  }

  lemma TakenFromFront(l: Limits, s: System, k: nat)
    requires Fifo(l, s) && k <= |s.queue|
    ensures Bytes(s.queue[..k]) <= s.bytes
    ensures forall i :: 0 <= i < |s.queue| ==> s.queue[i] == s.accepted[|s.taken| + i]
    ensures var s' := s.(queue := s.queue[k..], bytes := s.bytes - Bytes(s.queue[..k]),
        taken := s.taken + s.queue[..k]);
      Fifo(l, s')
  {
    assert s.queue == s.queue[..k] + s.queue[k..];
    BytesAppend(s.queue[..k], s.queue[k..]);
    forall i | 0 <= i < |s.queue| ensures s.queue[i] == s.accepted[|s.taken| + i] {
      assert (s.taken + s.queue)[|s.taken| + i] == s.queue[i];
    }
  }

  lemma TakeDivides(l: Limits, taken: seq<Job>, batches: seq<seq<Job>>, j: Job)
    requires l.batchSize >= 1 && Divided(l, taken, batches)
    requires l.grpc && j.authorize ==> j.size + OVERHEAD <= l.batchBytes
    ensures Divided(l, taken + [j], batches + [[j]])
  {
    ConcatAppend(batches, [j]);
    assert Weight([j]) == j.size + OVERHEAD;
  }

  lemma TakeWorkers(l: Limits, workers: map<nat, Worker>, batches: seq<seq<Job>>, w: nat, j: Job, x: Worker)
    requires WorkersOk(l, workers, batches) && w in workers
    requires x == Holding(|batches|) || (x == Gathering(|batches|) && l.grpc && j.authorize)
    ensures WorkersOk(l, workers[w := x], batches + [[j]])
  {}

  lemma IdleWorker(l: Limits, workers: map<nat, Worker>, batches: seq<seq<Job>>, w: nat, x: Worker)
    requires WorkersOk(l, workers, batches) && !Busy(x)
    ensures WorkersOk(l, workers[w := x], batches)
  {}

  lemma TakeKeeps(l: Limits, s: System, a: Action)
    requires Inv(l, s) && Enabled(l, s, a) && a.TakeFirst?
    ensures Inv(l, Next(l, s, a))
  {
    var j, s' := s.queue[0], Next(l, s, a);
    assert s.queue[..1] == [j];
    assert Fifo(l, s') by {
      TakenFromFront(l, s, 1);
      assert Bytes([j]) == j.size;
    }
    assert s.accepted[|s.taken|] == j;
    TakeDivides(l, s.taken, s.batches, j);
    TakeWorkers(l, s.workers, s.batches, a.w, j, s'.workers[a.w]);
  }

  /** What a worker may add to its first job. */
  ghost predicate MayAdd(l: Limits, first: Job, more: seq<Job>) {
    && (forall i :: 0 <= i < |more| ==> more[i].authorize)
    && 1 + |more| <= l.batchSize
    && first.size + OVERHEAD + Weight(more) <= l.batchBytes
  }

  lemma FillBatchOk(l: Limits, b: seq<Job>, more: seq<Job>, n: nat)
    requires |b| == 1 && b[0].authorize && b[0].id < n && MayAdd(l, b[0], more)
    requires forall i :: 0 <= i < |more| ==> more[i].id == n + i
    ensures BatchOk(l, b + more)
  {
    assert Weight(b) == b[0].size + OVERHEAD by { assert b[1..] == []; }
    BytesAppend(b, more);
    var r := b + more;
    assert r[0] == b[0] && forall i :: 1 <= i < |r| ==> r[i] == more[i - 1];
  }

  lemma OpenBatch(l: Limits, s: System, b: nat)
    requires Fifo(l, s) && Divided(l, s.taken, s.batches) && l.grpc && b < |s.batches| && |s.batches[b]| == 1
    requires s.batches[b][0].authorize
    ensures s.batches[b][0].id < |s.taken| && s.batches[b][0].size + OVERHEAD <= l.batchBytes
  {
    InConcat(s.batches, b, 0);
    assert s.batches[b][0] in multiset(Concat(s.batches));
    assert s.batches[b][0] in s.taken;
    var i :| 0 <= i < |s.taken| && s.taken[i] == s.batches[b][0];
    assert s.accepted[i] == s.taken[i];
  }

  lemma FillDivides(l: Limits, taken: seq<Job>, batches: seq<seq<Job>>, b: nat, more: seq<Job>)
    requires Divided(l, taken, batches) && b < |batches| && BatchOk(l, batches[b] + more)
    ensures Divided(l, taken + more, batches[b := batches[b] + more])
  {
    ConcatExtend(batches, b, more);
  }

  lemma FillWorkers(l: Limits, workers: map<nat, Worker>, batches: seq<seq<Job>>, w: nat, more: seq<Job>)
    requires WorkersOk(l, workers, batches) && w in workers && workers[w].Gathering?
    ensures var b := workers[w].batch; WorkersOk(l, workers[w := Holding(b)], batches[b := batches[b] + more])
  {}

  lemma FilledBatch(l: Limits, s: System, b: nat, k: nat)
    requires Fifo(l, s) && Divided(l, s.taken, s.batches)
    requires l.grpc && b < |s.batches| && |s.batches[b]| == 1 && s.batches[b][0].authorize
    requires k <= |s.queue| && MayAdd(l, s.batches[b][0], s.queue[..k])
    ensures BatchOk(l, s.batches[b] + s.queue[..k])
  {
    OpenBatch(l, s, b);
    assert forall i :: 0 <= i < k ==> s.queue[..k][i].id == |s.taken| + i by { TakenFromFront(l, s, k); }
    FillBatchOk(l, s.batches[b], s.queue[..k], |s.taken|);
  }

  lemma FilledKeeps(l: Limits, s: System, w: nat, b: nat, k: nat, bytes: nat)
    requires Inv(l, s) && w in s.workers && s.workers[w] == Gathering(b)
    requires k <= |s.queue| && MayAdd(l, s.batches[b][0], s.queue[..k]) && bytes == s.bytes - Bytes(s.queue[..k])
    ensures Inv(l, s.(queue := s.queue[k..], bytes := bytes, taken := s.taken + s.queue[..k],
                      batches := s.batches[b := s.batches[b] + s.queue[..k]], workers := s.workers[w := Holding(b)]))
  {
    FilledBatch(l, s, b, k);
    FillWorkers(l, s.workers, s.batches, w, s.queue[..k]);
    FillDivides(l, s.taken, s.batches, b, s.queue[..k]);
    TakenFromFront(l, s, k);
  }

  lemma MayFill(l: Limits, s: System, b: nat, k: nat)
    requires Inv(l, s) && l.grpc && b < |s.batches| && |s.batches[b]| == 1 && s.batches[b][0].authorize
    requires k == Fit(l, s.queue, 1, s.batches[b][0].size + OVERHEAD)
    ensures k <= |s.queue| && MayAdd(l, s.batches[b][0], s.queue[..k]) && Bytes(s.queue[..k]) <= s.bytes
  {
    OpenBatch(l, s, b);
    FitIsLongest(l, s.queue, 1, s.batches[b][0].size + OVERHEAD);
    TakenFromFront(l, s, k);
  }

  lemma FillKeeps(l: Limits, s: System, a: Action)
    requires Inv(l, s) && Enabled(l, s, a) && a.Fill?
    ensures Inv(l, Next(l, s, a))
  {
    var b := s.workers[a.w].batch;
    var k := Fit(l, s.queue, 1, s.batches[b][0].size + OVERHEAD);
    MayFill(l, s, b, k);
    FilledKeeps(l, s, a.w, b, k, s.bytes - Bytes(s.queue[..k]));
  }

  lemma IdleKeeps(l: Limits, s: System, a: Action)
    requires Inv(l, s) && Enabled(l, s, a) && !a.Submit? && !a.TakeFirst? && !a.Fill?
    ensures Inv(l, Next(l, s, a))
  {
    var s' := Next(l, s, a);
    if !a.Stop? { IdleWorker(l, s.workers, s.batches, a.w, s'.workers[a.w]); }
  }

  lemma StepKeeps(l: Limits, s: System, a: Action)
    requires Inv(l, s) && Enabled(l, s, a)
    ensures Inv(l, Next(l, s, a))
  {
    if a.Submit? { SubmitKeeps(l, s, a); }
    else if a.TakeFirst? { TakeKeeps(l, s, a); }
    else if a.Fill? { FillKeeps(l, s, a); }
    else { IdleKeeps(l, s, a); }
  }

  const IDLE := System([], 0, false, map[], [], [], [])

  /** A run gives the state before each action and after the last. */
  ghost predicate IsRun(l: Limits, acts: seq<Action>, run: seq<System>) {
    && |run| == |acts| + 1 && run[0] == IDLE
    && forall i {:trigger acts[i]} :: 0 <= i < |acts| ==>
        Enabled(l, run[i], acts[i]) && run[i + 1] == Next(l, run[i], acts[i])
  }

  lemma {:induction false} RunKeeps(l: Limits, acts: seq<Action>, run: seq<System>, n: nat)
    requires l.batchSize >= 1 && IsRun(l, acts, run) && n < |run|
    ensures Inv(l, run[n])
  {
    if n > 0 {
      RunKeeps(l, acts, run, n - 1);
      StepKeeps(l, run[n - 1], acts[n - 1]);
    } else {
      assert Concat<Job>([]) == [] && Fifo(l, IDLE);
    }
  }

  /** In every run: first in, first out, with an exact byte count, and each job taken is in exactly
      one batch, which is within both limits and in order of acceptance. */
  lemma QueueIsFifo(l: Limits, acts: seq<Action>, run: seq<System>, n: nat)
    requires l.batchSize >= 1 && IsRun(l, acts, run) && n < |run|
    ensures run[n].accepted == run[n].taken + run[n].queue
    ensures run[n].bytes == Bytes(run[n].queue) <= l.byteLimit && |run[n].queue| <= l.capacity
    ensures multiset(Concat(run[n].batches)) == multiset(run[n].taken)
    ensures forall b :: 0 <= b < |run[n].batches| ==> BatchOk(l, run[n].batches[b])
  {
    RunKeeps(l, acts, run, n);
  }

  /** In every run a job is accepted exactly when the provider is not stopping, the queue with it is
      within its count and its bytes, and it would fit a batch by itself. */
  lemma AcceptedExactly(l: Limits, acts: seq<Action>, run: seq<System>, n: nat)
    requires l.batchSize >= 1 && IsRun(l, acts, run) && n < |acts| && acts[n].Submit?
    ensures var s, s', j := run[n], run[n + 1], Job(|run[n].accepted|, acts[n].authorize, acts[n].size);
      if && !s.stopping && |s.queue + [j]| <= l.capacity && Bytes(s.queue + [j]) <= l.byteLimit
         && (l.grpc && j.authorize ==> Weight([j]) <= l.batchBytes)
      then s'.accepted == s.accepted + [j] && s'.queue == s.queue + [j]
      else s' == s
  {
    RunKeeps(l, acts, run, n);
    BytesAppend(run[n].queue, [Job(|run[n].accepted|, acts[n].authorize, acts[n].size)]);
  }

  /** And a worker takes the oldest, and goes on gathering exactly when it is an authorize job of the
      batching protocol and its deadline has not passed. */
  lemma TakenExactly(l: Limits, acts: seq<Action>, run: seq<System>, n: nat)
    requires IsRun(l, acts, run) && n < |acts| && acts[n].TakeFirst?
    ensures var s, s', w := run[n], run[n + 1], acts[n].w;
      && s.queue == [s.queue[0]] + s'.queue && s'.taken == s.taken + [s.queue[0]]
      && s'.batches == s.batches + [[s.queue[0]]]
      && w in s'.workers && Busy(s'.workers[w]) && s'.workers[w].batch == |s.batches|
      && (s'.workers[w].Gathering? <==> l.grpc && s.queue[0].authorize && !acts[n].late)
  {
  }

  /** And a worker that gathers takes from the front of the queue as many authorize jobs as the batch may
      still hold, and leaves the first that does not belong. */
  lemma FilledExactly(l: Limits, acts: seq<Action>, run: seq<System>, n: nat) returns (k: nat)
    requires l.batchSize >= 1 && IsRun(l, acts, run) && n < |acts| && acts[n].Fill?
    ensures acts[n].w in run[n].workers && run[n].workers[acts[n].w].Gathering?
    ensures var s, s', b := run[n], run[n + 1], run[n].workers[acts[n].w].batch;
      && b < |s.batches| == |s'.batches| && k <= |s.queue|
      && s'.batches[b] == s.batches[b] + s.queue[..k] && s'.queue == s.queue[k..]
      && (k < |s.queue| ==>
            || !s.queue[k].authorize || |s'.batches[b]| >= l.batchSize
            || Weight(s'.batches[b] + [s.queue[k]]) > l.batchBytes)
  {
    RunKeeps(l, acts, run, n);
    var s, b := run[n], run[n].workers[acts[n].w].batch;
    var first := s.batches[b];
    k := Fit(l, s.queue, 1, first[0].size + OVERHEAD);
    FitIsLongest(l, s.queue, 1, first[0].size + OVERHEAD);
    BytesAppend(first, s.queue[..k]);
    if k < |s.queue| { BytesAppend(first + s.queue[..k], [s.queue[k]]); }
  }

  /** Two workers never hold the same job. */
  lemma {:induction false} BatchesDisjoint(bs: seq<seq<Job>>, b: nat, c: nat, i: nat, j: nat)
    requires b < c < |bs| && i < |bs[b]| && j < |bs[c]| && bs[b][i] == bs[c][j]
    ensures multiset(Concat(bs))[bs[b][i]] >= 2
  {
    if b == 0 {
      InConcat(bs[1..], c - 1, j);
      assert bs[b][i] in multiset(bs[0]);
    } else {
      BatchesDisjoint(bs[1..], b - 1, c - 1, i, j);
    }
  }

  lemma {:induction false} NumberedOnce(jobs: seq<Job>, j: Job)
    requires forall i :: 0 <= i < |jobs| ==> jobs[i].id == i
    ensures multiset(jobs)[j] <= 1
  {
    if jobs != [] {
      var n := |jobs| - 1;
      assert jobs == jobs[..n] + [jobs[n]];
      NumberedOnce(jobs[..n], j);
      assert forall i :: 0 <= i < n ==> jobs[..n][i].id == i;
      assert jobs[n] !in jobs[..n];
    }
  }

  lemma WorkersShareNoJob(l: Limits, acts: seq<Action>, run: seq<System>, n: nat, v: nat, w: nat, i: nat, j: nat)
    requires l.batchSize >= 1 && IsRun(l, acts, run) && n < |run|
    requires v in run[n].workers && w in run[n].workers && v != w && Busy(run[n].workers[v]) && Busy(run[n].workers[w])
    ensures var s := run[n]; var b, c := s.workers[v].batch, s.workers[w].batch;
      b < |s.batches| && c < |s.batches| && (i < |s.batches[b]| && j < |s.batches[c]| ==>
          s.batches[b][i] != s.batches[c][j])
  {
    RunKeeps(l, acts, run, n);
    var s := run[n];
    var b, c := s.workers[v].batch, s.workers[w].batch;
    if i < |s.batches[b]| && j < |s.batches[c]| && s.batches[b][i] == s.batches[c][j] {
      if b < c { BatchesDisjoint(s.batches, b, c, i, j); } else { BatchesDisjoint(s.batches, c, b, j, i); }
      assert forall k :: 0 <= k < |s.taken| ==> s.taken[k] == s.accepted[k];
      NumberedOnce(s.taken, s.batches[b][i]);
      assert false;
    }
  }

  lemma ExitedStays(l: Limits, s: System, a: Action, w: nat)
    requires ExitOk(s) && Enabled(l, s, a) && w in s.workers && s.workers[w].Exited?
    ensures var s' := Next(l, s, a); w in s'.workers && s'.workers[w].Exited? && s'.accepted == s.accepted
  {
    match a
    case Fill(v) => assert v != w;
    case _ =>
  }

  lemma ExitedDrained(l: Limits, acts: seq<Action>, run: seq<System>, n: nat, w: nat)
    requires l.batchSize >= 1 && IsRun(l, acts, run) && n < |run|
    requires w in run[n].workers && run[n].workers[w].Exited?
    ensures run[n].queue == [] && run[n].accepted == run[n].taken && ExitOk(run[n])
  {
    RunKeeps(l, acts, run, n);
  }

  /** Shutdown strands nothing: once one worker has left, every job ever accepted has been taken,
      and in every later state the accepted jobs are the same ones. */
  lemma {:induction false} ShutdownStrandsNothing(l: Limits, acts: seq<Action>, run: seq<System>, n: nat, m: nat,
                                                  w: nat)
    requires l.batchSize >= 1 && IsRun(l, acts, run) && n <= m < |run|
    requires w in run[n].workers && run[n].workers[w].Exited?
    ensures w in run[m].workers && run[m].workers[w].Exited?
    ensures run[m].accepted == run[n].accepted == run[n].taken == run[m].taken && run[m].queue == []
    decreases m
  {
    if n < m {
      ShutdownStrandsNothing(l, acts, run, n, m - 1, w);
      ExitedDrained(l, acts, run, m - 1, w);
      ExitedStays(l, run[m - 1], acts[m - 1], w);
    }
    ExitedDrained(l, acts, run, n, w);
    ExitedDrained(l, acts, run, m, w);
  }
}
