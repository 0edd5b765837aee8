/** One batched call to the policy service, and the association of its answers with the
    requests that asked. */
module BatchReply {
  import opened AuthDecision
  import opened Basics
  import opened CircuitBreaker
  import opened Wrappers

  /** A result of the reply: the id it carries, its decision, and the wall clock when it is read. */
  datatype Item = Item(id: nat, decision: Option<Reply>, wall: nat)

  /** What the remote call came back with; an exception anywhere counts as a failed call. */
  datatype Rpc = Failed | Answered(items: seq<Item>)

  datatype Limits = Limits(freshLimit: nat, ageLimit: nat)

  /** The decision r is the item's reply, as the configured limits and the time it was read make it. */
  predicate Says(l: Limits, item: Item, r: Decision) {
    item.decision.Some? && r == Parse(item.decision.value, l.freshLimit, l.ageLimit, item.wall)
  }

  function Read(l: Limits, item: Item): Decision
    requires item.decision.Some?
  {
    Parse(item.decision.value, l.freshLimit, l.ageLimit, item.wall)
  }

  /** An envelope that can be associated: as many items as requests, each naming a request, none
      naming one twice. */
  predicate WellFormed(items: seq<Item>, n: nat) {
    && |items| == n
    && (forall k :: 0 <= k < n ==> 1 <= items[k].id <= n && items[k].decision.Some?)
    && (forall j, k :: 0 <= j < k < n ==> items[j].id != items[k].id)
  }

  function Blank(n: nat): (r: seq<Decision>)
    ensures |r| == n && forall i :: 0 <= i < n ==> r[i] == NO_DECISION
  {
    seq(n, _ => NO_DECISION)
  }

  /** The ids 1..n. */
  ghost function UpTo(n: nat): (s: set<nat>)
    ensures |s| == n && forall x: nat :: x in s <==> 1 <= x <= n
  {
    if n == 0 then {} else UpTo(n - 1) + {n}
  }

  /** Ids 1..n without repetition in n places leave no id out. */
  lemma {:induction false} Pigeonhole(ids: seq<nat>, n: nat, id: nat)
    requires |ids| == n && 1 <= id <= n
    requires forall k :: 0 <= k < n ==> 1 <= ids[k] <= n
    requires forall j, k :: 0 <= j < k < n ==> ids[j] != ids[k]
    ensures id in ids
  {
    if id !in ids {
      var used := set k | 0 <= k < n :: ids[k];
      Image(ids, n);
      SubsetSize(used, UpTo(n) - {id});
      assert false;
    }
  }

  lemma Image(ids: seq<nat>, n: nat)
    requires n <= |ids| && forall j, k :: 0 <= j < k < n ==> ids[j] != ids[k]
    ensures |set k | 0 <= k < n :: ids[k]| == n
  {
    if n > 0 {
      Image(ids, n - 1);
      assert (set k | 0 <= k < n :: ids[k]) == (set k | 0 <= k < n - 1 :: ids[k]) + {ids[n - 1]};
    }
  }

  lemma SubsetSize<T>(a: set<T>, b: set<T>)
    requires a <= b
    ensures |a| <= |b|
  {
    assert b == a + (b - a);
  }

  /** A well-formed reply has exactly one item for each request. */
  lemma EveryRequestAnswered(items: seq<Item>, n: nat, i: nat) returns (k: nat)
    requires WellFormed(items, n) && i < n
    ensures k < n && items[k].id == i + 1
  {
    var ids := seq(n, j requires 0 <= j < n => items[j].id);
    Pigeonhole(ids, n, i + 1);
    k :| 0 <= k < n && ids[k] == i + 1;
  }

  ghost predicate Answers(l: Limits, items: seq<Item>, i: nat, r: Decision) {
    exists k :: 0 <= k < |items| && items[k].id == i + 1 && Says(l, items[k], r)
  }

  /** The first j items can be associated, and their identifiers are those seen. */
  ghost predicate Seen(items: seq<Item>, j: nat, seen: set<nat>)
    requires j <= |items|
  {
    && (forall k :: 0 <= k < j ==> 1 <= items[k].id <= |items| && items[k].decision.Some? && items[k].id in seen)
    && (forall a, b :: 0 <= a < b < j ==> items[a].id != items[b].id)
    && (forall x :: x in seen ==> exists k :: 0 <= k < j && items[k].id == x)
  }

  /** And they have been. */
  ghost predicate Placed(l: Limits, items: seq<Item>, j: nat, results: seq<Decision>)
    requires j <= |items| == |results|
  {
    forall k :: 0 <= k < j ==>
        1 <= items[k].id <= |items| && items[k].decision.Some? && results[items[k].id - 1] == Read(l, items[k])
  }

  lemma SeenNext(items: seq<Item>, j: nat, seen: set<nat>)
    requires j < |items| && Seen(items, j, seen)
    requires 1 <= items[j].id <= |items| && items[j].id !in seen && items[j].decision.Some?
    ensures Seen(items, j + 1, seen + {items[j].id})
  {
    var x, seen' := items[j].id, seen + {items[j].id};
    forall y | y in seen' ensures exists k :: 0 <= k < j + 1 && items[k].id == y {
      if y == x {
        assert items[j].id == y;
      } else {
        var k :| 0 <= k < j && items[k].id == y;
        assert items[k].id == y;
      }
    }
  }

  lemma PlacedNext(l: Limits, items: seq<Item>, j: nat, results: seq<Decision>)
    requires j < |items| == |results| && Placed(l, items, j, results)
    requires 1 <= items[j].id <= |items| && items[j].decision.Some? && forall k :: 0 <= k < j ==>
        items[k].id != items[j].id
    ensures Placed(l, items, j + 1, results[items[j].id - 1 := Read(l, items[j])])
  {}

  /** Associates the items of a reply with as many requests. */
  method Place(l: Limits, items: seq<Item>) returns (results: seq<Decision>, healthy: bool)
    ensures |results| == |items| && (healthy <==> WellFormed(items, |items|))
    ensures healthy ==> forall i :: 0 <= i < |items| ==> Answers(l, items, i, results[i])
    ensures healthy ==> Placed(l, items, |items|, results)
  {
    var n := |items|;
    results := Blank(n);
    var seen, j := {}, 0;
    while j < n
      invariant 0 <= j <= n == |results| && Seen(items, j, seen) && Placed(l, items, j, results)
    {
      var item := items[j];
      if item.id == 0 || item.id > n || item.id in seen || item.decision.None? { return results, false; }
      PlacedNext(l, items, j, results);
      SeenNext(items, j, seen);
      seen := seen + {item.id};
      results := results[item.id - 1 := Read(l, item)];
      j := j + 1;
    }
    forall i | 0 <= i < n ensures Answers(l, items, i, results[i]) {
      var k := EveryRequestAnswered(items, n, i);
    }
    healthy := true;
  }

  /** Looking at the results is looking at the items. */
  lemma AllAuthoritative(l: Limits, items: seq<Item>, results: seq<Decision>)
    requires |items| == |results| && WellFormed(items, |items|) && Placed(l, items, |items|, results)
    requires forall i :: 0 <= i < |items| ==> Answers(l, items, i, results[i])
    ensures (forall i :: 0 <= i < |results| ==> results[i].authoritative) <==>
        forall k :: 0 <= k < |items| ==> Read(l, items[k]).authoritative
  {
    if forall i :: 0 <= i < |results| ==> results[i].authoritative {
      forall k | 0 <= k < |items| ensures Read(l, items[k]).authoritative {
        assert results[items[k].id - 1].authoritative;
      }
    }
  }

  /** Answers reach the requests they name, in whatever order they come; a malformed envelope
      answers nobody. */
  method Associate(l: Limits, n: nat, rpc: Rpc) returns (results: seq<Decision>, healthy: bool)
    ensures |results| == n
    ensures rpc.Answered? && WellFormed(rpc.items, n)
            ==> forall i :: 0 <= i < n ==> Answers(l, rpc.items, i, results[i])
    ensures !(rpc.Answered? && WellFormed(rpc.items, n)) ==> results == Blank(n)
    ensures healthy <==> rpc.Answered? && Sound(l, rpc.items, n, false)
  {
    results, healthy := Blank(n), false;
    if rpc.Failed? || |rpc.items| != n { return; }
    results, healthy := Place(l, rpc.items);
    if !healthy { return Blank(n), false; }
    AllAuthoritative(l, rpc.items, results);
    healthy := AreAuthoritative(results);
  }

  method AreAuthoritative(results: seq<Decision>) returns (all: bool)
    ensures all <==> forall i :: 0 <= i < |results| ==> results[i].authoritative
  {
    all := true;
    for i := 0 to |results|
      invariant all <==> forall m :: 0 <= m < i ==> results[m].authoritative
    {
      if !results[i].authoritative { all := false; }
    }
  }

  /** A reply that speaks for the service's health. */
  ghost predicate Sound(l: Limits, items: seq<Item>, n: nat, authenticate: bool) {
    if authenticate
    then items != [] && items[0].decision.Some? && Intelligible(items[0].decision.value)
    else WellFormed(items, n) && forall k :: 0 <= k < n ==> Intelligible(items[k].decision.value)
  }

  /** A reply whose decisions can be given to the requests they belong to. */
  predicate Usable(rpc: Rpc, n: nat, authenticate: bool) {
    rpc.Answered? && if authenticate then rpc.items != [] && rpc.items[0].decision.Some? else WellFormed(rpc.items, n)
  }

  datatype BatchJob = BatchJob(authenticate: bool, deadline: nat)

  method Earliest(jobs: seq<BatchJob>) returns (deadline: nat)
    requires jobs != []
    ensures forall k :: 0 <= k < |jobs| ==> deadline <= jobs[k].deadline
    ensures exists k :: 0 <= k < |jobs| && deadline == jobs[k].deadline
  {
    deadline := jobs[0].deadline;
    var j := 0;
    while j < |jobs|
      invariant 0 <= j <= |jobs|
      invariant forall k :: 0 <= k < j ==> deadline <= jobs[k].deadline
      invariant exists k :: 0 <= k < |jobs| && deadline == jobs[k].deadline
    {
      deadline := Min(deadline, jobs[j].deadline);
      j := j + 1;
    }
  }

  /** Finishes each job with its result, or with nothing when its deadline has passed. */
  method Deliver(jobs: seq<BatchJob>, results: seq<Decision>, ends: seq<nat>) returns (delivered: seq<Decision>)
    requires |jobs| == |results| == |ends|
    ensures |delivered| == |jobs|
    ensures forall m :: 0 <= m < |jobs| ==>
        delivered[m] == if ends[m] >= jobs[m].deadline then NO_DECISION else results[m]
  {
    delivered := [];
    var i := 0;
    while i < |jobs|
      invariant 0 <= i <= |jobs| && |delivered| == i
      invariant forall m :: 0 <= m < i ==>
          delivered[m] == if ends[m] >= jobs[m].deadline then NO_DECISION else results[m]
    {
      delivered := delivered + [if ends[i] >= jobs[i].deadline then NO_DECISION else results[i]];
      i := i + 1;
    }
  }

  /** The whole call: skipped when stopping, late or refused by the breaker; answers that arrive
      after their own deadline are dropped. The breaker hears of every admitted call, once, and
      of nothing else. `asked` and `reported` are the times the breaker reads; what other workers
      do to it in between is the subject of the worker machine. */
  method RpcBatch(l: Limits, jobs: seq<BatchJob>, b: Breaker, stopping: bool, now: nat, asked: nat, rpc: Rpc,
                  reported: nat, ends: seq<nat>)
    returns (delivered: seq<Decision>, attempted: bool, healthy: bool)
    requires jobs != [] && |ends| == |jobs|
    requires jobs[0].authenticate ==> |jobs| == 1
    modifies b
    ensures attempted <==>
      !stopping && (forall j :: 0 <= j < |jobs| ==> now < jobs[j].deadline) && Admits(old(b.View()), asked)
    ensures b.View() == if attempted
        then AfterReport(AfterAdmit(old(b.View())), healthy, reported, b.cooldown) else old(b.View())
    ensures healthy <==> attempted && rpc.Answered? && Sound(l, rpc.items, |jobs|, jobs[0].authenticate)
    ensures |delivered| == |jobs|
    ensures forall i :: 0 <= i < |jobs| ==>
      if attempted && ends[i] < jobs[i].deadline && Usable(rpc, |jobs|, jobs[0].authenticate)
      then (if jobs[0].authenticate
          then Says(l, rpc.items[0], delivered[i]) else Answers(l, rpc.items, i, delivered[i]))
      else delivered[i] == NO_DECISION
  {
    var results := Blank(|jobs|);
    healthy, attempted := false, false;
    var deadline := Earliest(jobs);
    if !stopping && now < deadline { attempted := b.Admit(asked); }
    if attempted {
      if jobs[0].authenticate {
        if Usable(rpc, 1, true) {
          results := [Read(l, rpc.items[0])];
          healthy := results[0].authoritative;
        }
      } else {
        results, healthy := Associate(l, |jobs|, rpc);
      }
      b.Report(healthy, reported);
    }
    delivered := Deliver(jobs, results, ends);
  }
}
