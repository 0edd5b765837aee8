/** One SUBSCRIBE over three stores: the connection's own list, the topic tree and the durable record. */
module Subscribe {
  import opened Basics

  datatype Options = Options(qos: nat, noLocal: bool, retainAsPublished: bool, retainHandling: nat)

  datatype Sub = Sub(filter: string, options: Options)

  type Table = map<string, Options>

  datatype Reason =
    | Granted(qos: nat)
    | SharedNotSupported
    | WildcardNotSupported
    | NotAuthorized
    | QoSNotSupported
    | QuotaExceeded
    | Unspecified

  datatype Admission = Admitted | OverQuota | Refused

  /** Whether the request reached the connection's own list, and how that went. */
  datatype Adding = NotTried | Added | AddFailed

  /** What each step of one subscription meets. A store's operation succeeds or has no effect. */
  datatype Choices = Choices(
    shared: bool, wildcardRejected: bool, authorized: bool,
    memory: bool,        // the list can grow
    announced: bool,     // the router accepts
    admission: Admission,
    registered: bool,    // the topic tree accepts
    durable: bool,       // the durable record is committed
    restored: bool,      // putting the durable record back works
    compensated: bool)   // putting the topic tree back works

  datatype Request = Request(filter: string, options: Options)

  datatype Answer = Answer(reason: Reason, adding: Adding)

  /** What the connection and the server agreed on: a `managed` connection has a session manager
      and its topic tree, a `persistent` one a durable record as well. */
  datatype Settings = Settings(v5: bool, managed: bool, persistent: bool, qosCap: nat) {

    function Cap(o: Options): Options {
      if o.qos <= 2 && o.qos > qosCap then o.(qos := qosCap) else o
    }

    function Failure(r: Reason): Reason {
      if v5 then r else Unspecified
    }

    /** Refused before any store is touched. */
    predicate Rejected(q: Request, ch: Choices) {
      ch.shared || ch.wildcardRejected || !ch.authorized || q.options.qos > 2
    }

    /** Not refused, but the list, which holds these subscriptions, cannot take it. */
    predicate AddFails(q: Request, ch: Choices, t: Table) {
      !Rejected(q, ch) && (q.filter == "" || (q.filter !in t && !ch.memory))
    }

    /** Every step up to and including the durable store's admission went well. */
    predicate Reaches(q: Request, ch: Choices, t: Table) {
      && !Rejected(q, ch) && !AddFails(q, ch, t)
      && managed && ch.announced && (persistent ==> ch.admission == Admitted)
    }

    /** The durable record holds the new options but they cannot be taken back. */
    predicate Aborts(q: Request, ch: Choices, t: Table) {
      Reaches(q, ch, t) && persistent && !ch.registered && ch.durable && !ch.restored
    }

    /** The topic tree holds the new options but they are not taken back. */
    predicate Sticks(q: Request, ch: Choices, t: Table) {
      Reaches(q, ch, t) && persistent && ch.registered && !ch.durable && !ch.compensated
    }

    predicate Succeeds(q: Request, ch: Choices, t: Table) {
      && !Rejected(q, ch) && !AddFails(q, ch, t)
      && (managed ==> ch.announced && (persistent ==> ch.admission == Admitted && ch.durable) && ch.registered)
    }

    /** Why a filter is refused, in the order of the steps. */
    function Refusal(q: Request, ch: Choices, t: Table): Reason {
      if ch.shared then Failure(SharedNotSupported)
      else if ch.wildcardRejected then Failure(WildcardNotSupported)
      else if !ch.authorized then NotAuthorized
      else if q.options.qos > 2 then QoSNotSupported
      else if Reaches(q, ch.(admission := Admitted), t) && persistent && ch.admission == OverQuota then QuotaExceeded
      else Unspecified
    }

    /** What a filter is due when the list holds these subscriptions. */
    function Due(q: Request, ch: Choices, t: Table): Answer {
      Answer(if Succeeds(q, ch, t) then Granted(Cap(q.options).qos) else Refusal(q, ch, t),
             if Rejected(q, ch) then NotTried else if AddFails(q, ch, t) then AddFailed else Added)
    }

    /** Every step this connection takes for the filter went well. */
    predicate AllWell(q: Request, ch: Choices, t: Table) {
      && !ch.shared && !ch.wildcardRejected && ch.authorized && q.options.qos <= 2
      && q.filter != "" && (q.filter in t || ch.memory)
      && (managed ==> ch.announced && ch.registered)
      && (managed && persistent ==> ch.admission == Admitted && ch.durable)
    }

    /** The options a filter is granted: the ones asked for, with no more than the server's QoS. */
    function Granting(q: Request): Options { q.options.(qos := Min(q.options.qos, qosCap)) }

    /** The answer a filter must get, said on what its steps meet: a grant exactly when all went well,
        with the lesser QoS; and each reason for the first step that did not. */
    ghost predicate RightAnswer(q: Request, ch: Choices, t: Table, a: Answer) {
      var passed := !ch.shared && !ch.wildcardRejected && ch.authorized && q.options.qos <= 2;
      var added := passed && q.filter != "" && (q.filter in t || ch.memory);
      && (a.reason.Granted? <==>
            AllWell(q, ch, t)) && (a.reason.Granted? ==> a.reason.qos == Min(q.options.qos, qosCap))
      && (a.reason == SharedNotSupported <==> v5 && ch.shared)
      && (a.reason == WildcardNotSupported <==> v5 && !ch.shared && ch.wildcardRejected)
      && (a.reason == NotAuthorized <==> !ch.shared && !ch.wildcardRejected && !ch.authorized)
      && (a.reason == QoSNotSupported <==> !ch.shared && !ch.wildcardRejected && ch.authorized && q.options.qos > 2)
      && (a.reason == QuotaExceeded <==> added && managed && ch.announced && persistent && ch.admission == OverQuota)
      && (a.adding == Added <==> added) && (a.adding == NotTried <==> !passed)
    }

    lemma DueIsRight(q: Request, ch: Choices, t: Table)
      requires persistent ==> managed
      ensures RightAnswer(q, ch, t, Due(q, ch, t))
      ensures Succeeds(q, ch, t) <==> AllWell(q, ch, t)
      ensures AllWell(q, ch, t) ==> Cap(q.options) == Granting(q)
    {
    }

    /** The subscriptions after the first n filters: all of each that succeeds, nothing of the others. */
    function TableAfter(t: Table, qs: seq<Request>, chs: seq<Choices>, n: nat): Table
      requires n <= |qs| == |chs|
    {
      if n == 0 then t else
        var m := TableAfter(t, qs, chs, n - 1);
        if Succeeds(qs[n - 1], chs[n - 1], m) then m[qs[n - 1].filter := Cap(qs[n - 1].options)] else m
    }

    /** Filter i is the last of the first n that is for f and granted. */
    ghost predicate LastGrant(t: Table, qs: seq<Request>, chs: seq<Choices>, n: nat, f: string, i: nat)
      requires i < n <= |qs| == |chs|
    {
      && qs[i].filter == f && AllWell(qs[i], chs[i], TableAfter(t, qs, chs, i))
      && forall k :: i < k < n && qs[k].filter == f ==> !AllWell(qs[k], chs[k], TableAfter(t, qs, chs, k))
    }

    /** What the list holds for f after n filters: what the last granted of them asked for, or what it held. */
    ghost predicate HoldsRightly(t: Table, qs: seq<Request>, chs: seq<Choices>, n: nat, f: string, after: Table)
      requires n <= |qs| == |chs|
    {
      if exists i :: 0 <= i < n && LastGrant(t, qs, chs, n, f, i)
      then f in after && forall i :: 0 <= i < n && LastGrant(t, qs, chs, n, f, i) ==> after[f] == Granting(qs[i])
      else (f in after <==> f in t) && (f in t ==> after[f] == t[f])
    }

    lemma {:induction false} TableIsRight(t: Table, qs: seq<Request>, chs: seq<Choices>, n: nat, f: string)
      requires (persistent ==> managed) && n <= |qs| == |chs|
      ensures HoldsRightly(t, qs, chs, n, f, TableAfter(t, qs, chs, n))
    {
      if n > 0 {
        var m := TableAfter(t, qs, chs, n - 1);
        TableIsRight(t, qs, chs, n - 1, f);
        DueIsRight(qs[n - 1], chs[n - 1], m);
        if qs[n - 1].filter == f && AllWell(qs[n - 1], chs[n - 1], m) {
          assert LastGrant(t, qs, chs, n, f, n - 1);
        } else {
          forall i | 0 <= i < n - 1 { SameLastGrant(t, qs, chs, n, f, i); }
          var k := n - 1;
          if i :| 0 <= i < k && LastGrant(t, qs, chs, k, f, i) { assert LastGrant(t, qs, chs, n, f, i); }
        }
      }
    }

    lemma SameLastGrant(t: Table, qs: seq<Request>, chs: seq<Choices>, n: nat, f: string, i: nat)
      requires i < n - 1 && n <= |qs| == |chs|
      requires !(qs[n - 1].filter == f && AllWell(qs[n - 1], chs[n - 1], TableAfter(t, qs, chs, n - 1)))
      ensures LastGrant(t, qs, chs, n, f, i) <==> LastGrant(t, qs, chs, n - 1, f, i)
    {
    }

    /** Whether a SUBACK is still due after the first n filters. */
    function SubackAfter(t: Table, qs: seq<Request>, chs: seq<Choices>, n: nat): bool
      requires n <= |qs| == |chs|
    {
      if n == 0 then true
      else if Rejected(qs[n - 1], chs[n - 1]) then SubackAfter(t, qs, chs, n - 1)
      else !AddFails(qs[n - 1], chs[n - 1], TableAfter(t, qs, chs, n - 1))
    }

    /** Every answer is the one due, and no filter so far ends the connection. */
    ghost predicate AllDue(t: Table, qs: seq<Request>, chs: seq<Choices>, answers: seq<Answer>)
      requires |answers| <= |qs| == |chs|
    {
      forall i {:trigger answers[i]} :: 0 <= i < |answers| ==>
        var m := TableAfter(t, qs, chs, i);
        answers[i] == Due(qs[i], chs[i], m) && !Aborts(qs[i], chs[i], m)
    }

    ghost predicate AllRight(t: Table, qs: seq<Request>, chs: seq<Choices>, answers: seq<Answer>)
      requires |answers| <= |qs| == |chs|
    {
      forall i {:trigger answers[i]} :: 0 <= i < |answers| ==>
        RightAnswer(qs[i], chs[i], TableAfter(t, qs, chs, i), answers[i])
    }

    lemma AllDueIsRight(t: Table, qs: seq<Request>, chs: seq<Choices>, answers: seq<Answer>)
      requires (persistent ==> managed) && |answers| <= |qs| == |chs| && AllDue(t, qs, chs, answers)
      ensures AllRight(t, qs, chs, answers)
    {
      forall i {:trigger answers[i]} | 0 <= i < |answers|
        ensures RightAnswer(qs[i], chs[i], TableAfter(t, qs, chs, i), answers[i])
      {
        DueIsRight(qs[i], chs[i], TableAfter(t, qs, chs, i));
      }
    }

    /** Filter i cannot be added to the list, and every later one is refused before that. */
    predicate Swallows(t: Table, qs: seq<Request>, chs: seq<Choices>, i: nat)
      requires i < |qs| == |chs|
    {
      && AddFails(qs[i], chs[i], TableAfter(t, qs, chs, i))
      && forall k :: i < k < |qs| ==> Rejected(qs[k], chs[k])
    }
  }

  // ---------------------------------------------------------------------------
  // The list as a table
  // ---------------------------------------------------------------------------

  ghost predicate OnePerFilter(l: seq<Sub>) {
    forall i, j :: 0 <= i < j < |l| ==> l[i].filter != l[j].filter
  }

  ghost function View(l: seq<Sub>): Table {
    if l == [] then map[] else View(l[..|l| - 1])[l[|l| - 1].filter := l[|l| - 1].options]
  }

  lemma {:induction false} ViewAt(l: seq<Sub>)
    requires OnePerFilter(l)
    ensures forall i :: 0 <= i < |l| ==> l[i].filter in View(l) && View(l)[l[i].filter] == l[i].options
    ensures forall t :: t in View(l) ==> exists i :: 0 <= i < |l| && l[i].filter == t
  {
    if l != [] {
      var n := |l| - 1;
      ViewAt(l[..n]);
      forall i | 0 <= i < |l| ensures l[i].filter in View(l) && View(l)[l[i].filter] == l[i].options {
        if i < n { assert l[..n][i] == l[i] && l[i].filter != l[n].filter; }
      }
      forall t | t in View(l) ensures exists i :: 0 <= i < |l| && l[i].filter == t {
        if t == l[n].filter {
          assert l[n].filter == t;
        } else {
          var i :| 0 <= i < n && l[..n][i].filter == t;
          assert l[i].filter == t;
        }
      }
    }
  }

  lemma ViewAppend(l: seq<Sub>, x: Sub)
    ensures View(l + [x]) == View(l)[x.filter := x.options]
  {
    assert (l + [x])[..|l|] == l;
  }

  /** The list with every entry for `t` given these options. */
  function Updated(l: seq<Sub>, t: string, o: Options): seq<Sub> {
    if l == [] then []
    else
      var x := l[|l| - 1];
      Updated(l[..|l| - 1], t, o) + [if x.filter == t then x.(options := o) else x]
  }

  /** The list without the entries for `t`. */
  function WithoutFilter(l: seq<Sub>, t: string): seq<Sub> {
    if l == [] then []
    else
      var x := l[|l| - 1];
      WithoutFilter(l[..|l| - 1], t) + if x.filter == t then [] else [x]
  }

  lemma {:induction false} UpdatedView(l: seq<Sub>, t: string, o: Options)
    ensures View(Updated(l, t, o)) == if t in View(l) then View(l)[t := o] else View(l)
  {
    if l != [] {
      var n := |l| - 1;
      UpdatedView(l[..n], t, o);
      ViewAppend(Updated(l[..n], t, o), if l[n].filter == t then l[n].(options := o) else l[n]);
    }
  }

  lemma {:induction false} UpdatedFilters(l: seq<Sub>, t: string, o: Options)
    ensures |Updated(l, t, o)| == |l| && forall i :: 0 <= i < |l| ==> Updated(l, t, o)[i].filter == l[i].filter
  {
    if l != [] { UpdatedFilters(l[..|l| - 1], t, o); }
  }

  lemma PutThenDrop(m: Table, f: string, o: Options, t: string)
    requires f != t
    ensures (m - {t})[f := o] == m[f := o] - {t}
  {}

  lemma PutIsSame(m: Table, t: string, o: Options)
    ensures m[t := o] == m <==> t in m && m[t] == o
  {
    assert t in m[t := o] && m[t := o][t] == o;
  }

  lemma DropPut(m: Table, t: string, o: Options)
    ensures m - {t} == m[t := o] - {t}
  {}

  lemma {:induction false} WithoutView(l: seq<Sub>, t: string)
    ensures View(WithoutFilter(l, t)) == View(l) - {t}
  {
    if l != [] {
      var n := |l| - 1;
      WithoutView(l[..n], t);
      if l[n].filter == t {
        assert WithoutFilter(l, t) == WithoutFilter(l[..n], t);
        DropPut(View(l[..n]), t, l[n].options);
      } else {
        PutThenDrop(View(l[..n]), l[n].filter, l[n].options, t);
        ViewAppend(WithoutFilter(l[..n], t), l[n]);
      }
    }
  }

  lemma {:induction false} WithoutKeepsOne(l: seq<Sub>, t: string)
    requires OnePerFilter(l)
    ensures OnePerFilter(WithoutFilter(l, t)) && (forall x :: x in WithoutFilter(l, t) ==> x in l)
    ensures |WithoutFilter(l, t)| < |l| <==> t in View(l)
    ensures |WithoutFilter(l, t)| <= |l|
  {
    if l != [] {
      var n := |l| - 1;
      var rest := WithoutFilter(l[..n], t);
      WithoutKeepsOne(l[..n], t);
      forall i | 0 <= i < |rest| ensures rest[i] in l && rest[i].filter != l[n].filter {
        assert rest[i] in rest;
      }
    }
  }

  // ---------------------------------------------------------------------------
  // One connection's subscriptions
  // ---------------------------------------------------------------------------

  class Connection {
    const settings: Settings
    var subs: seq<Sub>
    var tree: Table
    var record: Table
    var open: bool

    constructor (settings: Settings)
      requires settings.persistent ==> settings.managed
      ensures OnePerFilter(subs) && Agree() && open && this.settings == settings
    {
      this.settings := settings;
      subs, tree, record, open := [], map[], map[], true;
    }

    /** The stores in use hold the same subscriptions. */
    ghost predicate Agree()
      reads this
    {
      && (settings.managed ==> tree == View(subs))
      && (settings.persistent ==> record == View(subs))
    }

    method Find(topic: string) returns (existed: bool, previous: Options)
      requires OnePerFilter(subs)
      ensures existed <==> topic in View(subs)
      ensures existed ==> previous == View(subs)[topic]
    {
      existed, previous := false, Options(0, false, false, 0);
      ViewAt(subs);
      for i := 0 to |subs|
        invariant forall j :: 0 <= j < i ==> subs[j].filter != topic
      {
        if subs[i].filter == topic { return true, subs[i].options; }
      }
    }

    /** Gives every entry for the topic these options. */
    method UpdateAll(topic: string, options: Options) returns (present: bool)
      modifies this`subs
      ensures subs == Updated(old(subs), topic, options)
      ensures present <==> exists j :: 0 <= j < |old(subs)| && old(subs)[j].filter == topic
    {
      present := false;
      ghost var l := subs;
      for i := 0 to |subs|
        invariant |subs| == |l| && (forall k :: i <= k < |l| ==> subs[k] == l[k])
        invariant subs[..i] == Updated(l[..i], topic, options)
        invariant present <==> exists j :: 0 <= j < i && l[j].filter == topic
      {
        assert l[..i + 1][..i] == l[..i] && l[..i + 1][i] == l[i] == subs[i];
        if subs[i].filter == topic {
          subs := subs[i := Sub(topic, options)];
          present := true;
        }
      }
      assert l[..|l|] == l && subs[..|l|] == subs;
    }

    method AddSubscription(topic: string, options: Options, memory: bool) returns (ok: bool, present: bool)
      requires OnePerFilter(subs)
      modifies this`subs
      ensures OnePerFilter(subs)
      ensures ok <==> topic != "" && (topic in old(View(subs)) || memory)
      ensures ok ==> present == (topic in old(View(subs))) && View(subs) == old(View(subs))[topic := options]
      ensures !ok ==> subs == old(subs)
    {
      present := false;
      if topic == "" { return false, present; }
      ghost var l := subs;
      ViewAt(l);
      UpdatedView(l, topic, options);
      UpdatedFilters(l, topic, options);
      present := UpdateAll(topic, options);
      if !present {
        UnchangedWithout(l, topic, options);
        if !memory { return false, present; }
        ViewAppend(subs, Sub(topic, options));
        subs := subs + [Sub(topic, options)];
      }
      return true, present;
    }

    method RemoveSubscription(topic: string) returns (found: bool)
      requires OnePerFilter(subs)
      modifies this`subs
      ensures OnePerFilter(subs) && View(subs) == if topic == "" then old(View(subs)) else old(View(subs)) - {topic}
      ensures found <==> topic != "" && topic in old(View(subs))
    {
      if topic == "" { return false; }
      ghost var l := subs;
      var kept: seq<Sub> := [];
      for i := 0 to |subs|
        invariant kept == WithoutFilter(l[..i], topic)
      {
        assert l[..i + 1][..i] == l[..i];
        if subs[i].filter != topic { kept := kept + [subs[i]]; }
      }
      assert l[..|l|] == l;
      found := |kept| != |subs|;
      WithoutView(l, topic);
      WithoutKeepsOne(l, topic);
      subs := kept;
    }

    method RollbackLocal(topic: string, existed: bool, previous: Options, ghost before: Table)
      requires OnePerFilter(subs) && topic != "" && topic in View(subs)
      requires existed == (topic in before) && (existed ==> before[topic] == previous)
      requires View(subs) == before[topic := View(subs)[topic]]
      modifies this`subs
      ensures OnePerFilter(subs) && View(subs) == before
    {
      if existed {
        var ok, present := AddSubscription(topic, previous, true);
      } else {
        var found := RemoveSubscription(topic);
        DropPut(before, topic, old(View(subs))[topic]);
      }
    }

    /** Tree and durable record for a subscription the list already has; the list is put back on failure. */
    method Register(q: Request, granted: Options, existed: bool, previous: Options, ch: Choices, ghost before: Table)
      returns (reason: Reason, aborted: bool)
      requires OnePerFilter(subs) && settings.managed && q.filter != ""
      requires existed == (q.filter in before) && (existed ==> before[q.filter] == previous)
      requires View(subs) == before[q.filter := granted]
      modifies this
      ensures OnePerFilter(subs)
      ensures aborted <==>
        settings.persistent && ch.admission == Admitted && !ch.registered && ch.durable && !ch.restored
      ensures aborted ==> !open
      ensures !aborted ==> open == old(open)
      ensures reason.Granted? <==>
          !aborted && ch.registered && (settings.persistent ==> ch.admission == Admitted && ch.durable)
      ensures reason.Granted? ==>
          reason.qos == granted.qos && subs == old(subs) && tree == old(tree)[q.filter := granted]
      ensures reason.Granted? ==>
          record == if settings.persistent then old(record)[q.filter := granted] else old(record)
      ensures !reason.Granted? ==>
          reason == if settings.persistent && ch.admission == OverQuota then QuotaExceeded else Unspecified
      ensures !aborted && !reason.Granted? ==> View(subs) == before
      ensures !aborted && !reason.Granted? && (settings.persistent ==> old(record) == before) ==> record == old(record)
      ensures !aborted && !reason.Granted? && old(tree) == before ==>
        tree == if settings.persistent && ch.admission == Admitted && ch.registered && !ch.compensated
            then before[q.filter := granted] else before
    {
      aborted := false;
      if settings.persistent {
        if ch.admission != Admitted {
          RollbackLocal(q.filter, existed, previous, before);
          return if ch.admission == OverQuota then QuotaExceeded else Unspecified, false;
        }
      }
      if !ch.registered {
        if settings.persistent && ch.durable {
          record := record[q.filter := granted];
          if !ch.restored {
            open := false;
            return Unspecified, true;
          }
          record := if existed then record[q.filter := previous] else record - {q.filter};
          DropPut(old(record), q.filter, granted);
        }
        RollbackLocal(q.filter, existed, previous, before);
        return Unspecified, false;
      }
      tree := tree[q.filter := granted];
      if settings.persistent {
        if !ch.durable {
          if ch.compensated {
            tree := if existed then tree[q.filter := previous] else tree - {q.filter};
            DropPut(old(tree), q.filter, granted);
          }
          RollbackLocal(q.filter, existed, previous, before);
          return Unspecified, false;
        }
        record := record[q.filter := granted];
      }
      return Granted(granted.qos), false;
    }

    /** One filter of a SUBSCRIBE. */
    method SubscribeOne(q: Request, ch: Choices) returns (a: Answer, aborted: bool)
      requires OnePerFilter(subs) && (settings.persistent ==> settings.managed)
      modifies this
      ensures OnePerFilter(subs)
      ensures aborted <==> settings.Aborts(q, ch, old(View(subs)))
      ensures aborted ==> !open
      ensures !aborted ==> open == old(open)
      // The answer is the one due, and a grant means success.
      ensures a == settings.Due(q, ch, old(View(subs))) && settings.RightAnswer(q, ch, old(View(subs)), a)
      ensures a.reason.Granted? <==> settings.Succeeds(q, ch, old(View(subs)))
      // All: every store in use holds the granted options.
      ensures a.reason.Granted? ==> View(subs) == old(View(subs))[q.filter := settings.Cap(q.options)]
      ensures a.reason.Granted? ==> View(subs) == old(View(subs))[q.filter := settings.Granting(q)]
      ensures a.reason.Granted? && settings.managed ==> tree == old(tree)[q.filter := settings.Granting(q)]
      ensures a.reason.Granted? && settings.persistent ==> record == old(record)[q.filter := settings.Granting(q)]
      ensures a.reason.Granted? && old(Agree()) ==> Agree()
      // Or nothing: every store is as it was, but for a tree that could not be put back.
      ensures !aborted && !a.reason.Granted? ==> View(subs) == old(View(subs))
      ensures !aborted && !a.reason.Granted? && old(Agree()) && settings.persistent ==> record == old(record)
      ensures !aborted && !a.reason.Granted? && old(Agree()) && settings.managed ==>
        tree == if settings.Sticks(q, ch, old(View(subs)))
            then old(tree)[q.filter := settings.Cap(q.options)] else old(tree)
      // So a connection left open disagrees with its stores exactly when putting the tree back failed and mattered.
      ensures !aborted && old(Agree()) ==>
        (Agree() <==> !(settings.Sticks(q, ch,
            old(View(subs))) && !(q.filter in old(View(subs)) && old(View(subs))[q.filter] == settings.Cap(q.options))))
    {
      aborted := false;
      ghost var before := View(subs);
      settings.DueIsRight(q, ch, before);
      var granted := settings.Cap(q.options);
      var existed, previous := Find(q.filter);
      if ch.shared { return Answer(settings.Failure(SharedNotSupported), NotTried), false; }
      if ch.wildcardRejected { return Answer(settings.Failure(WildcardNotSupported), NotTried), false; }
      if !ch.authorized { return Answer(NotAuthorized, NotTried), false; }
      if q.options.qos > 2 { return Answer(QoSNotSupported, NotTried), false; }
      var ok, present := AddSubscription(q.filter, granted, ch.memory);
      if !ok { return Answer(Unspecified, AddFailed), false; }
      existed := present;
      if !settings.managed { return Answer(Granted(granted.qos), Added), false; }
      if !ch.announced {
        RollbackLocal(q.filter, existed, previous, before);
        return Answer(Unspecified, Added), false;
      }
      var reason;
      reason, aborted := Register(q, granted, existed, previous, ch, before);
      PutIsSame(before, q.filter, granted);
      return Answer(reason, Added), aborted;
    }

    method SubscribeAll(qs: seq<Request>, chs: seq<Choices>)
      returns (answers: seq<Answer>, sent: bool, aborted: bool)
      requires OnePerFilter(subs) && (settings.persistent ==> settings.managed) && |chs| == |qs|
      modifies this
      ensures OnePerFilter(subs) && |answers| <= |qs| && settings.AllDue(old(View(subs)), qs, chs, answers)
      ensures aborted <==> |answers| < |qs|
      ensures aborted ==> settings.Aborts(qs[|answers|], chs[|answers|],
          settings.TableAfter(old(View(subs)), qs, chs, |answers|))
      ensures aborted ==> !open && !sent
      ensures !aborted ==> open == old(open) && View(subs) == settings.TableAfter(old(View(subs)), qs, chs, |qs|)
      ensures !aborted && old(Agree()) && AllCompensated(chs) ==> Agree()
      ensures !aborted ==> sent == settings.SubackAfter(old(View(subs)), qs, chs, |qs|)
    {
      answers, sent, aborted := [], true, false;
      ghost var t := View(subs);
      for i := 0 to |qs|
        invariant OnePerFilter(subs) && |answers| == i && !aborted && open == old(open)
        invariant settings.AllDue(t, qs, chs, answers)
        invariant View(subs) == settings.TableAfter(t, qs, chs, i)
        invariant old(Agree()) && AllCompensated(chs) ==> Agree()
        invariant sent == settings.SubackAfter(t, qs, chs, i)
      {
        var a;
        a, aborted := SubscribeOne(qs[i], chs[i]);
        if aborted { return answers, false, true; }
        if a.adding != NotTried { sent := a.adding == Added; }
        AllDueNext(settings, t, qs, chs, answers, a);
        answers := answers + [a];
      }
    }

    /** The whole packet. Each filter is answered with what it is due after those before it, up to the
        first whose durable record cannot be put back, which ends the connection; and the list is
        left with exactly the granted ones. `sent` says whether the SUBACK goes out: the macros that
        test the outcome of each step also assign the handler's own result, so a filter that cannot
        be added to the list swallows it, unless a later one gets that far. */
    method HandleSubscribe(qs: seq<Request>, chs: seq<Choices>)
      returns (answers: seq<Answer>, sent: bool, aborted: bool)
      requires OnePerFilter(subs) && (settings.persistent ==> settings.managed) && |chs| == |qs|
      modifies this
      ensures OnePerFilter(subs) && |answers| <= |qs| && settings.AllDue(old(View(subs)), qs, chs, answers)
      ensures aborted <==> |answers| < |qs|
      ensures aborted ==> settings.Aborts(qs[|answers|], chs[|answers|],
          settings.TableAfter(old(View(subs)), qs, chs, |answers|))
      ensures aborted ==> !open && !sent
      ensures !aborted ==> open == old(open) && View(subs) == settings.TableAfter(old(View(subs)), qs, chs, |qs|)
      ensures !aborted && old(Agree()) && AllCompensated(chs) ==> Agree()
      ensures !aborted ==> (sent <==> !exists i :: 0 <= i < |qs| && settings.Swallows(old(View(subs)), qs, chs, i))
      ensures settings.AllRight(old(View(subs)), qs, chs, answers)
      ensures !aborted ==> forall f :: settings.HoldsRightly(old(View(subs)), qs, chs, |qs|, f, View(subs))
    {
      answers, sent, aborted := SubscribeAll(qs, chs);
      settings.AllDueIsRight(old(View(subs)), qs, chs, answers);
      forall f ensures settings.HoldsRightly(old(View(subs)), qs, chs, |qs|, f,
                                             settings.TableAfter(old(View(subs)), qs, chs, |qs|))
      {
        settings.TableIsRight(old(View(subs)), qs, chs, |qs|, f);
      }
      SwallowedByLast(settings, old(View(subs)), qs, chs, |qs|);
    }
  }

  /** Putting the topic tree back works whenever it is tried. */
  ghost predicate AllCompensated(chs: seq<Choices>) {
    forall i :: 0 <= i < |chs| ==> chs[i].compensated
  }

  lemma AllDueNext(s: Settings, t: Table, qs: seq<Request>, chs: seq<Choices>, answers: seq<Answer>, a: Answer)
    requires |answers| < |qs| == |chs| && s.AllDue(t, qs, chs, answers)
    requires var m, n := s.TableAfter(t, qs, chs, |answers|), |answers|;
      a == s.Due(qs[n], chs[n], m) && !s.Aborts(qs[n], chs[n], m)
    ensures s.AllDue(t, qs, chs, answers + [a])
  {
    forall i | 0 <= i < |answers + [a]|
      ensures var m := s.TableAfter(t, qs, chs, i);
        (answers + [a])[i] == s.Due(qs[i], chs[i], m) && !s.Aborts(qs[i], chs[i], m)
    {
      if i < |answers| { assert (answers + [a])[i] == answers[i]; }
    }
  }

  /** Only the last filter that is not refused outright can swallow the SUBACK. */
  lemma {:induction false} SwallowedByLast(s: Settings, t: Table, qs: seq<Request>, chs: seq<Choices>, n: nat)
    requires n <= |qs| == |chs| && forall k :: n <= k < |qs| ==> s.Rejected(qs[k], chs[k])
    ensures s.SubackAfter(t, qs, chs, n) <==> !exists i :: 0 <= i < |qs| && s.Swallows(t, qs, chs, i)
  {
    if n == 0 {
    } else if s.Rejected(qs[n - 1], chs[n - 1]) {
      SwallowedByLast(s, t, qs, chs, n - 1);
    } else if s.AddFails(qs[n - 1], chs[n - 1], s.TableAfter(t, qs, chs, n - 1)) {
      assert s.Swallows(t, qs, chs, n - 1);
    }
  }

  /** A packet with a filter that is granted and an empty one gets no SUBACK, whatever it held
      before; with the two exchanged it gets one. */
  lemma SubackSwallowed(s: Settings, t: Table, o: Options, ch: Choices)
    requires o.qos <= 2 && ch == Choices(false, false, true, true, true, Admitted, true, true, true, true)
    ensures var qs, chs := [Request("a", o), Request("", o)], [ch, ch];
      s.Due(qs[0], ch, t).reason.Granted? && "a" in s.TableAfter(t, qs, chs, 2) && s.Swallows(t, qs, chs, 1)
    ensures !exists i :: 0 <= i < 2 && s.Swallows(t, [Request("", o), Request("a", o)], [ch, ch], i)
  {
    var qs, chs := [Request("a", o), Request("", o)], [ch, ch];
    assert s.TableAfter(t, qs, chs, 1) == s.TableAfter(t, qs, chs, 0)["a" := s.Cap(o)];
    var qs' := [Request("", o), Request("a", o)];
    assert !s.Rejected(qs'[1], ch);
  }

  lemma {:induction false} UnchangedWithout(l: seq<Sub>, t: string, o: Options)
    requires t !in View(l)
    ensures Updated(l, t, o) == l
  {
    if l != [] {
      var n := |l| - 1;
      UnchangedWithout(l[..n], t, o);
      assert l == l[..n] + [l[n]];
    }
  }
}
