/**
 Runs of the pipeline as it is deployed. Workers lease what the query returns, injector and replayer
 pick random samples, the replayer runs only if it is enabled and sends a fetched row once, and the
 consumer reads the topic in order; a crash may take it back to an offset that it had not committed
 beyond. Failures and crashes stay free, and so does the usage service.
 */
module Deployment {
  import opened Model
  import opened Pipeline
  import opened Starvation
  import opened Serving
  import opened Cycle
  import Delivery
  import Gen = Generation
  import Pub = Publishing
  import Bill = Billing

  /** The offset committed so far, the consumer's next message, the rows the replayer has fetched but not sent yet. */
  datatype Cursor = Cursor(committed: nat, next: nat, round: set<nat>)
  {
    /** The consumer starts at a committed offset. */
    function Restarted(offset: nat): Cursor { Cursor(offset, offset, round) }
  }

  const BEGINNING: Cursor := Cursor(0, 0, {})

  ghost predicate Deployed(s: State, v: Cursor, a: Action, u: Setup) {
    match a
    case Produce(_) => true
    case Publish(p) =>
      && IsPage(s.gen.rows, s.pub, p, u)
      && (p.Reset? ==> IsSample(s.gen.rows, s.pub, p.ids))
      && (p.ReplayFetch? ==> u.replay && IsSample(s.gen.rows, s.pub, p.ids))
      && (p.ReplaySend? ==> u.replay && p.i in v.round)
    case Charge(b) => b.Deliver? ==> v.committed <= b.n <= v.next
  }

  /** The consumer has not moved. */
  predicate SamePlace(v: Cursor, v': Cursor) {
    v'.committed == v.committed && v'.next == v.next
  }

  function After(v: Cursor, a: Action): Cursor {
    match a
    case Publish(ReplayFetch(ids)) => v.(round := v.round + ids)
    case Publish(ReplaySend(i)) => v.(round := v.round - {i})
    case Charge(Deliver(n)) => v.(next := n + 1)
    case _ => v
  }

  ghost predicate DeployedRun(s: State, v: Cursor, run: seq<Action>, u: Setup)
    decreases |run|
  {
    run == [] ||
    (Enabled(s, run[0]) && Deployed(s, v, run[0], u) && DeployedRun(Next(s, run[0]), After(v, run[0]), run[1..], u))
  }

  function Later(v: Cursor, run: seq<Action>): Cursor
    decreases |run|
  {
    if run == [] then v else Later(After(v, run[0]), run[1..])
  }

  /** The deployed pipeline gets from s to s', and its cursors from v to v'. */
  ghost predicate Gets(s: State, v: Cursor, run: seq<Action>, s': State, v': Cursor, u: Setup) {
    && Inv(s) && DeployedRun(s, v, run, u)
    && CanRun(s, run) && Exec(s, run) == s' && Later(v, run) == v'
  }

  lemma {:induction false} DeployedRunsCompose(s: State, v: Cursor, first: seq<Action>, second: seq<Action>, u: Setup)
    requires DeployedRun(s, v, first, u) && CanRun(s, first)
    requires DeployedRun(Exec(s, first), Later(v, first), second, u)
    ensures DeployedRun(s, v, first + second, u) && Later(v, first + second) == Later(Later(v, first), second)
    decreases |first|
  {
    if first == [] {
      assert first + second == second;
    } else {
      SplitFirst(first, second);
      DeployedRunsCompose(Next(s, first[0]), After(v, first[0]), first[1..], second, u);
    }
  }

  lemma GetsOn(s: State, v: Cursor, first: seq<Action>, s1: State, v1: Cursor,
               second: seq<Action>, s2: State, v2: Cursor, u: Setup)
    requires Gets(s, v, first, s1, v1, u) && Gets(s1, v1, second, s2, v2, u)
    ensures Gets(s, v, first + second, s2, v2, u)
  {
    RunsCompose(s, first, second);
    DeployedRunsCompose(s, v, first, second, u);
  }

  lemma GetsKeepsInv(s: State, v: Cursor, run: seq<Action>, s': State, v': Cursor, u: Setup)
    requires Gets(s, v, run, s', v', u)
    ensures Inv(s')
  {
    RunKeepsInv(s, run);
  }

  lemma GetsOneStep(s: State, v: Cursor, a: Action, u: Setup)
    requires Inv(s) && Enabled(s, a) && Deployed(s, v, a, u)
    ensures Gets(s, v, [a], Next(s, a), After(v, a), u)
  {
    Prepend(s, a, [], Next(s, a));
    assert [a] + [] == [a] && [a][1..] == [];
  }

  lemma {:induction false} DeployedRunIsRun(s: State, v: Cursor, run: seq<Action>, u: Setup)
    requires DeployedRun(s, v, run, u)
    ensures CanRun(s, run) && PagedRun(s, run, u)
    decreases |run|
  {
    if run != [] { DeployedRunIsRun(Next(s, run[0]), After(v, run[0]), run[1..], u); }
  }

  /** What the usage service does is free. */
  lemma {:induction false} ProducerGets(s: State, v: Cursor, run: seq<Gen.Action>, u: Setup)
    requires Inv(s) && Gen.CanRun(s.gen, run)
    ensures Gets(s, v, Produced(run), s.(gen := Gen.Exec(s.gen, run)), v, u)
    decreases |run|
  {
    if run != [] {
      var a := Produce(run[0]);
      StepKeepsInv(s, a);
      ProducerGets(Next(s, a), v, run[1..], u);
      GetsOneStep(s, v, a, u);
      GetsOn(s, v, [a], Next(s, a), v, Produced(run[1..]), s.(gen := Gen.Exec(s.gen, run)), v, u);
    }
  }

  /** So is what workers and injector do between themselves. */
  lemma {:induction false} PublisherGets(s: State, v: Cursor, run: seq<Pub.Action>, p': Pub.Pub, u: Setup)
    requires Inv(s) && Goes(s.gen.rows, s.pub, run, p', u)
    ensures Gets(s, v, Published(run), s.(pub := p'), v, u)
    decreases |run|
  {
    if run != [] {
      var a := Publish(run[0]);
      StepKeepsInv(s, a);
      PublisherGets(Next(s, a), v, run[1..], p', u);
      GetsOneStep(s, v, a, u);
      GetsOn(s, v, [a], Next(s, a), v, Published(run[1..]), s.(pub := p'), v, u);
    }
  }

  // ---------- The replayer ----------

  lemma {:induction false} SampleOf(all: set<nat>, i: nat, n: nat) returns (ids: set<nat>)
    requires i in all && 1 <= n <= |all|
    ensures i in ids && ids <= all && |ids| == n
  {
    if n == 1 {
      ids := {i};
    } else {
      var fewer := SampleOf(all, i, n - 1);
      Delivery.SubsetCount(fewer, all);
      var j :| j in all && j !in fewer;
      ids := fewer + {j};
    }
  }

  /** A published row is in some sample. */
  lemma SampleWith(rows: seq<OutboxRow>, p: Pub.Pub, i: nat) returns (ids: set<nat>)
    requires Pub.Replayable(rows, p, i)
    ensures i in ids && IsSample(rows, p, ids)
  {
    var all := AllReplayable(rows, p);
    Delivery.SubsetCount({i}, all);
    ids := SampleOf(all, i, if |all| < SAMPLE_SIZE then |all| else SAMPLE_SIZE);
  }

  lemma ReplayedOnce(rows: seq<OutboxRow>, p: Pub.Pub, ids: set<nat>, i: nat)
    requires Pub.Enabled(rows, p, Pub.ReplayFetch(ids)) && i in ids && i < |rows| && RowMatchesPayload(rows[i])
    requires Publishable(ToMessage(rows[i].payload))
    ensures var p1 := Pub.Next(rows, p, Pub.ReplayFetch(ids));
      && Pub.Enabled(rows, p1, Pub.ReplaySend(i))
      && var p2 := Pub.Next(rows, p1, Pub.ReplaySend(i));
         p2.leases == p.leases && Grown(p, p2) && SentSince(p2.topic, |p.topic|, rows[i].eventId)
  {
    var p2 := Pub.Next(rows, Pub.Next(rows, p, Pub.ReplayFetch(ids)), Pub.ReplaySend(i));
    assert p2.topic[|p.topic|].chunk.eventId == rows[i].eventId;
  }

  /** A published row can be sent again, if the replayer is enabled. */
  lemma Replay(s: State, v: Cursor, i: nat, u: Setup) returns (run: seq<Action>, s': State, v': Cursor)
    requires Inv(s) && u.replay && i in s.pub.published
    ensures i < |s.gen.rows| && Gets(s, v, run, s', v', u) && SamePlace(v, v')
    ensures s'.gen == s.gen && s'.bill == s.bill && s'.pub.leases == s.pub.leases
    ensures Grown(s.pub, s'.pub) && SentSince(s'.pub.topic, |s.pub.topic|, s.gen.rows[i].eventId)
  {
    Delivery.PublishedImpliesDelivered(s.gen.rows, s.pub, i);
    assert RowMatchesPayload(s.gen.rows[i]);
    var ids := SampleWith(s.gen.rows, s.pub, i);
    ReplayedOnce(s.gen.rows, s.pub, ids, i);
    var fetch, send := Publish(Pub.ReplayFetch(ids)), Publish(Pub.ReplaySend(i));
    var s1, v1 := Next(s, fetch), After(v, fetch);
    StepKeepsInv(s, fetch);
    s', v' := Next(s1, send), After(v1, send);
    GetsOneStep(s, v, fetch, u);
    GetsOneStep(s1, v1, send, u);
    GetsOn(s, v, [fetch], s1, v1, [send], s', v', u);
    run := [fetch] + [send];
  }

  // ---------- The consumer ----------

  /** Submission m was made for this message. */
  predicate IsFor(b: Bill.Bill, m: nat, c: ChunkMessage) {
    m < |b.submissions| && b.submissions[m].attempt < |b.attempts| && b.attempts[b.submissions[m].attempt].chunk == c
  }

  /** Every message keeps its attempts and submissions keep their messages. */
  predicate Remembers(b: Bill.Bill, b': Bill.Bill) {
    && b'.claims == b.claims && b.submissions <= b'.submissions && |b.attempts| <= |b'.attempts|
    && forall k :: 0 <= k < |b.attempts| ==> b'.attempts[k].chunk == b.attempts[k].chunk
  }

  /** What one delivery adds: the usage of its message, or nothing. */
  predicate Adds(b: Bill.Bill, b': Bill.Bill, c: ChunkMessage, submit: bool) {
    && Remembers(b, b')
    && |b'.submissions| == |b.submissions| + (if submit then 1 else 0)
    && (submit ==> IsFor(b', |b.submissions|, c))
  }

  /** An attempt that has begun submits and dies, or dies at once. */
  lemma Settle(topic: seq<Bill.Message>, b: Bill.Bill, k: nat, submit: bool) returns (run: seq<Bill.Action>, b': Bill.Bill)
    requires Bill.AtStage(b, k, Bill.Begun) && (submit ==> !Bill.IsClaimed(b, b.attempts[k].chunk.eventId))
    ensures Bill.CanRun(topic, b, run) && Bill.Exec(topic, b, run) == b' && forall n :: 0 <= n < |run| ==> !run[n].Deliver?
    ensures Adds(b, b', b.attempts[k].chunk, submit)
  {
    if submit {
      var b1 := Bill.Next(topic, b, Bill.CheckMiss(k));
      var b2 := Bill.Next(topic, b1, Bill.Submit(k, true));
      b' := Bill.Next(topic, b2, Bill.Die(k));
      run := [Bill.CheckMiss(k), Bill.Submit(k, true), Bill.Die(k)];
      Bill.Prepend(topic, b2, run[2], [], b');
      Bill.Prepend(topic, b1, run[1], [run[2]], b2);
      Bill.Prepend(topic, b, run[0], [run[1], run[2]], b1);
      assert run == [run[0]] + ([run[1]] + [run[2]]);
    } else {
      run, b' := [Bill.Die(k)], Bill.Next(topic, b, Bill.Die(k));
      Bill.Prepend(topic, b, run[0], [], b');
      assert run == [run[0]] + [];
    }
  }

  lemma {:induction false} ProcessorGets(s: State, v: Cursor, run: seq<Bill.Action>, b': Bill.Bill, u: Setup)
    requires Inv(s) && Bill.CanRun(s.pub.topic, s.bill, run) && Bill.Exec(s.pub.topic, s.bill, run) == b'
    requires forall n :: 0 <= n < |run| ==> !run[n].Deliver?
    ensures Gets(s, v, Charged(run), s.(bill := b'), v, u)
    decreases |run|
  {
    if run != [] {
      var a := Charge(run[0]);
      StepKeepsInv(s, a);
      assert forall n :: 0 <= n < |run| - 1 ==> run[1..][n] == run[n + 1];
      ProcessorGets(Next(s, a), v, run[1..], b', u);
      GetsOneStep(s, v, a, u);
      GetsOn(s, v, [a], Next(s, a), v, Charged(run[1..]), s.(bill := b'), v, u);
    }
  }

  ghost predicate NoneClaimed(b: Bill.Bill, chosen: set<string>) {
    forall e :: e in chosen ==> !Bill.IsClaimed(b, e)
  }

  lemma DeliveredFirst(topic: seq<Bill.Message>, b: Bill.Bill, n: nat, b': Bill.Bill, submit: bool)
    requires n < |topic| && Adds(Bill.Next(topic, b, Bill.Deliver(n)), b', topic[n].chunk, submit)
    ensures Adds(b, b', topic[n].chunk, submit)
  {
    var b1 := Bill.Next(topic, b, Bill.Deliver(n));
    assert forall k :: 0 <= k < |b.attempts| ==> b1.attempts[k] == b.attempts[k];
  }

  /** The next message is read; its usage is submitted if its event is chosen. */
  lemma Consume(s: State, v: Cursor, chosen: set<string>, u: Setup) returns (run: seq<Action>, s': State)
    requires Inv(s) && v.committed <= v.next < |s.pub.topic| && NoneClaimed(s.bill, chosen)
    ensures Gets(s, v, run, s', v.(next := v.next + 1), u) && s' == s.(bill := s'.bill)
    ensures var c := s.pub.topic[v.next].chunk; Adds(s.bill, s'.bill, c, c.eventId in chosen)
  {
    var c, k, a := s.pub.topic[v.next].chunk, |s.bill.attempts|, Charge(Bill.Deliver(v.next));
    var s1 := Next(s, a);
    StepKeepsInv(s, a);
    var rest, b' := Settle(s.pub.topic, s1.bill, k, c.eventId in chosen);
    s' := s1.(bill := b');
    DeliveredFirst(s.pub.topic, s.bill, v.next, b', c.eventId in chosen);
    GetsOneStep(s, v, a, u);
    ProcessorGets(s1, After(v, a), rest, b', u);
    GetsOn(s, v, [a], s1, After(v, a), Charged(rest), s', After(v, a), u);
    run := [a] + Charged(rest);
  }

  /** Of the messages from `from` on, those with a chosen event were submitted, and no others. */
  ghost predicate SubmittedFrom(s: State, b': Bill.Bill, from: nat, chosen: set<string>) {
    && Remembers(s.bill, b')
    && (forall n :: from <= n < |s.pub.topic| && s.pub.topic[n].chunk.eventId in chosen ==>
          exists m :: IsFor(b', m, s.pub.topic[n].chunk))
    && (forall m: nat :: |s.bill.submissions| <= m < |b'.submissions| ==> ForChosen(b', m, chosen))
  }

  ghost predicate ForChosen(b: Bill.Bill, m: nat, chosen: set<string>) {
    exists c: ChunkMessage :: IsFor(b, m, c) && c.eventId in chosen
  }

  lemma StillFor(b: Bill.Bill, b': Bill.Bill, m: nat, c: ChunkMessage)
    requires Remembers(b, b') && IsFor(b, m, c)
    ensures IsFor(b', m, c)
  {
  }

  lemma ConsumedOneMore(s: State, s1: State, b': Bill.Bill, from: nat, chosen: set<string>)
    requires from < |s.pub.topic| && s1 == s.(bill := s1.bill)
    requires var c := s.pub.topic[from].chunk; Adds(s.bill, s1.bill, c, c.eventId in chosen)
    requires SubmittedFrom(s1, b', from + 1, chosen)
    ensures SubmittedFrom(s, b', from, chosen)
  {
    var c := s.pub.topic[from].chunk;
    if c.eventId in chosen { StillFor(s1.bill, b', |s.bill.submissions|, c); }
  }

  /** The consumer reads the topic to its end. */
  lemma {:induction false} ConsumeAll(s: State, v: Cursor, chosen: set<string>, u: Setup)
      returns (run: seq<Action>, s': State, v': Cursor)
    requires Inv(s) && v.committed <= v.next && NoneClaimed(s.bill, chosen)
    ensures Gets(s, v, run, s', v', u) && s' == s.(bill := s'.bill)
    ensures SubmittedFrom(s, s'.bill, v.next, chosen)
    decreases |s.pub.topic| - v.next
  {
    if |s.pub.topic| <= v.next {
      run, s', v' := [], s, v;
    } else {
      var first, s1 := Consume(s, v, chosen, u);
      var v1, rest := v.(next := v.next + 1), [];
      GetsKeepsInv(s, v, first, s1, v1, u);
      assert NoneClaimed(s1.bill, chosen);
      rest, s', v' := ConsumeAll(s1, v1, chosen, u);
      GetsOn(s, v, first, s1, v1, rest, s', v', u);
      ConsumedOneMore(s, s1, s'.bill, v.next, chosen);
      run := first + rest;
    }
  }

  // ---------- What every deployed run keeps ----------

  /** The consumer is never ahead of the topic. */
  lemma {:induction false} CursorInRange(s: State, v: Cursor, run: seq<Action>, u: Setup)
    requires DeployedRun(s, v, run, u) && CanRun(s, run) && v.next <= |s.pub.topic|
    ensures Later(v, run).committed == v.committed && Later(v, run).next <= |Exec(s, run).pub.topic|
    decreases |run|
  {
    if run != [] { CursorInRange(Next(s, run[0]), After(v, run[0]), run[1..], u); }
  }

  lemma {:induction false} LeasesStaySmall(s: State, v: Cursor, run: seq<Action>, u: Setup)
    requires DeployedRun(s, v, run, u) && CanRun(s, run) && Small(s.pub.leases, u.limit)
    ensures Small(Exec(s, run).pub.leases, u.limit)
    decreases |run|
  {
    if run != [] {
      if run[0].Publish? { StaysSmall(s.gen.rows, s.pub, run[0].p, u.limit); }
      LeasesStaySmall(Next(s, run[0]), After(v, run[0]), run[1..], u);
    }
  }

  // ---------- Which rows can still be leased ----------

  /** The transactions under way are over; nothing else has happened. */
  lemma EndLeases(s: State, v: Cursor, u: Setup) returns (run: seq<Action>, s': State)
    requires Inv(s)
    ensures Gets(s, v, run, s', v, u) && Inv(s') && NoneOpenSince(s'.pub.leases, 0)
    ensures s' == s.(pub := s'.pub) && s'.pub == s.pub.(leases := s'.pub.leases)
  {
    var ending, p' := AbortSince(s.gen.rows, s.pub, 0, u);
    PublisherGets(s, v, ending, p', u);
    run, s' := Published(ending), s.(pub := p');
    GetsKeepsInv(s, v, run, s', v, u);
  }

  /** A published row can be reset. */
  lemma ResetRow(s: State, v: Cursor, i: nat, u: Setup) returns (run: seq<Action>, s': State)
    requires Inv(s) && i in s.pub.published
    ensures i < |s.gen.rows| && Gets(s, v, run, s', v, u) && Inv(s') && i !in s'.pub.published
    ensures s'.gen == s.gen && s'.pub.leases == s.pub.leases
  {
    Delivery.PublishedImpliesDelivered(s.gen.rows, s.pub, i);
    assert RowMatchesPayload(s.gen.rows[i]);
    var ids := SampleWith(s.gen.rows, s.pub, i);
    var a := Publish(Pub.Reset(ids));
    StepKeepsInv(s, a);
    GetsOneStep(s, v, a, u);
    run, s' := [a], Next(s, a);
  }

  /** A worker gets to lease the row. */
  lemma GetsToLease(s: State, v: Cursor, i: nat, u: Setup) returns (run: seq<Action>, s': State)
    requires Inv(s) && NoneOpenSince(s.pub.leases, 0) && i !in s.pub.published && Servable(s.gen.rows, i, u)
    ensures Gets(s, v, run, s', v, u) && !NeverLeased(run, i)
  {
    InReachWhenIdle(s.gen.rows, s.pub, i, u);
    var leasing, p1, batch := LeaseRow(s.gen.rows, s.pub, i, u);
    var s1, a := s.(pub := p1), Publish(Pub.TakeLease(batch));
    PublisherGets(s, v, leasing, p1, u);
    GetsKeepsInv(s, v, Published(leasing), s1, v, u);
    GetsOneStep(s1, v, a, u);
    s' := Next(s1, a);
    GetsOn(s, v, Published(leasing), s1, v, [a], s', v, u);
    run := Published(leasing) + [a];
    assert Leases(run[|run| - 1], i);
  }

  ghost predicate CanBeLeased(s: State, v: Cursor, i: nat, u: Setup) {
    exists more :: IsLeasedIn(s, v, more, i, u)
  }

  ghost predicate IsLeasedIn(s: State, v: Cursor, more: seq<Action>, i: nat, u: Setup) {
    DeployedRun(s, v, more, u) && !NeverLeased(more, i)
  }

  lemma LeasedLater(s: State, v: Cursor, first: seq<Action>, s1: State, v1: Cursor,
                    second: seq<Action>, s2: State, v2: Cursor, i: nat, u: Setup)
    requires Gets(s, v, first, s1, v1, u) && Gets(s1, v1, second, s2, v2, u) && !NeverLeased(second, i)
    ensures CanBeLeased(s, v, i, u)
  {
    GetsOn(s, v, first, s1, v1, second, s2, v2, u);
    var n :| 0 <= n < |second| && Leases(second[n], i);
    assert Leases((first + second)[|first| + n], i);
    assert IsLeasedIn(s, v, first + second, i, u);
  }

  /** From any state: a row can still be leased exactly when fewer hopeless rows are older than the workers can hold. */
  lemma LeasableExactly(s: State, v: Cursor, i: nat, u: Setup)
    requires Inv(s) && Small(s.pub.leases, u.limit) && i < |s.gen.rows|
    ensures CanBeLeased(s, v, i, u) <==> Servable(s.gen.rows, i, u)
  {
    if Servable(s.gen.rows, i, u) {
      var first, s1 := EndLeases(s, v, u);
      if i in s1.pub.published {
        var resetting, s2 := ResetRow(s1, v, i, u);
        GetsOn(s, v, first, s1, v, resetting, s2, v, u);
        first, s1 := first + resetting, s2;
      }
      var leasing, s3 := GetsToLease(s1, v, i, u);
      LeasedLater(s, v, first, s1, v, leasing, s3, v, i, u);
    } else {
      forall more | IsLeasedIn(s, v, more, i, u) ensures false {
        DeployedRunIsRun(s, v, more, u);
        StarvedForever(s, more, u, i);
      }
    }
  }

  /** The same from every state that the deployed pipeline reaches. */
  lemma LeasableFromReachable(now: int, interval: int, run: seq<Action>, i: nat, u: Setup)
    requires DeployedRun(Start(now, interval), BEGINNING, run, u)
    ensures CanRun(Start(now, interval), run)
    ensures var s := Exec(Start(now, interval), run);
      i < |s.gen.rows| ==> (CanBeLeased(s, Later(BEGINNING, run), i, u) <==> Servable(s.gen.rows, i, u))
  {
    DeployedRunIsRun(Start(now, interval), BEGINNING, run, u);
    Reached(now, interval, run);
    LeasesStaySmall(Start(now, interval), BEGINNING, run, u);
    var s := Exec(Start(now, interval), run);
    if i < |s.gen.rows| { LeasableExactly(s, Later(BEGINNING, run), i, u); }
  }
}
