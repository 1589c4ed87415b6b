/**
 What the publisher can do as deployed: workers lease pages of the oldest rows, the injector resets
 random samples. A row can still be leased exactly when fewer older rows are hopeless than the workers
 can hold together.
 */
module Serving {
  import opened Model
  import opened Publishing
  import opened Delivery
  import opened Cycle
  import opened Starvation

  /** The injector's and the replayer's LIMIT. */
  const SAMPLE_SIZE: nat := 15

  function AllReplayable(rows: seq<OutboxRow>, p: Pub): set<nat> {
    set i: nat | i < |rows| && Replayable(rows, p, i)
  }

  /** ORDER BY random() LIMIT 15 over the published rows. */
  predicate IsSample(rows: seq<OutboxRow>, p: Pub, ids: set<nat>) {
    var all := AllReplayable(rows, p);
    ids <= all && |ids| == if |all| < SAMPLE_SIZE then |all| else SAMPLE_SIZE
  }

  /** A step of the deployed workers or injector. */
  ghost predicate Queried(rows: seq<OutboxRow>, p: Pub, a: Action, u: Setup) {
    && IsPage(rows, p, a, u)
    && (a.Reset? ==> IsSample(rows, p, a.ids))
    && !a.ReplayFetch? && !a.ReplaySend?
  }

  ghost predicate QueriedRun(rows: seq<OutboxRow>, p: Pub, run: seq<Action>, u: Setup)
    decreases |run|
  {
    run == [] ||
    (Enabled(rows, p, run[0]) && Queried(rows, p, run[0], u) && QueriedRun(rows, Next(rows, p, run[0]), run[1..], u))
  }

  /** The deployed publisher gets from p to p'. */
  ghost predicate Goes(rows: seq<OutboxRow>, p: Pub, run: seq<Action>, p': Pub, u: Setup) {
    Inv(rows, p) && QueriedRun(rows, p, run, u) && CanRun(rows, p, run) && Exec(rows, p, run) == p'
  }

  lemma {:induction false} GoesOn(rows: seq<OutboxRow>, p: Pub, first: seq<Action>, p1: Pub, second: seq<Action>, p2: Pub, u: Setup)
    requires Goes(rows, p, first, p1, u) && Goes(rows, p1, second, p2, u)
    ensures Goes(rows, p, first + second, p2, u)
    decreases |first|
  {
    if first == [] {
      assert first + second == second;
    } else {
      SplitFirst(first, second);
      StepKeepsInv(rows, p, first[0]);
      GoesOn(rows, Next(rows, p, first[0]), first[1..], p1, second, p2, u);
    }
  }

  lemma GoesKeepsInv(rows: seq<OutboxRow>, p: Pub, run: seq<Action>, p': Pub, u: Setup)
    requires Goes(rows, p, run, p', u)
    ensures Inv(rows, p')
  {
    RunKeepsInv(rows, p, run);
  }

  lemma GoesOneStep(rows: seq<OutboxRow>, p: Pub, a: Action, u: Setup)
    requires Inv(rows, p) && Enabled(rows, p, a) && Queried(rows, p, a, u)
    ensures Goes(rows, p, [a], Next(rows, p, a), u)
  {
    Prepend(rows, p, a, [], Next(rows, p, a));
    assert [a] + [] == [a] && [a][1..] == [];
  }

  /** Statements inside a transaction, and its end. */
  predicate Inner(a: Action) {
    !a.TakeLease? && !a.Reset? && !a.ReplayFetch? && !a.ReplaySend?
  }

  predicate AllInner(run: seq<Action>) {
    forall n :: 0 <= n < |run| ==> Inner(run[n])
  }

  lemma {:induction false} InnerGoes(rows: seq<OutboxRow>, p: Pub, run: seq<Action>, u: Setup)
    requires Inv(rows, p) && CanRun(rows, p, run) && AllInner(run)
    ensures Goes(rows, p, run, Exec(rows, p, run), u)
    decreases |run|
  {
    if run != [] {
      StepKeepsInv(rows, p, run[0]);
      assert AllInner(run[1..]);
      InnerGoes(rows, Next(rows, p, run[0]), run[1..], u);
    }
  }

  // ---------- The transactions under way end ----------

  lemma {:induction false} AbortSince(rows: seq<OutboxRow>, p: Pub, n: nat, u: Setup) returns (run: seq<Action>, p': Pub)
    requires Inv(rows, p) && n <= |p.leases|
    ensures Goes(rows, p, run, p', u)
    ensures p' == p.(leases := p'.leases) && |p'.leases| == |p.leases| && NoneOpenSince(p'.leases, n)
    decreases |p.leases| - n
  {
    if n == |p.leases| {
      run, p' := [], p;
    } else {
      var first, p1 := AbortSince(rows, p, n + 1, u);
      GoesKeepsInv(rows, p, first, p1, u);
      if IsOpen(p1, n) {
        p' := Next(rows, p1, Abort(n));
        GoesOneStep(rows, p1, Abort(n), u);
        GoesOn(rows, p, first, p1, [Abort(n)], p', u);
        run := first + [Abort(n)];
      } else {
        run, p' := first, p1;
      }
    }
  }

  lemma {:induction false} NoneOpenCount(leases: seq<Lease>)
    requires NoneOpenSince(leases, 0)
    ensures OpenCount(leases) == 0 && LockedRows(leases) == {}
  {
    if leases != [] { NoneOpenCount(leases[..|leases| - 1]); }
  }

  // ---------- What the tables gain ----------

  predicate SentSince(topic: seq<Message>, n: nat, e: string) {
    exists m :: n <= m < |topic| && topic[m].chunk.eventId == e
  }

  /** Nothing is lost from the tables and the topic, and each newly recorded event has a new message. */
  ghost predicate Grown(p: Pub, p': Pub) {
    && p.published <= p'.published && p.processed <= p'.processed && p.topic <= p'.topic
    && forall e :: e in p'.processed && e !in p.processed ==> SentSince(p'.topic, |p.topic|, e)
  }

  lemma GrownOn(p: Pub, p1: Pub, p2: Pub)
    requires Grown(p, p1) && Grown(p1, p2)
    ensures Grown(p, p2)
  {
    forall e | e in p2.processed && e !in p.processed ensures SentSince(p2.topic, |p.topic|, e) {
      if e in p1.processed {
        var m :| |p.topic| <= m < |p1.topic| && p1.topic[m].chunk.eventId == e;
        assert p2.topic[m] == p1.topic[m];
      }
    }
  }

  lemma {:induction false} MessageOfEach(rows: seq<OutboxRow>, ids: seq<nat>, origin: Origin, j: nat) returns (m: nat)
    requires RowsOk(rows) && j < |ids| && ids[j] < |rows|
    ensures m < |MessagesFor(rows, ids, origin)|
    ensures MessagesFor(rows, ids, origin)[m].chunk.eventId == rows[ids[j]].eventId
  {
    var front := ids[..|ids| - 1];
    if j < |front| {
      m := MessageOfEach(rows, front, origin, j);
    } else {
      m := |MessagesFor(rows, front, origin)|;
      assert RowMatchesPayload(rows[ids[j]]);
    }
  }

  lemma CleanGrows(rows: seq<OutboxRow>, p: Pub, p': Pub, k: nat, batch: seq<nat>, count: nat)
    requires RowsOk(rows) && CleanOutcome(rows, p, p', k, batch, count)
    ensures Grown(p, p')
  {
    var sent := ToSend(rows, p.processed, batch);
    forall e | e in p'.processed && e !in p.processed ensures SentSince(p'.topic, |p.topic|, e) {
      var j :| 0 <= j < |sent| && sent[j] < |rows| && rows[sent[j]].eventId == e;
      var m := MessageOfEach(rows, sent, Worker(k), j);
      assert p'.topic[|p.topic| + m] == MessagesFor(rows, sent, Worker(k))[m];
    }
  }

  // ---------- A cycle without failures ----------

  /** Lease k can take its next turn. */
  ghost predicate Ready(rows: seq<OutboxRow>, p: Pub, k: nat) {
    && Inv(rows, p) && IsOpen(p, k) && p.leases[k].phase == AtCheck && !p.leases[k].poisoned
  }

  lemma TwoSteps(rows: seq<OutboxRow>, p: Pub, a: Action, b: Action)
    requires Enabled(rows, p, a) && Enabled(rows, Next(rows, p, a), b)
    ensures CanRun(rows, p, [a, b]) && Exec(rows, p, [a, b]) == Next(rows, Next(rows, p, a), b)
  {
    var p1 := Next(rows, p, a);
    Prepend(rows, p1, b, [], Next(rows, p1, b));
    Prepend(rows, p, a, [b], p1);
    assert [a] + [b] == [a, b] && [b] + [] == [b];
  }

  lemma SendingRun(rows: seq<OutboxRow>, p: Pub, k: nat) returns (run: seq<Action>, p': Pub)
    requires Handling(rows, p, k, AtCheck) && !p.leases[k].poisoned
    requires var e := RowAt(rows, p.leases[k]).eventId; e !in p.processed + p.leases[k].recorded && !InsertedElsewhere(p, k, e)
    requires Publishable(ToMessage(RowAt(rows, p.leases[k]).payload))
    ensures CanRun(rows, p, run) && Exec(rows, p, run) == p' && AllInner(run) && Turn(rows, p, p', k)
    ensures p' == p.(leases := p.leases[k := p'.leases[k]], topic := p'.topic)
    ensures p'.leases[k].phase == AtCheck && p'.leases[k].pos == p.leases[k].pos + 1
    ensures p'.leases[k].batch == p.leases[k].batch && p'.leases[k].status == Open
  {
    run := [CheckMiss(k), Send(k), Record(k)];
    var p1 := Next(rows, p, CheckMiss(k));
    var p2 := Next(rows, p1, Send(k));
    p' := Next(rows, p2, Record(k));
    TwoSteps(rows, p1, Send(k), Record(k));
    Prepend(rows, p, CheckMiss(k), [Send(k), Record(k)], p1);
    assert [CheckMiss(k)] + [Send(k), Record(k)] == run;
  }

  lemma SilentRun(rows: seq<OutboxRow>, p: Pub, k: nat) returns (run: seq<Action>, p': Pub)
    requires Handling(rows, p, k, AtCheck) && !p.leases[k].poisoned
    requires var row := RowAt(rows, p.leases[k]);
      row.eventId in p.processed + p.leases[k].recorded || !Publishable(ToMessage(row.payload))
    ensures CanRun(rows, p, run) && Exec(rows, p, run) == p' && AllInner(run) && Turn(rows, p, p', k)
    ensures p' == p.(leases := p.leases[k := p'.leases[k]])
    ensures p'.leases[k].phase == AtCheck && p'.leases[k].pos == p.leases[k].pos + 1
    ensures p'.leases[k].batch == p.leases[k].batch && p'.leases[k].status == Open
  {
    if RowAt(rows, p.leases[k]).eventId in p.processed + p.leases[k].recorded {
      run, p' := [CheckHit(k)], Next(rows, p, CheckHit(k));
      Prepend(rows, p, CheckHit(k), [], p');
      assert [CheckHit(k)] + [] == run;
    } else {
      run := [CheckMiss(k), SkipInvalid(k)];
      p' := Next(rows, Next(rows, p, CheckMiss(k)), SkipInvalid(k));
      TwoSteps(rows, p, CheckMiss(k), SkipInvalid(k));
    }
  }

  lemma CleanTurn(rows: seq<OutboxRow>, p: Pub, k: nat) returns (run: seq<Action>, p': Pub)
    requires Ready(rows, p, k) && p.leases[k].pos < |p.leases[k].batch|
    ensures InLoop(rows, p, p', k, run) && AllInner(run) && Turn(rows, p, p', k)
    ensures Ready(rows, p', k) && p'.leases[k].pos == p.leases[k].pos + 1
  {
    ReadyForTurn(rows, p, k);
    var row := RowAt(rows, p.leases[k]);
    if row.eventId !in p.processed + p.leases[k].recorded && Publishable(ToMessage(row.payload)) {
      run, p' := SendingRun(rows, p, k);
    } else {
      run, p' := SilentRun(rows, p, k);
    }
    RunKeepsInv(rows, p, run);
  }

  lemma {:induction false} CleanLoop(rows: seq<OutboxRow>, start: Pub, p: Pub, k: nat, before: seq<Action>)
      returns (run: seq<Action>, p': Pub)
    requires InLoop(rows, start, p, k, before) && AllInner(before) && Ready(rows, p, k)
    requires Progress(rows, start, p, k, p.leases[k].batch, p.leases[k].pos)
    ensures InLoop(rows, start, p', k, run) && AllInner(run) && Ready(rows, p', k)
    ensures p'.leases[k].pos == |p'.leases[k].batch|
    ensures Progress(rows, start, p', k, p'.leases[k].batch, |p'.leases[k].batch|)
    decreases |p.leases[k].batch| - p.leases[k].pos
  {
    if p.leases[k].pos == |p.leases[k].batch| {
      run, p' := before, p;
    } else {
      var turn, p1 := CleanTurn(rows, p, k);
      LoopGoesOn(rows, start, p, p1, k, before, turn);
      TurnMakesProgress(rows, start, p, p1, k);
      run, p' := CleanLoop(rows, start, p1, k, before + turn);
    }
  }

  lemma CleanCommit(rows: seq<OutboxRow>, start: Pub, q: Pub, k: nat, before: seq<Action>, u: Setup)
      returns (run: seq<Action>, p': Pub, count: nat)
    requires Inv(rows, start) && InLoop(rows, start, q, k, before) && AllInner(before) && Ready(rows, q, k)
    requires q.leases[k].pos == |q.leases[k].batch|
    requires Progress(rows, start, q, k, q.leases[k].batch, |q.leases[k].batch|)
    ensures Goes(rows, start, run, p', u) && CleanOutcome(rows, start, p', k, q.leases[k].batch, count)
    ensures OthersKept(start.leases, p'.leases, k) && k < |p'.leases| && p'.leases[k].status == Committed
  {
    p' := Next(rows, q, Commit(k));
    count := |q.leases[k].marks|;
    LastStepRuns(rows, start, q, before, Commit(k));
    run := before + [Commit(k)];
    InnerGoes(rows, start, run, u);
    CleanCycle(rows, start, q, p', k, count);
  }

  /** A page can always be handled without failures. */
  lemma HandlePage(rows: seq<OutboxRow>, p: Pub, batch: seq<nat>, u: Setup) returns (run: seq<Action>, p': Pub)
    requires Inv(rows, p) && Enabled(rows, p, TakeLease(batch)) && IsPage(rows, p, TakeLease(batch), u)
    ensures Goes(rows, p, run, p', u) && Grown(p, p')
    ensures p'.published == p.published + ToSet(ToMark(rows, p.processed, batch))
    ensures p.leases <= p'.leases && NoneOpenSince(p'.leases, |p.leases|)
    ensures forall i :: i in batch && i < |rows| && Publishable(ToMessage(rows[i].payload)) ==>
      i in p'.published && rows[i].eventId in p'.processed
  {
    var k, start := |p.leases|, Next(rows, p, TakeLease(batch));
    GoesOneStep(rows, p, TakeLease(batch), u);
    GoesKeepsInv(rows, p, [TakeLease(batch)], start, u);
    NoProgressYet(rows, start, k);
    var loop, q := CleanLoop(rows, start, start, k, []);
    var handling, count;
    handling, p', count := CleanCommit(rows, start, q, k, loop, u);
    GoesOn(rows, p, [TakeLease(batch)], start, handling, p', u);
    run := [TakeLease(batch)] + handling;
    CleanGrows(rows, start, p', k, batch, count);
    CycleHandlesExactly(rows, p.processed, batch);
    GoesKeepsInv(rows, p, run, p', u);
  }

  // ---------- The page that the query returns ----------

  lemma {:induction false} OldestOf(rows: seq<OutboxRow>, pool: set<nat>) returns (m: nat)
    requires pool != {} && forall j :: j in pool ==> j < |rows|
    ensures m in pool && forall j :: j in pool ==> rows[m].createdAt <= rows[j].createdAt
    decreases pool
  {
    m :| m in pool;
    if pool != {m} {
      var n := OldestOf(rows, pool - {m});
      if rows[n].createdAt < rows[m].createdAt { m := n; }
    }
  }

  /** The first `limit` of a pool by age; if row i is in the pool but not among them, they are all older. */
  ghost predicate IsFirstOf(rows: seq<OutboxRow>, pool: set<nat>, limit: nat, i: nat, batch: seq<nat>)
    requires i < |rows|
  {
    && |batch| <= limit && Distinct(batch) && ByAge(rows, batch)
    && (forall j :: 0 <= j < |batch| ==> batch[j] in pool)
    && (forall j :: j in pool && j !in batch ==> |batch| == limit && NoneYounger(rows, batch, j))
    && (i in pool && i !in batch ==> forall j :: 0 <= j < |batch| ==> rows[batch[j]].createdAt < rows[i].createdAt)
  }

  lemma OldestThenRest(rows: seq<OutboxRow>, pool: set<nat>, limit: nat, i: nat, m: nat, rest: seq<nat>)
    requires i < |rows| && m < |rows| && limit > 0 && m in pool
    requires forall j :: j in pool ==> j < |rows| && rows[m].createdAt <= rows[j].createdAt
    requires IsFirstOf(rows, pool - {m}, limit - 1, i, rest)
    requires i in pool ==> m == i || rows[m].createdAt < rows[i].createdAt
    ensures IsFirstOf(rows, pool, limit, i, [m] + rest)
  {
    var batch := [m] + rest;
    forall j | j in pool && j !in batch ensures |batch| == limit && NoneYounger(rows, batch, j) {
      assert j in pool - {m} && batch[0] == m && j !in rest;
    }
  }

  /** Among the pages that the query may return there is one that prefers row i to others of its age. */
  lemma {:induction false} PageFrom(rows: seq<OutboxRow>, pool: set<nat>, limit: nat, i: nat) returns (batch: seq<nat>)
    requires i < |rows| && forall j :: j in pool ==> j < |rows|
    ensures IsFirstOf(rows, pool, limit, i, batch)
    decreases limit
  {
    batch := [];
    if limit > 0 && pool != {} {
      var m := OldestOf(rows, pool);
      if i in pool && rows[i].createdAt == rows[m].createdAt { m := i; }
      var rest := PageFrom(rows, pool - {m}, limit - 1, i);
      OldestThenRest(rows, pool, limit, i, m, rest);
      batch := [m] + rest;
    }
  }

  predicate AllOlder(rows: seq<OutboxRow>, batch: seq<nat>, i: nat) {
    i < |rows| && Exist(rows, batch) && forall j :: 0 <= j < |batch| ==> rows[batch[j]].createdAt < rows[i].createdAt
  }

  lemma PageWith(rows: seq<OutboxRow>, p: Pub, limit: nat, i: nat) returns (batch: seq<nat>)
    requires Leasable(rows, p, i)
    ensures IsLeaseBatch(rows, p, limit, batch) && Enabled(rows, p, TakeLease(batch))
    ensures i in batch || (|batch| == limit && AllOlder(rows, batch, i))
  {
    var pool := set j: nat | j < |rows| && Leasable(rows, p, j);
    batch := PageFrom(rows, pool, limit, i);
    forall j: nat | Leasable(rows, p, j) && j !in batch ensures |batch| == limit && NoneYounger(rows, batch, j) {
      assert j in pool;
    }
  }

  // ---------- A row that can still be leased ----------

  predicate Servable(rows: seq<OutboxRow>, i: nat, u: Setup) {
    i < |rows| && |OlderHopeless(rows, i)| < u.Capacity()
  }

  /** Older rows that the next page would prefer. */
  function Waiting(rows: seq<OutboxRow>, p: Pub, i: nat): set<nat>
    requires i < |rows|
  {
    set j: nat | j < |rows| && Leasable(rows, p, j) && rows[j].createdAt < rows[i].createdAt
  }

  function FreeHopeless(rows: seq<OutboxRow>, p: Pub, i: nat): set<nat>
    requires i < |rows|
  {
    OlderHopeless(rows, i) - LockedRows(p.leases)
  }

  /** How many rows the workers without a lease can hold. */
  function Room(p: Pub, u: Setup): int {
    (u.workers - OpenCount(p.leases)) * u.limit
  }

  /** Workers without a lease can together hold more rows than there are older hopeless ones about. */
  predicate InReach(rows: seq<OutboxRow>, p: Pub, i: nat, u: Setup) {
    && Leasable(rows, p, i) && OpenCount(p.leases) < u.workers
    && |FreeHopeless(rows, p, i)| < Room(p, u)
  }

  lemma OneWorkerLess(free: nat, workers: nat, open: nat, limit: nat)
    requires limit <= free < (workers - open) * limit && open < workers
    ensures open + 1 < workers && (workers - (open + 1)) * limit == (workers - open) * limit - limit
  {
    Product(workers - open - 1, workers - open - 1, limit);
  }

  lemma RoomShrinks(rows: seq<OutboxRow>, p: Pub, batch: seq<nat>, free: nat, u: Setup)
    requires Enabled(rows, p, TakeLease(batch)) && OpenCount(p.leases) < u.workers && u.limit <= free < Room(p, u)
    ensures var p1 := Next(rows, p, TakeLease(batch));
      OpenCount(p1.leases) < u.workers && Room(p1, u) == Room(p, u) - u.limit
  {
    OneWorkerLess(free, u.workers, OpenCount(p.leases), u.limit);
    LeaseLocks(rows, p, batch);
  }

  lemma LeaseLocks(rows: seq<OutboxRow>, p: Pub, batch: seq<nat>)
    requires Enabled(rows, p, TakeLease(batch))
    ensures var p1 := Next(rows, p, TakeLease(batch));
      LockedRows(p1.leases) == LockedRows(p.leases) + ToSet(batch) && OpenCount(p1.leases) == OpenCount(p.leases) + 1
  {
    assert (p.leases + [Lease(batch, 0, AtCheck, {}, [], false, Open)])[..|p.leases|] == p.leases;
  }

  lemma PageIsFree(rows: seq<OutboxRow>, p: Pub, batch: seq<nat>, i: nat)
    requires Enabled(rows, p, TakeLease(batch)) && AllOlder(rows, batch, i)
    requires forall j :: 0 <= j < |batch| ==> Hopeless(rows, batch[j])
    ensures |batch| <= |FreeHopeless(rows, p, i)|
    ensures |FreeHopeless(rows, Next(rows, p, TakeLease(batch)), i)| == |FreeHopeless(rows, p, i)| - |batch|
  {
    var free, page := FreeHopeless(rows, p, i), ToSet(batch);
    DistinctCount(batch);
    forall j | j in page ensures j in free {
      LockedRowsExactly(p.leases, j);
      assert Leasable(rows, p, j);
    }
    SubsetCount(page, free);
    LeaseLocks(rows, p, batch);
    assert FreeHopeless(rows, Next(rows, p, TakeLease(batch)), i) == free - page;
    assert |free - page| == |free| - |page|;
  }

  lemma LeaseLeavesOthers(rows: seq<OutboxRow>, p: Pub, batch: seq<nat>, i: nat)
    requires Enabled(rows, p, TakeLease(batch)) && AllOlder(rows, batch, i) && Leasable(rows, p, i)
    ensures Leasable(rows, Next(rows, p, TakeLease(batch)), i)
  {
    StaysUnlocked(rows, p, TakeLease(batch), i);
  }

  /** A worker sits on a page of hopeless rows: the others get past them. */
  lemma HoldPage(rows: seq<OutboxRow>, p: Pub, p1: Pub, batch: seq<nat>, i: nat, u: Setup)
    requires Enabled(rows, p, TakeLease(batch)) && p1 == Next(rows, p, TakeLease(batch))
    requires InReach(rows, p, i, u) && |batch| == u.limit && AllOlder(rows, batch, i)
    requires forall j :: 0 <= j < |batch| ==> Hopeless(rows, batch[j])
    ensures InReach(rows, p1, i, u)
  {
    PageIsFree(rows, p, batch, i);
    RoomShrinks(rows, p, batch, |FreeHopeless(rows, p, i)|, u);
    LeaseLeavesOthers(rows, p, batch, i);
  }

  lemma HeldRowsWaitNoMore(rows: seq<OutboxRow>, p: Pub, batch: seq<nat>, i: nat)
    requires Enabled(rows, p, TakeLease(batch)) && batch != [] && AllOlder(rows, batch, i)
    ensures Waiting(rows, Next(rows, p, TakeLease(batch)), i) < Waiting(rows, p, i)
  {
    var p1 := Next(rows, p, TakeLease(batch));
    assert p1.leases[|p.leases|].batch == batch;
    assert Locked(p1, batch[0]) && batch[0] in batch;
    forall j | j in Waiting(rows, p1, i) ensures j in Waiting(rows, p, i) {
      assert !Locked(p1, j);
      forall k | 0 <= k < |p.leases| && p.leases[k].status == Open ensures j !in p.leases[k].batch {
        assert p1.leases[k] == p.leases[k];
      }
    }
    assert batch[0] in Waiting(rows, p, i) && batch[0] !in Waiting(rows, p1, i);
  }

  lemma {:induction false} ClosedDoNotCount(leases: seq<Lease>, leases': seq<Lease>)
    requires leases <= leases' && NoneOpenSince(leases', |leases|)
    ensures OpenCount(leases') == OpenCount(leases) && LockedRows(leases') == LockedRows(leases)
    decreases |leases'|
  {
    if leases' != leases { ClosedDoNotCount(leases, leases'[..|leases'| - 1]); }
  }

  lemma ClosedDoNotLock(p: Pub, p': Pub, m: nat)
    requires p.leases <= p'.leases && NoneOpenSince(p'.leases, |p.leases|)
    ensures Locked(p', m) <==> Locked(p, m)
  {
    ClosedDoNotCount(p.leases, p'.leases);
    LockedRowsExactly(p.leases, m);
    LockedRowsExactly(p'.leases, m);
  }

  lemma StaysInReach(rows: seq<OutboxRow>, p: Pub, p': Pub, i: nat, u: Setup)
    requires InReach(rows, p, i, u) && i !in p'.published
    requires p.leases <= p'.leases && NoneOpenSince(p'.leases, |p.leases|)
    ensures InReach(rows, p', i, u)
  {
    ClosedDoNotCount(p.leases, p'.leases);
    ClosedDoNotLock(p, p', i);
  }

  lemma FewerWait(rows: seq<OutboxRow>, p: Pub, p': Pub, i: nat, j: nat)
    requires i < |rows| && j in Waiting(rows, p, i) && j in p'.published && p.published <= p'.published
    requires p.leases <= p'.leases && NoneOpenSince(p'.leases, |p.leases|)
    ensures Waiting(rows, p', i) < Waiting(rows, p, i)
  {
    forall m | m in Waiting(rows, p', i) ensures m in Waiting(rows, p, i) { ClosedDoNotLock(p, p', m); }
    assert j !in Waiting(rows, p', i);
  }

  /** One step towards row i: some worker takes a page of older rows and handles it, or sits on it. */
  lemma ServeOlder(rows: seq<OutboxRow>, p: Pub, batch: seq<nat>, i: nat, u: Setup) returns (run: seq<Action>, p': Pub)
    requires Inv(rows, p) && InReach(rows, p, i, u) && IsLeaseBatch(rows, p, u.limit, batch)
    requires Enabled(rows, p, TakeLease(batch)) && |batch| == u.limit && AllOlder(rows, batch, i)
    ensures Goes(rows, p, run, p', u) && Grown(p, p')
    ensures InReach(rows, p', i, u) && Waiting(rows, p', i) < Waiting(rows, p, i)
  {
    if j: nat :| j < |batch| && !Hopeless(rows, batch[j]) {
      assert Leasable(rows, p, batch[j]) && batch[j] in batch;
      assert i !in batch;
      run, p' := HandlePage(rows, p, batch, u);
      CycleHandlesExactly(rows, p.processed, batch);
      StaysInReach(rows, p, p', i, u);
      FewerWait(rows, p, p', i, batch[j]);
    } else {
      p' := Next(rows, p, TakeLease(batch));
      run := [TakeLease(batch)];
      GoesOneStep(rows, p, TakeLease(batch), u);
      HoldPage(rows, p, p', batch, i, u);
      HeldRowsWaitNoMore(rows, p, batch, i);
    }
  }

  lemma {:induction false} LeaseRow(rows: seq<OutboxRow>, p: Pub, i: nat, u: Setup)
      returns (run: seq<Action>, p': Pub, batch: seq<nat>)
    requires Inv(rows, p) && InReach(rows, p, i, u)
    ensures Goes(rows, p, run, p', u) && Grown(p, p') && Inv(rows, p')
    ensures i in batch && Enabled(rows, p', TakeLease(batch)) && IsPage(rows, p', TakeLease(batch), u)
    decreases Waiting(rows, p, i)
  {
    batch := PageWith(rows, p, u.limit, i);
    if i in batch {
      run, p' := [], p;
    } else {
      var first, p1 := ServeOlder(rows, p, batch, i, u);
      GoesKeepsInv(rows, p, first, p1, u);
      var rest;
      rest, p', batch := LeaseRow(rows, p1, i, u);
      GoesOn(rows, p, first, p1, rest, p', u);
      GrownOn(p, p1, p');
      run := first + rest;
    }
  }

  /** When no transaction is under way, any unpublished row with few hopeless ones before it is in reach. */
  lemma InReachWhenIdle(rows: seq<OutboxRow>, p: Pub, i: nat, u: Setup)
    requires Inv(rows, p) && NoneOpenSince(p.leases, 0) && Servable(rows, i, u) && i !in p.published
    ensures InReach(rows, p, i, u)
  {
    NoneOpenCount(p.leases);
    LockedRowsExactly(p.leases, i);
    assert RowMatchesPayload(rows[i]) && Room(p, u) == u.Capacity();
  }

  /** From any state: a valid row with few hopeless ones before it can be published. */
  lemma PublishRow(rows: seq<OutboxRow>, p: Pub, i: nat, u: Setup) returns (run: seq<Action>, p': Pub)
    requires Inv(rows, p) && NoneOpenSince(p.leases, 0)
    requires Servable(rows, i, u) && Publishable(ToMessage(rows[i].payload))
    ensures Goes(rows, p, run, p', u) && Grown(p, p') && Inv(rows, p') && NoneOpenSince(p'.leases, 0)
    ensures i in p'.published && rows[i].eventId in p'.processed
  {
    if i in p.published {
      run, p' := [], p;
    } else {
      InReachWhenIdle(rows, p, i, u);
      var leasing, p1, batch := LeaseRow(rows, p, i, u);
      var handling, p2 := HandlePage(rows, p1, batch, u);
      GoesOn(rows, p, leasing, p1, handling, p2, u);
      GrownOn(p, p1, p2);
      GoesKeepsInv(rows, p1, handling, p2, u);
      var ending;
      ending, p' := AbortSince(rows, p2, 0, u);
      GoesOn(rows, p, leasing + handling, p2, ending, p', u);
      GoesKeepsInv(rows, p2, ending, p', u);
      GrownOn(p, p2, p');
      run := leasing + handling + ending;
    }
  }
}
