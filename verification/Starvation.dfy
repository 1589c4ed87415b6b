/**
 A row behind enough older rows that the publisher's gate refuses is never leased: those are never
 published, so every cycle leases them again.
 */
module Starvation {
  import opened Model
  import opened Publishing
  import opened Delivery
  import opened Cycle
  import Pipeline

  /** The publisher's BATCH_SIZE, its workers in all instances together, and REPLAY_ENABLED. */
  datatype Setup = Setup(limit: nat, workers: nat, replay: bool)
  {
    /** How many rows all workers together can hold. */
    function Capacity(): nat { workers * limit }
  }

  /** The gate refuses the row for good. */
  predicate Hopeless(rows: seq<OutboxRow>, i: nat) {
    i < |rows| && rows[i].eventType == BILLING_CHUNK_CREATED && !Publishable(ToMessage(rows[i].payload))
  }

  /** In no reachable state is such a row published or recorded. */
  lemma HopelessIsNeverPublished(rows: seq<OutboxRow>, p: Pub, i: nat)
    requires Inv(rows, p) && Hopeless(rows, i)
    ensures i !in p.published && rows[i].eventId !in p.processed
  {
    if rows[i].eventId in p.processed { var n := DeliveredMessage(rows, p, i); }
  }

  // ---------- Counting locks ----------

  function OpenCount(leases: seq<Lease>): nat {
    if leases == [] then 0
    else OpenCount(leases[..|leases| - 1]) + if leases[|leases| - 1].status == Open then 1 else 0
  }

  function LockedRows(leases: seq<Lease>): set<nat> {
    if leases == [] then {}
    else
      var last := leases[|leases| - 1];
      LockedRows(leases[..|leases| - 1]) + if last.status == Open then ToSet(last.batch) else {}
  }

  /** Open leases are of at most that many rows. */
  predicate Small(leases: seq<Lease>, limit: nat) {
    forall k :: 0 <= k < |leases| && leases[k].status == Open ==> |leases[k].batch| <= limit
  }

  lemma {:induction false} LockedRowsExactly(leases: seq<Lease>, i: nat)
    ensures i in LockedRows(leases) <==> exists k :: 0 <= k < |leases| && leases[k].status == Open && i in leases[k].batch
  {
    if leases != [] {
      var front := leases[..|leases| - 1];
      LockedRowsExactly(front, i);
      assert forall k :: 0 <= k < |front| ==> front[k] == leases[k];
    }
  }

  lemma Product(a: nat, b: nat, n: nat)
    requires a <= b
    ensures a * n <= b * n && (b + 1) * n == b * n + n
  {
  }

  lemma {:induction false} FewLocked(leases: seq<Lease>, limit: nat)
    requires Small(leases, limit)
    ensures |LockedRows(leases)| <= OpenCount(leases) * limit
  {
    if leases != [] {
      var front, last := leases[..|leases| - 1], leases[|leases| - 1];
      FewLocked(front, limit);
      if last.status == Open { LastLocks(LockedRows(front), last.batch, limit, OpenCount(front)); }
    }
  }

  lemma LastLocks(before: set<nat>, batch: seq<nat>, limit: nat, n: nat)
    requires |before| <= n * limit && |batch| <= limit
    ensures |before + ToSet(batch)| <= (n + 1) * limit
  {
    DistinctCount(batch);
    UnionCount(before, ToSet(batch));
    Product(n, n, limit);
  }

  lemma UnionCount(a: set<nat>, b: set<nat>)
    ensures |a + b| <= |a| + |b|
  {
    assert a + b == a + (b - a) && |a + (b - a)| == |a| + |b - a|;
    SubsetCount(b - a, b);
  }

  // ---------- Never leased ----------

  /** Older rows that the gate refuses. */
  function OlderHopeless(rows: seq<OutboxRow>, i: nat): set<nat>
    requires i < |rows|
  {
    set j: nat | j < |rows| && Hopeless(rows, j) && rows[j].createdAt < rows[i].createdAt
  }

  /** All workers together can hold no more rows than there are older hopeless ones. */
  predicate Starved(rows: seq<OutboxRow>, i: nat, u: Setup) {
    i < |rows| && u.Capacity() <= |OlderHopeless(rows, i)|
  }

  predicate Untouched(p: Pub, i: nat) {
    i !in p.published && !Locked(p, i)
  }

  /** A lease is what the query returns to one of the workers that has none. */
  ghost predicate IsPage(rows: seq<OutboxRow>, p: Pub, a: Action, u: Setup) {
    a.TakeLease? ==> IsLeaseBatch(rows, p, u.limit, a.batch) && OpenCount(p.leases) < u.workers
  }

  lemma OlderIsLeased(rows: seq<OutboxRow>, p: Pub, limit: nat, batch: seq<nat>, i: nat, j: nat)
    requires IsLeaseBatch(rows, p, limit, batch) && i < |rows| && i in batch
    requires Leasable(rows, p, j) && rows[j].createdAt < rows[i].createdAt
    ensures j in batch
  {
    var k :| 0 <= k < |batch| && batch[k] == i;
    assert j !in batch ==> NoneYounger(rows, batch, j);
  }

  lemma TooMany(batch: seq<nat>, older: set<nat>, i: nat)
    requires i in batch && i !in older && forall j :: j in older ==> j in batch
    ensures |older| < |batch|
  {
    assert older + {i} <= ToSet(batch) && |older + {i}| == |older| + 1;
    SubsetCount(older + {i}, ToSet(batch));
    DistinctCount(batch);
  }

  /** If as many leasable rows as a batch holds are strictly older, the row is in no batch. */
  lemma OlderGoFirst(rows: seq<OutboxRow>, p: Pub, limit: nat, batch: seq<nat>, i: nat, older: set<nat>)
    requires IsLeaseBatch(rows, p, limit, batch) && i < |rows| && limit <= |older|
    requires forall j :: j in older ==> Leasable(rows, p, j) && rows[j].createdAt < rows[i].createdAt
    ensures i !in batch
  {
    if i in batch {
      forall j | j in older ensures j in batch { OlderIsLeased(rows, p, limit, batch, i, j); }
      TooMany(batch, older, i);
    }
  }

  lemma HopelessIsLeasable(rows: seq<OutboxRow>, p: Pub, j: nat)
    requires Inv(rows, p) && Hopeless(rows, j) && j !in LockedRows(p.leases)
    ensures Leasable(rows, p, j)
  {
    HopelessIsNeverPublished(rows, p, j);
    LockedRowsExactly(p.leases, j);
  }

  lemma EnoughAreFree(leases: seq<Lease>, limit: nat, workers: nat, older: set<nat>)
    requires Small(leases, limit) && OpenCount(leases) < workers && workers * limit <= |older|
    ensures limit <= |older - LockedRows(leases)|
  {
    var locked := LockedRows(leases);
    FewLocked(leases, limit);
    Product(OpenCount(leases), workers - 1, limit);
    SubsetCount(older, (older - locked) + locked);
    UnionCount(older - locked, locked);
  }

  lemma MarksAreLocked(rows: seq<OutboxRow>, p: Pub, k: nat, m: nat)
    requires Inv(rows, p) && IsOpen(p, k) && m in p.leases[k].marks
    ensures Locked(p, m)
  {
    assert LeaseOk(rows, p, k);
    assert m in p.leases[k].batch[..p.leases[k].pos];
  }

  lemma CommitSparesUnlocked(rows: seq<OutboxRow>, p: Pub, k: nat, i: nat)
    requires Inv(rows, p) && Enabled(rows, p, Commit(k)) && i !in p.published && !Locked(p, i)
    ensures i !in Next(rows, p, Commit(k)).published
  {
    forall m | m in p.leases[k].marks ensures Locked(p, m) { MarksAreLocked(rows, p, k, m); }
  }

  lemma StaysUnlocked(rows: seq<OutboxRow>, p: Pub, a: Action, i: nat)
    requires Enabled(rows, p, a) && !Locked(p, i) && (a.TakeLease? ==> i !in a.batch)
    ensures !Locked(Next(rows, p, a), i)
  {
    var p' := Next(rows, p, a);
    forall k | 0 <= k < |p'.leases| && p'.leases[k].status == Open ensures i !in p'.leases[k].batch {
      if k < |p.leases| { assert p'.leases[k].batch == p.leases[k].batch && p.leases[k].status == Open; }
    }
  }

  lemma StaysSmall(rows: seq<OutboxRow>, p: Pub, a: Action, limit: nat)
    requires Enabled(rows, p, a) && Small(p.leases, limit) && (a.TakeLease? ==> |a.batch| <= limit)
    ensures Small(Next(rows, p, a).leases, limit)
  {
  }

  lemma StaysUnpublished(rows: seq<OutboxRow>, p: Pub, a: Action, i: nat)
    requires Inv(rows, p) && Enabled(rows, p, a) && i !in p.published && !Locked(p, i)
    ensures i !in Next(rows, p, a).published
  {
    if a.Commit? { CommitSparesUnlocked(rows, p, a.k, i); }
  }

  /** No cycle leases a row behind that many older hopeless ones. */
  lemma NotInBatch(rows: seq<OutboxRow>, p: Pub, batch: seq<nat>, u: Setup, i: nat)
    requires Inv(rows, p) && Small(p.leases, u.limit) && Starved(rows, i, u)
    requires IsPage(rows, p, TakeLease(batch), u)
    ensures i !in batch
  {
    var free := OlderHopeless(rows, i) - LockedRows(p.leases);
    EnoughAreFree(p.leases, u.limit, u.workers, OlderHopeless(rows, i));
    forall j | j in free ensures Leasable(rows, p, j) { HopelessIsLeasable(rows, p, j); }
    OlderGoFirst(rows, p, u.limit, batch, i, free);
  }

  lemma StarvedStep(rows: seq<OutboxRow>, p: Pub, a: Action, u: Setup, i: nat)
    requires Inv(rows, p) && Enabled(rows, p, a) && IsPage(rows, p, a, u)
    requires Small(p.leases, u.limit) && Starved(rows, i, u)
    ensures a.TakeLease? ==> i !in a.batch
    ensures Small(Next(rows, p, a).leases, u.limit)
    ensures Untouched(p, i) ==> Untouched(Next(rows, p, a), i)
  {
    if a.TakeLease? { NotInBatch(rows, p, a.batch, u, i); }
    if Untouched(p, i) {
      StaysUnpublished(rows, p, a, i);
      StaysUnlocked(rows, p, a, i);
    }
    StaysSmall(rows, p, a, u.limit);
  }

  // ---------- Runs of the whole pipeline ----------

  ghost predicate Paged(s: Pipeline.State, a: Pipeline.Action, u: Setup) {
    a.Publish? ==> IsPage(s.gen.rows, s.pub, a.p, u)
  }

  /** Workers lease what the query returns; everything else is as free as ever. */
  ghost predicate PagedRun(s: Pipeline.State, run: seq<Pipeline.Action>, u: Setup)
    decreases |run|
  {
    run == [] ||
    (Pipeline.Enabled(s, run[0]) && Paged(s, run[0], u) && PagedRun(Pipeline.Next(s, run[0]), run[1..], u))
  }

  lemma {:induction false} PagedRunIsRun(s: Pipeline.State, run: seq<Pipeline.Action>, u: Setup)
    requires PagedRun(s, run, u)
    ensures Pipeline.CanRun(s, run)
    decreases |run|
  {
    if run != [] { PagedRunIsRun(Pipeline.Next(s, run[0]), run[1..], u); }
  }

  predicate Leases(a: Pipeline.Action, i: nat) {
    a.Publish? && a.p.TakeLease? && i in a.p.batch
  }

  predicate NeverLeased(run: seq<Pipeline.Action>, i: nat) {
    forall n :: 0 <= n < |run| ==> !Leases(run[n], i)
  }

  lemma MoreRowsStarve(rows: seq<OutboxRow>, rows': seq<OutboxRow>, i: nat, u: Setup)
    requires Starved(rows, i, u) && rows <= rows'
    ensures Starved(rows', i, u)
  {
    assert forall j: nat :: j < |rows| ==> rows'[j] == rows[j];
    SubsetCount(OlderHopeless(rows, i), OlderHopeless(rows', i));
  }

  lemma StarvedPipelineStep(s: Pipeline.State, a: Pipeline.Action, u: Setup, i: nat)
    requires Pipeline.Inv(s) && Pipeline.Enabled(s, a) && Paged(s, a, u)
    requires Small(s.pub.leases, u.limit) && Starved(s.gen.rows, i, u)
    ensures !Leases(a, i)
    ensures var s' := Pipeline.Next(s, a);
      && Small(s'.pub.leases, u.limit) && Starved(s'.gen.rows, i, u)
      && (Untouched(s.pub, i) ==> Untouched(s'.pub, i))
  {
    match a
    case Produce(g) =>
      Pipeline.RowsGrow(s.gen, g);
      MoreRowsStarve(s.gen.rows, Pipeline.Next(s, a).gen.rows, i, u);
    case Publish(p) => StarvedStep(s.gen.rows, s.pub, p, u, i);
    case Charge(_) =>
  }

  /**
   For any number of workers and every run of the pipeline, whatever is produced, reset, replayed or
   fails meanwhile: a row behind that many older hopeless ones is never leased; if it was neither
   published nor leased before, it never will be.
   */
  lemma {:induction false} StarvedForever(s: Pipeline.State, run: seq<Pipeline.Action>, u: Setup, i: nat)
    requires Pipeline.Inv(s) && PagedRun(s, run, u)
    requires Small(s.pub.leases, u.limit) && Starved(s.gen.rows, i, u)
    ensures Pipeline.CanRun(s, run) && NeverLeased(run, i)
    ensures Untouched(s.pub, i) ==> Untouched(Pipeline.Exec(s, run).pub, i)
    decreases |run|
  {
    PagedRunIsRun(s, run, u);
    if run != [] {
      var s' := Pipeline.Next(s, run[0]);
      StarvedPipelineStep(s, run[0], u, i);
      Pipeline.StepKeepsInv(s, run[0]);
      StarvedForever(s', run[1..], u, i);
      assert forall n :: 0 < n < |run| ==> run[n] == run[1..][n - 1];
    }
  }
}
