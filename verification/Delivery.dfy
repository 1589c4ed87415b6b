/** What the publisher's invariant means for delivery, duplicates and resets. */
module Delivery {
  import opened Model
  import opened Publishing

  /** The message a committed lease sent for row i. */
  lemma DeliveredMessage(rows: seq<OutboxRow>, p: Pub, i: nat) returns (n: nat)
    requires Inv(rows, p) && i < |rows| && rows[i].eventId in p.processed
    ensures n < |p.topic| && p.topic[n].chunk == ToMessage(rows[i].payload)
    ensures Publishable(p.topic[n].chunk) && CategoryOf(p.leases, p.topic[n].origin) == FromCommitted
  {
    n := CountedMessage(p.topic, p.leases, rows[i].eventId, FromCommitted);
    assert MessageOk(rows, p, p.topic[n]);
    var j :| 0 <= j < |rows| && p.topic[n].chunk == ToMessage(rows[j].payload);
    assert RowMatchesPayload(rows[j]) && RowMatchesPayload(rows[i]);
  }

  /** published_at set => recorded as processed => a message with exactly that row's payload exists and is valid. */
  lemma PublishedImpliesDelivered(rows: seq<OutboxRow>, p: Pub, i: nat)
    requires Inv(rows, p) && i in p.published
    ensures i < |rows| && rows[i].eventId in p.processed
    ensures Publishable(ToMessage(rows[i].payload))
    ensures exists n :: 0 <= n < |p.topic| && p.topic[n].chunk == ToMessage(rows[i].payload)
  {
    var n := DeliveredMessage(rows, p, i);
  }

  /** Messages for an event: one if it is recorded, plus those of open, aborted, unacknowledged and replayed sends. */
  lemma ExactDuplicateAccounting(rows: seq<OutboxRow>, p: Pub, e: string)
    requires Inv(rows, p)
    ensures CountAll(p.topic, e) ==
      (if e in p.processed then 1 else 0) +
      CountIn(p.topic, p.leases, e, FromOpen) + CountIn(p.topic, p.leases, e, FromAborted) +
      CountIn(p.topic, p.leases, e, FromLostAck) + CountIn(p.topic, p.leases, e, FromReplayer)
  {
    CategoriesAddUp(p.topic, p.leases, e);
  }

  /** An event recorded by lease k is the event of one of its rows. */
  lemma RecordedRow(rows: seq<OutboxRow>, p: Pub, k: nat, e: string) returns (i: nat)
    requires Inv(rows, p) && k < |p.leases| && e in p.leases[k].recorded
    ensures i < |rows| && i in p.leases[k].batch && rows[i].eventId == e
  {
    assert LeaseOk(rows, p, k);
    var l := p.leases[k];
    var j :| 0 <= j < l.pos && l.batch[j] < |rows| && rows[l.batch[j]].eventId == e;
    i := l.batch[j];
  }

  /** No other open transaction has inserted the event of the row that lease k is handling. */
  lemma RowIsNobodyElses(rows: seq<OutboxRow>, p: Pub, k: nat)
    requires Inv(rows, p) && IsOpen(p, k) && p.leases[k].pos < |p.leases[k].batch|
    ensures p.leases[k].batch[p.leases[k].pos] < |rows|
    ensures !InsertedElsewhere(p, k, RowAt(rows, p.leases[k]).eventId)
  {
    var l := p.leases[k];
    assert LeaseOk(rows, p, k);
    var mine := l.batch[l.pos];
    assert mine in l.batch;
    forall j: nat | j < |p.leases| && j != k && p.leases[j].status == Open
      ensures rows[mine].eventId !in p.leases[j].recorded
    {
      assert IsOpen(p, j);
      forall f | f in p.leases[j].recorded ensures f != rows[mine].eventId {
        var i := RecordedRow(rows, p, j, f);
      }
    }
  }

  /**
   A worker that has sent and is about to record never meets the UNIQUE constraint of
   processed_outbox_events: not against committed rows, not against another open transaction.
   */
  lemma RecordNeverConflicts(rows: seq<OutboxRow>, p: Pub, k: nat)
    requires Inv(rows, p) && Handling(rows, p, k, AtRecord)
    ensures Enabled(rows, p, Record(k))
  {
    assert LeaseOk(rows, p, k) && InFlight(rows, p.leases[k], RowAt(rows, p.leases[k]).eventId);
    RowIsNobodyElses(rows, p, k);
  }

  // ---------- Resets are absorbed ----------

  predicate BatchRecorded(rows: seq<OutboxRow>, p: Pub, batch: seq<nat>) {
    forall j :: 0 <= j < |batch| ==> batch[j] < |rows| && rows[batch[j]].eventId in p.processed
  }

  /** Every open lease holds only rows that are already recorded, and has recorded nothing itself. */
  predicate OpenLeasesRecorded(rows: seq<OutboxRow>, p: Pub) {
    forall k :: 0 <= k < |p.leases| && p.leases[k].status == Open ==>
      p.leases[k].phase == AtCheck && p.leases[k].recorded == {} && BatchRecorded(rows, p, p.leases[k].batch)
  }

  /** Only the replayer added messages. */
  ghost predicate OnlyReplays(before: seq<Message>, after: seq<Message>) {
    before <= after && forall n :: |before| <= n < |after| ==> after[n].origin == Replayer
  }

  lemma ReplaysOnly(before: seq<Message>, between: seq<Message>, after: seq<Message>)
    requires OnlyReplays(before, between) && OnlyReplays(between, after)
    ensures OnlyReplays(before, after)
  {
  }

  lemma AbsorbStep(rows: seq<OutboxRow>, p: Pub, a: Action)
    requires Inv(rows, p) && Enabled(rows, p, a) && OpenLeasesRecorded(rows, p)
    requires a.TakeLease? ==> BatchRecorded(rows, p, a.batch)
    ensures var p' := Next(rows, p, a);
      p'.processed == p.processed && OpenLeasesRecorded(rows, p') && OnlyReplays(p.topic, p'.topic)
  {
  }

  /** Nobody but the replayer added a message for event e. */
  ghost predicate OnlyReplaysOf(before: seq<Message>, after: seq<Message>, e: string) {
    before <= after && forall n :: |before| <= n < |after| && after[n].chunk.eventId == e ==> after[n].origin == Replayer
  }

  lemma ReplaysOnlyOf(before: seq<Message>, between: seq<Message>, after: seq<Message>, e: string)
    requires OnlyReplaysOf(before, between, e) && OnlyReplaysOf(between, after, e)
    ensures OnlyReplaysOf(before, after, e)
  {
  }

  lemma RecordedStep(rows: seq<OutboxRow>, p: Pub, a: Action, e: string)
    requires Inv(rows, p) && Enabled(rows, p, a) && e in p.processed
    ensures e in Next(rows, p, a).processed && OnlyReplaysOf(p.topic, Next(rows, p, a).topic, e)
  {
    if a.Send? || a.SendFail? {
      assert LeaseOk(rows, p, a.k) && InFlight(rows, p.leases[a.k], RowAt(rows, p.leases[a.k]).eventId);
      assert RowMatchesPayload(RowAt(rows, p.leases[a.k]));
    }
  }

  /** n checks by lease k, each finding its event recorded, then the commit. */
  function HitsThenCommit(k: nat, n: nat): seq<Action> {
    if n == 0 then [Commit(k)] else [CheckHit(k)] + HitsThenCommit(k, n - 1)
  }

  lemma {:induction false} HitsMark(rows: seq<OutboxRow>, p: Pub, k: nat, n: nat)
    requires IsOpen(p, k)
    requires var l := p.leases[k];
      && l.phase == AtCheck && !l.poisoned && l.recorded == {} && n == |l.batch| - l.pos
      && l.marks == l.batch[..l.pos] && BatchRecorded(rows, p, l.batch)
    ensures CanRun(rows, p, HitsThenCommit(k, n))
    ensures var p' := Exec(rows, p, HitsThenCommit(k, n));
      && p'.published == p.published + ToSet(p.leases[k].batch)
      && p'.processed == p.processed && p'.topic == p.topic
    decreases n
  {
    var l := p.leases[k];
    var run := HitsThenCommit(k, n);
    if n == 0 {
      assert l.marks == l.batch;
      assert run[1..] == [];
    } else {
      var p' := Next(rows, p, CheckHit(k));
      assert l.batch[..l.pos + 1] == l.batch[..l.pos] + [l.batch[l.pos]];
      HitsMark(rows, p', k, n - 1);
      assert run[0] == CheckHit(k) && run[1..] == HitsThenCommit(k, n - 1);
    }
  }

  function Cycle(p: Pub, batch: seq<nat>): seq<Action> {
    [TakeLease(batch)] + HitsThenCommit(|p.leases|, |batch|)
  }

  /**
   Reset any published rows, then run one fault-free publisher cycle whose batch covers them: every
   row that was published is published again, nothing is sent and nothing new is recorded.
   */
  lemma ResetThenCycleRestores(rows: seq<OutboxRow>, p: Pub, ids: set<nat>, batch: seq<nat>)
    requires Inv(rows, p) && Enabled(rows, p, Reset(ids))
    requires Enabled(rows, Next(rows, p, Reset(ids)), TakeLease(batch)) && BatchRecorded(rows, p, batch)
    requires forall i :: i in ids ==> i in batch
    ensures var p1 := Next(rows, p, Reset(ids));
      CanRun(rows, p1, Cycle(p1, batch)) &&
      var p2 := Exec(rows, p1, Cycle(p1, batch));
      && p2.published == p.published + ToSet(batch)
      && p2.processed == p.processed && p2.topic == p.topic
  {
    var p1 := Next(rows, p, Reset(ids));
    var pl := Next(rows, p1, TakeLease(batch));
    HitsMark(rows, pl, |p1.leases|, |batch|);
    assert Cycle(p1, batch)[1..] == HitsThenCommit(|p1.leases|, |batch|);
  }

  // ---------- Marking in pieces ----------

  datatype MarkResult = Marked(published: set<nat>) | WrongCount(updated: nat)

  function Touched(rows: seq<OutboxRow>, ids: seq<nat>): set<nat> {
    set i | i in ids && i < |rows|
  }

  /** One UPDATE ... WHERE id IN (ids): it must touch exactly as many rows as there are ids. */
  function MarkBatch(rows: seq<OutboxRow>, published: set<nat>, ids: seq<nat>): MarkResult {
    var touched := Touched(rows, ids);
    if ids == [] || |touched| == |ids| then Marked(published + touched) else WrongCount(|touched|)
  }

  function MarkPieces(rows: seq<OutboxRow>, published: set<nat>, pieces: seq<seq<nat>>): MarkResult
    decreases |pieces|
  {
    if pieces == [] then Marked(published)
    else
      match MarkBatch(rows, published, pieces[0])
      case WrongCount(n) => WrongCount(n)
      case Marked(after) => MarkPieces(rows, after, pieces[1..])
  }

  function Flatten(pieces: seq<seq<nat>>): seq<nat> {
    if pieces == [] then [] else pieces[0] + Flatten(pieces[1..])
  }

  lemma {:induction false} DistinctCount(ids: seq<nat>)
    ensures |ToSet(ids)| <= |ids|
    ensures |ToSet(ids)| == |ids| <==> Distinct(ids)
  {
    if ids != [] {
      var front, last := ids[..|ids| - 1], ids[|ids| - 1];
      DistinctCount(front);
      var all, before := ToSet(ids), ToSet(front);
      assert ids == front + [last] && all == before + {last};
      if last in front {
        assert all == before;
        var j :| 0 <= j < |front| && front[j] == last;
        assert ids[j] == ids[|front|] && !Distinct(ids);
      } else {
        assert last !in before && |all| == |before| + 1;
        if Distinct(front) {
          forall i, j | 0 <= i < j < |ids| ensures ids[i] != ids[j] { assert ids[i] == front[i]; }
        } else {
          var i, j :| 0 <= i < j < |front| && front[i] == front[j];
          assert ids[i] == ids[j];
        }
      }
    }
  }

  /** The rows-affected check passes exactly on lists of distinct existing ids. */
  lemma MarkBatchExactly(rows: seq<OutboxRow>, published: set<nat>, ids: seq<nat>)
    ensures MarkBatch(rows, published, ids).Marked? <==> Distinct(ids) && Exist(rows, ids)
    ensures MarkBatch(rows, published, ids).Marked? ==>
      MarkBatch(rows, published, ids).published == published + ToSet(ids)
  {
    var touched := Touched(rows, ids);
    var all := ToSet(ids);
    DistinctCount(ids);
    assert touched <= all;
    SubsetCount(touched, all);
    if touched == all {
      forall k | 0 <= k < |ids| ensures ids[k] < |rows| { assert ids[k] in touched; }
    }
  }

  lemma SubsetCount(a: set<nat>, b: set<nat>)
    requires a <= b
    ensures |a| <= |b| && (|a| == |b| <==> a == b)
  {
    assert b == a + (b - a);
    assert |b| == |a| + |b - a|;
  }

  predicate Exist(rows: seq<OutboxRow>, ids: seq<nat>) {
    forall k :: 0 <= k < |ids| ==> ids[k] < |rows|
  }

  lemma PartsOfDistinct(rows: seq<OutboxRow>, head: seq<nat>, tail: seq<nat>)
    requires Distinct(head + tail) && Exist(rows, head + tail)
    ensures Distinct(head) && Distinct(tail) && Exist(rows, head) && Exist(rows, tail)
    ensures ToSet(head + tail) == ToSet(head) + ToSet(tail)
  {
    var all := head + tail;
    forall k | 0 <= k < |head| ensures head[k] == all[k] {}
    forall k | 0 <= k < |tail| ensures tail[k] == all[|head| + k] {}
  }

  /** Marking piece by piece reaches the same table as marking the whole list at once. */
  lemma {:induction false} MarkingInPieces(rows: seq<OutboxRow>, published: set<nat>, pieces: seq<seq<nat>>)
    requires Distinct(Flatten(pieces)) && Exist(rows, Flatten(pieces))
    ensures MarkPieces(rows, published, pieces) == MarkBatch(rows, published, Flatten(pieces))
    ensures MarkPieces(rows, published, pieces) == Marked(published + ToSet(Flatten(pieces)))
    decreases |pieces|
  {
    MarkBatchExactly(rows, published, Flatten(pieces));
    if pieces != [] {
      var head, tail := pieces[0], Flatten(pieces[1..]);
      PartsOfDistinct(rows, head, tail);
      MarkBatchExactly(rows, published, head);
      MarkingInPieces(rows, published + ToSet(head), pieces[1..]);
      assert published + ToSet(head) + ToSet(tail) == published + ToSet(head + tail);
    }
  }

  /** On the ids an open lease collected, marking in any pieces succeeds and marks exactly those ids. */
  lemma LeaseMarksNeverFail(rows: seq<OutboxRow>, p: Pub, k: nat, pieces: seq<seq<nat>>)
    requires Inv(rows, p) && k < |p.leases| && Flatten(pieces) == p.leases[k].marks
    ensures MarkPieces(rows, p.published, pieces) == Marked(p.published + ToSet(p.leases[k].marks))
  {
    var l := p.leases[k];
    assert LeaseOk(rows, p, k);
    forall j | 0 <= j < |l.marks| ensures l.marks[j] < |rows| {
      assert l.marks[j] in l.batch[..l.pos];
    }
    MarkingInPieces(rows, p.published, pieces);
  }

  /** The loop that cuts the id list into pieces. */
  method ChunkIDs(ids: seq<nat>, size: nat) returns (pieces: seq<seq<nat>>)
    requires size > 0
    ensures Flatten(pieces) == ids
    ensures |pieces| >= 1
    ensures forall k :: 0 <= k < |pieces| - 1 ==> |pieces[k]| == size
    ensures |pieces[|pieces| - 1]| <= size
    ensures ids != [] ==> pieces[|pieces| - 1] != []
  {
    pieces := [];
    var rest := ids;
    while size < |rest|
      invariant Flatten(pieces) + rest == ids
      invariant forall k :: 0 <= k < |pieces| ==> |pieces[k]| == size
      invariant ids != [] ==> rest != []
    {
      FlattenAppend(pieces, rest[..size]);
      assert rest == rest[..size] + rest[size..];
      rest, pieces := rest[size..], pieces + [rest[..size]];
    }
    FlattenAppend(pieces, rest);
    pieces := pieces + [rest];
  }

  lemma {:induction false} FlattenAppend(pieces: seq<seq<nat>>, last: seq<nat>)
    ensures Flatten(pieces + [last]) == Flatten(pieces) + last
  {
    if pieces == [] {
      assert Flatten([last]) == last + Flatten([]);
    } else {
      FlattenAppend(pieces[1..], last);
      assert (pieces + [last])[1..] == pieces[1..] + [last];
    }
  }
}
