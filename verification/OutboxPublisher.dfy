/**
 The publisher's worker cycle and replayer as they run when nothing else writes. Each statement
 changes the tables or the topic; the cycle is shown to perform a run of the publishing machine, so
 everything proved over interleaved runs holds for it.
 */
module OutboxPublisher {
  import opened Model
  import opened Publishing
  import opened Delivery
  import opened Cycle
  import opened Faults

  const POSTGRES_BATCH_SIZE: nat := 1000
  const REPLAY_BATCH_SIZE: nat := 15

  /** ORDER BY created_at LIMIT n over the given rows. */
  method OldestFirst(rows: seq<OutboxRow>, all: set<nat>, limit: nat) returns (batch: seq<nat>)
    requires forall i :: i in all ==> i < |rows|
    ensures |batch| <= limit && Distinct(batch) && ByAge(rows, batch)
    ensures forall j :: 0 <= j < |batch| ==> batch[j] in all
    ensures forall i :: i in all && i !in batch ==> |batch| == limit && NoneYounger(rows, batch, i)
  {
    var rest := all;
    batch := [];
    while |batch| < limit && rest != {}
      invariant |batch| <= limit && rest <= all && Distinct(batch) && ByAge(rows, batch)
      invariant forall j :: 0 <= j < |batch| ==> batch[j] in all && batch[j] !in rest
      invariant forall i :: i in all && i !in rest ==> i in batch
      invariant forall i :: i in rest ==> NoneYounger(rows, batch, i)
      decreases rest
    {
      var i := Oldest(rows, rest);
      forall k | k in rest ensures NoneYounger(rows, batch + [i], k) {
      }
      batch := batch + [i];
      rest := rest - {i};
    }
  }

  method Oldest(rows: seq<OutboxRow>, ids: set<nat>) returns (first: nat)
    requires ids != {} && forall i :: i in ids ==> i < |rows|
    ensures first in ids
    ensures forall i :: i in ids ==> rows[first].createdAt <= rows[i].createdAt
  {
    first :| first in ids;
    var rest := ids - {first};
    while rest != {}
      invariant first in ids && rest <= ids
      invariant forall i :: i in ids && i !in rest ==> rows[first].createdAt <= rows[i].createdAt
      decreases rest
    {
      var i :| i in rest;
      rest := rest - {i};
      if rows[i].createdAt < rows[first].createdAt { first := i; }
    }
  }

  class Publisher {
    var published: set<nat>
    var processed: set<string>
    var leases: seq<Lease>
    var fetched: set<nat>
    var topic: seq<Message>
    const env: Environment

    constructor (env: Environment)
      ensures this.env == env && View() == IDLE
    {
      published, processed, leases, fetched, topic := {}, {}, [], {}, [];
      this.env := env;
    }

    function View(): Pub
      reads this
    {
      Pub(published, processed, leases, fetched, topic)
    }

    // ----- the statements of a cycle -----

    /** SELECT ... FOR UPDATE SKIP LOCKED in a new transaction. */
    method GetUnpublishedOutboxEvents(rows: seq<OutboxRow>, limit: nat) returns (batch: seq<nat>)
      modifies this`leases
      ensures IsLeaseBatch(rows, old(View()), limit, batch)
      ensures Enabled(rows, old(View()), TakeLease(batch)) && View() == Next(rows, old(View()), TakeLease(batch))
    {
      batch := OldestFirst(rows, (set i: nat | i < |rows| && Leasable(rows, View(), i)), limit);
      leases := leases + [Lease(batch, 0, AtCheck, {}, [], false, Open)];
    }

    method SetLease(k: nat, l: Lease)
      requires k < |leases|
      modifies this`leases
      ensures leases == old(leases)[k := l]
    {
      leases := leases[k := l];
    }

    /** The kafka write of the row at hand; a write reported as failed may have arrived all the same. */
    method ProduceBillingChunk(rows: seq<OutboxRow>, k: nat) returns (failed: bool, ghost a: Action)
      requires Handling(rows, View(), k, AtSend) && Publishable(ToMessage(RowAt(rows, leases[k]).payload))
      modifies this`leases, this`topic, env
      ensures env.budget == if failed then old(env.budget) - 1 else old(env.budget)
      ensures env.failures == if failed then old(env.failures) + [KafkaSend] else old(env.failures)
      ensures a == if failed then SendFail(k, |topic| > |old(topic)|) else Send(k)
      ensures Enabled(rows, old(View()), a) && View() == Next(rows, old(View()), a)
    {
      var l := leases[k];
      var message := ToMessage(RowAt(rows, l).payload);
      failed := env.Fails(KafkaSend);
      if failed {
        var arrived: bool := *;
        if arrived { topic := topic + [Message(message, LostAck(k))]; }
        SetLease(k, Moved(l));
        a := SendFail(k, arrived);
      } else {
        topic := topic + [Message(message, Worker(k))];
        SetLease(k, l.(phase := AtRecord));
        a := Send(k);
      }
    }

    /**
     Validate, send and record the row at hand, which the check found unprocessed. An error means that
     the insert failed after an acknowledged send; a failed send only passes over the row.
     */
    method SendAndRecord(rows: seq<OutboxRow>, k: nat) returns (err: bool, ghost run: seq<Action>)
      requires Handling(rows, View(), k, AtSend) && !leases[k].poisoned
      requires RowAt(rows, leases[k]).eventId !in processed + leases[k].recorded
      requires !InsertedElsewhere(View(), k, RowAt(rows, leases[k]).eventId)
      modifies this`leases, this`topic, env
      ensures CanRun(rows, old(View()), run) && Exec(rows, old(View()), run) == View()
      ensures k < |leases| && leases[k].batch == old(leases[k].batch) && leases[k].status == Open
      ensures OthersKept(old(leases), leases, k)
      ensures !err ==> leases[k].pos == old(leases[k].pos) + 1 && leases[k].phase == AtCheck
      ensures err ==> leases[k].phase == AtRecord
      ensures leases[k].pos <= |leases[k].batch| && !leases[k].poisoned
      ensures env.budget <= old(env.budget) && (err ==> env.budget < old(env.budget))
      ensures env.failures == old(env.failures) || env.failures == old(env.failures) + [if err then WriteRows else KafkaSend]
      ensures env.failures == old(env.failures) <==> env.budget == old(env.budget)
      ensures env.budget < old(env.budget) ==> env.budget == old(env.budget) - 1
      ensures !err && env.budget < old(env.budget) ==>
        var row, l := old(RowAt(rows, leases[k])), old(leases[k]);
        && Publishable(ToMessage(row.payload))
        && leases[k].marks == l.marks && leases[k].recorded == l.recorded
        && (topic == old(topic) || topic == old(topic) + [Message(ToMessage(row.payload), LostAck(k))])
      ensures env.budget == old(env.budget) ==>
        var row, l := old(RowAt(rows, leases[k])), old(leases[k]);
        var sent := Publishable(ToMessage(row.payload));
        && leases[k].marks == l.marks + (if sent then [l.batch[l.pos]] else [])
        && leases[k].recorded == l.recorded + (if sent then {row.eventId} else {})
        && topic == old(topic) + (if sent then [Message(ToMessage(row.payload), Worker(k))] else [])
    {
      ghost var start := View();
      var row := RowAt(rows, leases[k]);
      err, run := false, [];
      if !Publishable(ToMessage(row.payload)) {
        RunAppend(rows, start, run, SkipInvalid(k));
        SetLease(k, Moved(leases[k]));
        run := run + [SkipInvalid(k)];
        return;
      }
      var failed; ghost var a;
      failed, a := ProduceBillingChunk(rows, k);
      RunAppend(rows, start, run, a);
      run := run + [a];
      if failed {
        return;
      }
      err := env.Fails(WriteRows);
      if err {
        return;
      }
      RunAppend(rows, start, run, Record(k));
      var l := leases[k];
      SetLease(k, Moved(l).(recorded := l.recorded + {row.eventId}, marks := l.marks + [l.batch[l.pos]]));
      run := run + [Record(k)];
    }

    /**
     One turn of the loop. An error means that the insert failed after an acknowledged send. A failed send
     only passes over the row, and a failed check dooms the transaction.
     */
    method HandleEvent(rows: seq<OutboxRow>, k: nat) returns (err: bool, ghost run: seq<Action>)
      requires Handling(rows, View(), k, AtCheck)
      requires !InsertedElsewhere(View(), k, RowAt(rows, leases[k]).eventId)
      modifies this`leases, this`topic, env
      ensures CanRun(rows, old(View()), run) && Exec(rows, old(View()), run) == View()
      ensures k < |leases| && leases[k].batch == old(leases[k].batch) && leases[k].status == Open
      ensures OthersKept(old(leases), leases, k)
      ensures leases[k].pos <= |leases[k].batch|
      ensures !err ==> leases[k].pos == old(leases[k].pos) + 1 && leases[k].phase == AtCheck
      ensures err ==> leases[k].phase == AtRecord
      ensures env.budget <= old(env.budget) && (err ==> env.budget < old(env.budget))
      ensures Accounts(old(env.failures), old(env.budget), env.failures, env.budget)
      ensures old(leases[k].poisoned) ==> leases[k].poisoned
      ensures !old(leases[k].poisoned) ==>
        (OnlyFailed(env.failures, |old(env.failures)|, {KafkaSend}) <==> !err && !leases[k].poisoned)
      ensures !err && !leases[k].poisoned ==> TurnOrLoss(rows, old(View()), View(), k, old(env.budget) - env.budget)
    {
      ghost var start := View();
      OneFailure(env.failures, LookUp, {KafkaSend});
      OneFailure(env.failures, WriteRows, {KafkaSend});
      var l := leases[k];
      var row := RowAt(rows, l);
      err, run := false, [];
      var failed := env.Fails(LookUp);
      if failed || l.poisoned {
        RunAppend(rows, start, run, CheckFail(k));
        SetLease(k, Moved(l).(poisoned := true));
        run := run + [CheckFail(k)];
        return;
      }
      if row.eventId in processed + l.recorded {
        RunAppend(rows, start, run, CheckHit(k));
        SetLease(k, Moved(l).(marks := l.marks + [l.batch[l.pos]]));
        run := run + [CheckHit(k)];
        return;
      }
      RunAppend(rows, start, run, CheckMiss(k));
      SetLease(k, l.(phase := AtSend));
      run := run + [CheckMiss(k)];
      ghost var r;
      err, r := SendAndRecord(rows, k);
      RunsCompose(rows, start, run, r);
      run := run + r;
    }

    /** One turn of the loop, seen from outside: the machine's invariant carries over. */
    method HandleNext(rows: seq<OutboxRow>, k: nat) returns (err: bool, ghost run: seq<Action>)
      requires Inv(rows, View()) && IsOpen(View(), k)
      requires leases[k].pos < |leases[k].batch| && leases[k].phase == AtCheck
      modifies this`leases, this`topic, env
      ensures InLoop(rows, old(View()), View(), k, run)
      ensures !err ==> leases[k].pos == old(leases[k].pos) + 1 && leases[k].phase == AtCheck
      ensures err ==> leases[k].phase == AtRecord
      ensures env.budget <= old(env.budget) && (err ==> env.budget < old(env.budget))
      ensures Accounts(old(env.failures), old(env.budget), env.failures, env.budget)
      ensures old(leases[k].poisoned) ==> leases[k].poisoned
      ensures !old(leases[k].poisoned) ==>
        (OnlyFailed(env.failures, |old(env.failures)|, {KafkaSend}) <==> !err && !leases[k].poisoned)
      ensures !err && !leases[k].poisoned ==> TurnOrLoss(rows, old(View()), View(), k, old(env.budget) - env.budget)
    {
      ghost var p := View();
      ReadyForTurn(rows, p, k);
      err, run := HandleEvent(rows, k);
      RunKeepsInv(rows, p, run);
    }

    /** The loop over the leased rows. It stops early only when an insert fails; a failed send stops nothing. */
    method HandleBatch(rows: seq<OutboxRow>, k: nat) returns (err: bool, ghost run: seq<Action>)
      requires Inv(rows, View()) && IsOpen(View(), k)
      requires leases[k] == Lease(leases[k].batch, 0, AtCheck, {}, [], false, Open)
      modifies this`leases, this`topic, env
      ensures InLoop(rows, old(View()), View(), k, run)
      ensures !err ==> leases[k].pos == |leases[k].batch| && leases[k].phase == AtCheck
      ensures err ==> leases[k].phase == AtRecord
      ensures env.budget <= old(env.budget) && (err ==> env.budget < old(env.budget))
      ensures Accounts(old(env.failures), old(env.budget), env.failures, env.budget)
      ensures OnlyFailed(env.failures, |old(env.failures)|, {KafkaSend}) <==> !err && !leases[k].poisoned
      ensures !err && !leases[k].poisoned ==> AllProgress(rows, old(View()), View(), k, |leases[k].batch|,
                                                          old(env.budget) - env.budget)
    {
      ghost var start, p := View(), View();
      err, run := false, [];
      NothingLostYet(rows, start, k);
      while !err && leases[k].pos < |leases[k].batch|
        invariant p == View() && InLoop(rows, start, p, k, run)
        invariant p.leases[k].phase == if err then AtRecord else AtCheck
        invariant env.budget <= old(env.budget) && (err ==> env.budget < old(env.budget))
        invariant Accounts(old(env.failures), old(env.budget), env.failures, env.budget)
        invariant OnlyFailed(env.failures, |old(env.failures)|, {KafkaSend}) <==> !err && !p.leases[k].poisoned
        invariant !err && !p.leases[k].poisoned ==>
          AllProgress(rows, start, p, k, p.leases[k].pos, old(env.budget) - env.budget)
        decreases !err, |leases[k].batch| - leases[k].pos
      {
        ghost var failures, lost: nat, budget := env.failures, old(env.budget) - env.budget, env.budget;
        ghost var r;
        err, r := HandleNext(rows, k);
        ghost var p' := View();
        LoopGoesOn(rows, start, p, p', k, run, r);
        OnlyFailedOn(failures, env.failures, |old(env.failures)|, {KafkaSend});
        if !err && !p'.leases[k].poisoned { TurnGoesOn(rows, start, p, p', k, lost, budget - env.budget); }
        run := run + r;
        p := p';
      }
    }

    /** UPDATE ... WHERE id IN (ids) inside lease k; `after` is what the transaction sees as published. */
    method BatchMarkOutboxEventsPublishedTx(rows: seq<OutboxRow>, k: nat, ids: seq<nat>, before: set<nat>)
      returns (after: set<nat>, err: bool)
      requires k < |leases|
      modifies env
      ensures env.budget <= old(env.budget)
      ensures Accounts(old(env.failures), old(env.budget), env.failures, env.budget)
      ensures OnlyFailed(env.failures, |old(env.failures)|, {MarkRows})
      ensures !err ==> env.budget == old(env.budget) && MarkBatch(rows, before, ids) == Marked(after)
      ensures err ==> env.budget < old(env.budget) || leases[k].poisoned || MarkBatch(rows, before, ids).WrongCount?
    {
      after, err := before, false;
      if ids == [] {
        return;
      }
      err := env.Fails(MarkRows);
      if err || leases[k].poisoned {
        err := true;
        return;
      }
      var touched := Touched(rows, ids);
      if |touched| != |ids| {
        err := true;
        return;
      }
      after := before + touched;
    }

    /** Marks the collected ids in pieces; on a lease's ids the rows-affected check cannot fail. */
    method MarkAll(rows: seq<OutboxRow>, k: nat) returns (after: set<nat>, err: bool)
      requires Inv(rows, View()) && IsOpen(View(), k)
      modifies env
      ensures env.budget <= old(env.budget)
      ensures Accounts(old(env.failures), old(env.budget), env.failures, env.budget)
      ensures OnlyFailed(env.failures, |old(env.failures)|, {MarkRows})
      ensures err ==> env.budget < old(env.budget) || leases[k].poisoned
      ensures !err ==> env.budget == old(env.budget) && after == published + ToSet(leases[k].marks)
    {
      var ids := leases[k].marks;
      after, err := published, false;
      if ids == [] {
        return;
      }
      var pieces := ChunkIDs(ids, POSTGRES_BATCH_SIZE);
      LeaseMarksNeverFail(rows, View(), k, pieces);
      var j := 0;
      while j < |pieces| && !err
        invariant j <= |pieces| && env.budget <= old(env.budget)
        invariant !err ==> MarkPieces(rows, after, pieces[j..]) == MarkPieces(rows, published, pieces)
        invariant !err ==> env.budget == old(env.budget)
        invariant Accounts(old(env.failures), old(env.budget), env.failures, env.budget)
        invariant OnlyFailed(env.failures, |old(env.failures)|, {MarkRows})
        invariant err ==> env.budget < old(env.budget) || leases[k].poisoned
        decreases |pieces| - j
      {
        assert pieces[j..][1..] == pieces[j + 1..];
        after, err := BatchMarkOutboxEventsPublishedTx(rows, k, pieces[j], after);
        j := j + 1;
      }
    }

    /** The end of a cycle: mark, commit; anything that fails rolls the transaction back. */
    method Conclude(rows: seq<OutboxRow>, k: nat) returns (count: nat, err: bool, ghost a: Action)
      requires Inv(rows, View()) && IsOpen(View(), k)
      requires leases[k].pos == |leases[k].batch| && leases[k].phase == AtCheck
      modifies this`published, this`processed, this`leases, env
      ensures a == if err then Abort(k) else Commit(k)
      ensures Enabled(rows, old(View()), a) && View() == Next(rows, old(View()), a)
      ensures count == if err then 0 else |old(leases[k].marks)|
      ensures env.budget <= old(env.budget)
      ensures Accounts(old(env.failures), old(env.budget), env.failures, env.budget)
      ensures OnlyFailed(env.failures, |old(env.failures)|, {MarkRows, CommitTx})
      ensures err <==> env.budget < old(env.budget) || old(leases[k].poisoned)
    {
      var l := leases[k];
      var after;
      after, err := MarkAll(rows, k);
      if !err {
        err := env.Fails(CommitTx);
        err := err || l.poisoned;
      }
      if err {
        SetLease(k, l.(status := Aborted));
        return 0, err, Abort(k);
      }
      SetLease(k, l.(status := Committed));
      published := after;
      processed := processed + l.recorded;
      return |l.marks|, err, Commit(k);
    }

    /** From a lease of at least one row to the end of its transaction. */
    method ProcessBatch(rows: seq<OutboxRow>, k: nat) returns (count: nat, err: bool, ghost run: seq<Action>)
      requires Inv(rows, View()) && IsOpen(View(), k)
      requires leases[k] == Lease(leases[k].batch, 0, AtCheck, {}, [], false, Open)
      modifies this`published, this`processed, this`leases, this`topic, env
      ensures CanRun(rows, old(View()), run) && Exec(rows, old(View()), run) == View()
      ensures EndOfLease(rows, old(View()), View(), k, count, err)
      ensures env.budget <= old(env.budget) && (err ==> env.budget < old(env.budget))
      ensures Accounts(old(env.failures), old(env.budget), env.failures, env.budget)
      ensures !err <==> OnlyFailed(env.failures, |old(env.failures)|, {KafkaSend})
      ensures !err ==>
        Outcome(rows, old(View()), View(), k, old(leases[k].batch), count, old(env.budget) - env.budget)
      ensures err ==> count == GivenUp(leases, k)
    {
      ghost var start := View();
      err, run := HandleBatch(rows, k);
      ghost var a, q := Abort(k), View();
      if err {
        // The deferred rollback; the count is of marks that are lost with it.
        count := |leases[k].marks|;
        SetLease(k, leases[k].(status := Aborted));
      } else {
        if leases[k].marks != [] { MarksAreNew(rows, q, k); }
        ghost var failures := env.failures;
        count, err, a := Conclude(rows, k);
        NoneOfOthers(failures, env.failures, |old(env.failures)|, {KafkaSend}, {MarkRows, CommitTx});
        if !err { CycleOutcome(rows, start, q, View(), k, count, old(env.budget) - env.budget); }
      }
      LastStepRuns(rows, start, q, run, a);
      run := run + [a];
    }

    /** From the lease to the end of its transaction; an empty lease is given up at once. */
    method ProcessLeased(rows: seq<OutboxRow>, k: nat) returns (count: nat, err: bool, ghost run: seq<Action>)
      requires Inv(rows, View()) && IsOpen(View(), k)
      requires leases[k] == Lease(leases[k].batch, 0, AtCheck, {}, [], false, Open)
      modifies this`published, this`processed, this`leases, this`topic, env
      ensures CanRun(rows, old(View()), run) && Exec(rows, old(View()), run) == View()
      ensures EndOfLease(rows, old(View()), View(), k, count, err)
      ensures env.budget <= old(env.budget) && (err ==> env.budget < old(env.budget))
      ensures Accounts(old(env.failures), old(env.budget), env.failures, env.budget)
      ensures !err <==> OnlyFailed(env.failures, |old(env.failures)|, {KafkaSend})
      ensures !err ==>
        Outcome(rows, old(View()), View(), k, old(leases[k].batch), count, old(env.budget) - env.budget)
      ensures err ==> count == GivenUp(leases, k)
    {
      if |leases[k].batch| == 0 {
        ghost var start := View();
        LastStepRuns(rows, start, start, [], Abort(k));
        SetLease(k, leases[k].(status := Aborted));
        count, err, run := 0, false, [] + [Abort(k)];
      } else {
        count, err, run := ProcessBatch(rows, k);
      }
    }

    /**
     One cycle: lease, handle, mark, commit. It performs a run of the publishing machine. It reports an
     error exactly when something other than a send has failed, and has then changed neither table.
     Otherwise it has leased the oldest unpublished rows; of the valid ones not yet recorded, as many as
     sends failed are passed over, and the others are sent, recorded, and published together with the
     rows recorded before. Without failures the messages are one for each of those, in order.
     */
    method ProcessOnce(rows: seq<OutboxRow>, batchSize: int)
      returns (count: nat, err: bool, ghost batch: seq<nat>, ghost run: seq<Action>)
      requires Inv(rows, View())
      modifies this`published, this`processed, this`leases, this`topic, env
      ensures CanRun(rows, old(View()), run) && Exec(rows, old(View()), run) == View() && Inv(rows, View())
      ensures CycleEnds(rows, old(View()), View(), count, err)
      ensures env.budget <= old(env.budget)
      ensures Accounts(old(env.failures), old(env.budget), env.failures, env.budget)
      ensures !err <==> batchSize >= 0 && OnlyFailed(env.failures, |old(env.failures)|, {KafkaSend})
      ensures !err ==>
        && IsLeaseBatch(rows, old(View()), batchSize, batch)
        && Outcome(rows, old(View()), View(), |old(leases)|, batch, count, old(env.budget) - env.budget)
      ensures err ==> count == GivenUp(leases, |old(leases)|) && (batchSize >= 0 ==> env.budget < old(env.budget))
      ensures batchSize < 0 ==> count == 0
      ensures batchSize >= 0 ==> |leases| + old(env.budget) - env.budget > |old(leases)|
    {
      ghost var start := View();
      count, batch, run := 0, [], [];
      OneFailure(env.failures, FetchPage, {KafkaSend});
      err := env.Fails(FetchPage);
      if err || batchSize < 0 {
        err := true;
        return;
      }
      var leased := GetUnpublishedOutboxEvents(rows, batchSize);
      ghost var k: nat, p := |start.leases|, View();
      batch := leased;
      LeaseRuns(rows, start, batch);
      ghost var r;
      count, err, r := ProcessLeased(rows, |leases| - 1);
      CycleIsLease(rows, start, p, View(), batch, count, err);
      TurnRuns(rows, start, p, [TakeLease(batch)], r);
      run := [TakeLease(batch)] + r;
    }

    /**
     The worker's cycles up to the first that handles nothing, after which it sleeps. Without failures
     it then leaves no leasable row behind except behind a full batch of older rows that the gate
     refuses: those are leased again and again.
     */
    method WorkUntilIdle(rows: seq<OutboxRow>, batchSize: int) returns (total: nat, ghost run: seq<Action>)
      requires Inv(rows, View())
      modifies this`published, this`processed, this`leases, this`topic, env
      ensures CanRun(rows, old(View()), run) && Exec(rows, old(View()), run) == View() && Inv(rows, View())
      ensures env.budget == old(env.budget) && batchSize >= 0 ==> Idle(rows, View(), batchSize)
    {
      ghost var start, p := View(), View();
      total, run := 0, [];
      var count, err := 1, false;
      while count != 0
        invariant p == View() && Inv(rows, p)
        invariant CanRun(rows, start, run) && Exec(rows, start, run) == p
        invariant env.budget <= old(env.budget)
        invariant count == 0 && env.budget == old(env.budget) && batchSize >= 0 ==> Idle(rows, p, batchSize)
        decreases count != 0, |Unpublished(rows, published)| + env.budget
      {
        ghost var batch, r;
        count, err, batch, r := ProcessOnce(rows, batchSize);
        RunsCompose(rows, start, run, r);
        run := run + r;
        total := total + count;
        if count == 0 && env.budget == old(env.budget) && batchSize >= 0 {
          NothingMarked(rows, p, View(), batchSize, batch);
        }
        p := View();
      }
    }

    /**
     The worker's loop, cut off after any number of rounds. An error ends no more than its round: each
     round leases rows unless the fetch fails. And once there have been more rounds than unpublished rows
     and failures together, the worker has been idle in the sense above.
     */
    method WorkerLoop(rows: seq<OutboxRow>, batchSize: int, rounds: nat) returns (ghost run: seq<Action>)
      requires Inv(rows, View())
      modifies this`published, this`processed, this`leases, this`topic, env
      ensures CanRun(rows, old(View()), run) && Exec(rows, old(View()), run) == View() && Inv(rows, View())
      ensures batchSize >= 0 ==> |leases| + old(env.budget) - env.budget >= |old(leases)| + rounds
      ensures batchSize >= 0 && rounds > |Unpublished(rows, old(published))| + old(env.budget) ==>
        WasIdle(rows, old(View()), run, batchSize)
    {
      ghost var start, p := View(), View();
      run := [];
      for round := 0 to rounds
        invariant p == View() && Inv(rows, p)
        invariant CanRun(rows, start, run) && Exec(rows, start, run) == p
        invariant batchSize >= 0 ==> |p.leases| + old(env.budget) - env.budget >= |start.leases| + round
        invariant batchSize >= 0 ==>
          || WasIdle(rows, start, run, batchSize)
          || |Unpublished(rows, p.published)| + env.budget + round <= |Unpublished(rows, start.published)| + old(env.budget)
      {
        ghost var budget := env.budget;
        ghost var batch, r;
        var count, err;
        count, err, batch, r := ProcessOnce(rows, batchSize);
        ghost var p' := View();
        RunsCompose(rows, start, run, r);
        if batchSize >= 0 {
          if WasIdle(rows, start, run, batchSize) {
            StillWasIdle(rows, start, run, r, batchSize);
          } else if count == 0 && env.budget == budget {
            NothingMarked(rows, p, p', batchSize, batch);
            IsIdleNow(rows, start, run + r, batchSize);
          } else {
            PublishedOnlyGrows(rows, p.published, p'.published);
          }
        }
        run := run + r;
        p := p';
      }
    }

    // ----- beside the workers -----

    /** Up to `limit` published rows of the type, in random order. */
    method PublishedRows(rows: seq<OutboxRow>, limit: nat) returns (ids: seq<nat>)
      ensures |ids| <= limit && Distinct(ids)
      ensures forall j :: 0 <= j < |ids| ==> Replayable(rows, View(), ids[j])
      ensures forall i: nat :: Replayable(rows, View(), i) && i !in ids ==> |ids| == limit
    {
      var rest := set i: nat | i < |rows| && Replayable(rows, View(), i);
      ids := [];
      while |ids| < limit && rest != {}
        invariant |ids| <= limit && Distinct(ids)
        invariant forall j :: 0 <= j < |ids| ==> Replayable(rows, View(), ids[j]) && ids[j] !in rest
        invariant forall i :: i in rest ==> Replayable(rows, View(), i)
        invariant forall i: nat :: Replayable(rows, View(), i) ==> i in ids || i in rest
        decreases rest
      {
        var i :| i in rest;
        ids := ids + [i];
        rest := rest - {i};
      }
    }

    /** The injector's reset: published_at becomes NULL again on up to `limit` rows. */
    method ResetRandomPublishedOutboxEvents(rows: seq<OutboxRow>, limit: nat) returns (count: nat, err: bool, ghost ids: seq<nat>)
      modifies this`published, env
      ensures env.budget == if err then old(env.budget) - 1 else old(env.budget)
      ensures err ==> published == old(published)
      ensures !err ==> Enabled(rows, old(View()), Reset(ToSet(ids))) && View() == Next(rows, old(View()), Reset(ToSet(ids)))
      ensures !err ==> Distinct(ids) && count == |ids| <= limit && ToSet(ids) <= old(published)
      ensures !err ==> published + ToSet(ids) == old(published)
      ensures !err && count < limit ==> forall i: nat :: !Replayable(rows, View(), i)
    {
      count, ids := 0, [];
      err := env.Fails(WriteRows);
      if err {
        return;
      }
      var chosen := PublishedRows(rows, limit);
      published := published - ToSet(chosen);
      count, ids := |chosen|, chosen;
    }

    /** One event of the replay: validate and send, no dedupe gate. */
    method ReplayEvent(rows: seq<OutboxRow>, i: nat) returns (sent: bool, ghost run: seq<Action>)
      requires Inv(rows, View()) && i in published && i in fetched
      modifies this`topic, env
      ensures CanRun(rows, old(View()), run) && Exec(rows, old(View()), run) == View()
      ensures OnlyReplays(old(topic), topic)
      ensures env.budget == if sent then old(env.budget) else old(env.budget) - 1
      ensures env.failures == if sent then old(env.failures) else old(env.failures) + [KafkaSend]
      ensures i < |rows| && (sent ==> topic == old(topic) + [Message(ToMessage(rows[i].payload), Replayer)])
      ensures topic == old(topic) || topic == old(topic) + [Message(ToMessage(rows[i].payload), Replayer)]
    {
      PublishedImpliesDelivered(rows, View(), i);
      var message := ToMessage(rows[i].payload);
      sent, run := false, [];
      if !Publishable(message) {
        return;
      }
      var failed := env.Fails(KafkaSend);
      var arrived := true;
      if failed { arrived := *; }
      if arrived {
        RunAppend(rows, View(), run, ReplaySend(i));
        topic := topic + [Message(message, Replayer)];
        run := run + [ReplaySend(i)];
      }
      sent := !failed;
    }

    /** The replay's loop over the rows it fetched. */
    method ReplayAll(rows: seq<OutboxRow>, events: seq<nat>) returns (replayed: nat, ghost run: seq<Action>)
      requires Inv(rows, View())
      requires forall j :: 0 <= j < |events| ==> events[j] in published && events[j] in fetched
      modifies this`topic, env
      ensures CanRun(rows, old(View()), run) && Exec(rows, old(View()), run) == View() && Inv(rows, View())
      ensures OnlyReplays(old(topic), topic)
      ensures env.budget <= old(env.budget)
      ensures Accounts(old(env.failures), old(env.budget), env.failures, env.budget)
      ensures OnlyFailed(env.failures, |old(env.failures)|, {KafkaSend})
      ensures replayed + old(env.budget) - env.budget == |events|
      ensures |old(topic)| + replayed <= |topic| <= |old(topic)| + |events|
      ensures env.budget == old(env.budget) ==>
        topic == old(topic) + MessagesFor(rows, events, Replayer)
    {
      ghost var start, p := View(), View();
      replayed, run := 0, [];
      for j := 0 to |events|
        invariant p == View() && Inv(rows, p)
        invariant CanRun(rows, start, run) && Exec(rows, start, run) == p
        invariant p.published == start.published && p.fetched == start.fetched
        invariant OnlyReplays(start.topic, p.topic)
        invariant env.budget <= old(env.budget)
        invariant Accounts(old(env.failures), old(env.budget), env.failures, env.budget)
        invariant OnlyFailed(env.failures, |old(env.failures)|, {KafkaSend})
        invariant replayed + old(env.budget) - env.budget == j
        invariant |start.topic| + replayed <= |p.topic| <= |start.topic| + j
        invariant env.budget == old(env.budget) ==> Replayed(rows, start, p, events, j)
      {
        var sent; ghost var r;
        sent, r := ReplayEvent(rows, events[j]);
        TurnRuns(rows, start, p, run, r);
        run := run + r;
        if sent { replayed := replayed + 1; }
        if env.budget == old(env.budget) { ReplayGrows(rows, start, p, View(), events, j); }
        p := View();
      }
      if env.budget == old(env.budget) { AllReplayed(rows, start, p, events); }
    }

    /**
     Sends published rows again, past the dedupe gate. The tables stay as they are and every message
     added is the replayer's. Only a failed fetch is an error; a failed send costs its own row and no
     other. Without failures each chosen row is sent exactly once.
     */
    method ReplayOnce(rows: seq<OutboxRow>) returns (replayed: nat, err: bool, ghost ids: seq<nat>, ghost run: seq<Action>)
      requires Inv(rows, View())
      modifies this`fetched, this`topic, env
      ensures CanRun(rows, old(View()), run) && Exec(rows, old(View()), run) == View() && Inv(rows, View())
      ensures OnlyReplays(old(topic), topic)
      ensures |ids| <= REPLAY_BATCH_SIZE && Distinct(ids)
      ensures forall j :: 0 <= j < |ids| ==> Replayable(rows, View(), ids[j])
      ensures env.budget <= old(env.budget)
      ensures Accounts(old(env.failures), old(env.budget), env.failures, env.budget)
      ensures !err <==> OnlyFailed(env.failures, |old(env.failures)|, {KafkaSend})
      ensures err ==> ids == [] && replayed == 0 && topic == old(topic)
      ensures !err ==> replayed + old(env.budget) - env.budget == |ids|
      ensures !err ==> |old(topic)| + replayed <= |topic| <= |old(topic)| + |ids|
      ensures !err ==> forall i: nat :: Replayable(rows, View(), i) && i !in ids ==> |ids| == REPLAY_BATCH_SIZE
      ensures env.budget == old(env.budget) ==> topic == old(topic) + MessagesFor(rows, ids, Replayer)
    {
      ghost var start := View();
      replayed, ids, run := 0, [], [];
      OneFailure(env.failures, FetchPage, {KafkaSend});
      err := env.Fails(FetchPage);
      if err {
        return;
      }
      var events := PublishedRows(rows, REPLAY_BATCH_SIZE);
      ids := events;
      ghost var fetch := ReplayFetch(ToSet(events));
      LastStepRuns(rows, start, start, run, fetch);
      fetched := fetched + ToSet(events);
      run := run + [fetch];
      ghost var p := View();
      ghost var r;
      replayed, r := ReplayAll(rows, events);
      TurnRuns(rows, start, p, run, r);
      run := run + r;
    }
  }
}
