/**
 The usage service's operations as they run when nothing else writes: seeding, the scanner and the
 finisher. Each is shown to perform a serialised run of the chunk-generation machine.
 */
module UsageService {
  import opened Model
  import opened Generation
  import opened Clock
  import opened Tiling
  import opened Order
  import opened Paging
  import opened Faults

  class Service {
    var now: int
    const interval: int
    var sessions: map<string, Session>
    var rows: seq<OutboxRow>
    const env: Environment

    constructor (now: int, interval: int, env: Environment)
      ensures this.interval == interval && this.env == env
      ensures View() == Initial(now, interval)
      ensures Valid()
    {
      this.now := now;
      this.interval := interval;
      this.sessions := map[];
      this.rows := [];
      this.env := env;
    }

    /** The tables as a state of the machine; between operations no window is open. */
    function View(): Gen
      reads this
    {
      Gen(now, interval, sessions, map[], rows)
    }

    /** The primary key column holds the key, and no key is empty. */
    ghost predicate Valid()
      reads this
    {
      forall id :: id in sessions ==> sessions[id].id == id && id != ""
    }

    /** time.Now(): any later reading. */
    method Now() returns (t: int)
      modifies this`now
      ensures old(now) <= now == t
    {
      t := now;
      if * { t :| t >= now; }
      now := t;
    }

    function EventIds(): set<string>
      reads this
    {
      set i | 0 <= i < |rows| :: rows[i].eventId
    }

    method CreateSession(organizationId: string, sandboxId: string, startAt: Option<int>)
      returns (err: bool, ghost run: seq<Action>)
      requires Valid()
      modifies this`now, this`sessions, env
      ensures Valid() && old(now) <= now
      ensures SerialRun(old(View()), run) && CanRun(old(View()), run) && Exec(old(View()), run) == View()
      ensures sandboxId != "" && (startAt.Some? ==> startAt.value <= now) ==> ServiceRun(old(View()), run)
      ensures Accounts(old(env.failures), old(env.budget), env.failures, env.budget)
      ensures err <==> env.budget < old(env.budget)
      ensures err ==> sessions == old(sessions)
      ensures !err ==>
        var start := if startAt.Some? then startAt.value else now;
        exists id :: id !in old(sessions) && sessions == old(sessions)[id :=
          Session(id, sandboxId, organizationId, start, None, SessionActive, Some(start), BillingActive, 0)]
    {
      var sessionId := env.NewId(sessions.Keys);
      ghost var before := View();
      var t := Now();
      run := [AdvanceClock(t)];
      var failed := env.Fails(WriteRows);
      if failed || sessionId in sessions {
        return true, run;
      }
      var start := t;
      if startAt.Some? { start := startAt.value; }
      sessions := sessions[sessionId := NewSession(sessionId, sandboxId, organizationId, start)];
      CreateRuns(before, t, sessionId, sandboxId, organizationId, startAt);
      run := [AdvanceClock(t), Action.CreateSession(sessionId, sandboxId, organizationId, startAt)];
      err := false;
    }

    /** One chunk for a session row the scanner has read. */
    method CreateOutboxEvent(session: Session) returns (err: bool, ghost run: seq<Action>)
      requires Valid() && session.id in sessions && sessions[session.id] == session
      requires IsUnbilled(session, now - interval)
      modifies this`now, this`sessions, this`rows, env
      ensures Valid() && env.budget <= old(env.budget) && (err ==> env.budget < old(env.budget))
      ensures Attempted(old(View()), View(), run, Scanner, session.id, err)
      ensures Accounts(old(env.failures), old(env.budget), env.failures, env.budget)
      ensures OnlyFailed(env.failures, |old(env.failures)|, ONE_SESSION)
      ensures !err ==> env.budget == old(env.budget)
    {
      ghost var before := View();
      run := [];
      AttemptFails(before, now, Scanner, session.id);
      var failed := env.Fails(BeginTx);
      if failed {
        return true, run;
      }
      var from := session.startAt;
      if session.lastBilledAt.Some? { from := session.lastBilledAt.value; }
      var to := Now();
      var t := to;
      if session.endAt.Some? && session.endAt.value < to { to := session.endAt.value; }
      var newSequence := session.billingSequence + 1;
      var eventId := env.NewId(EventIds());
      var payload := Chunk(eventId, session.id, session.sandboxId, session.organizationId, newSequence, from, to);
      var made := Now();
      AttemptFails(before, made, Scanner, session.id);
      run := [AdvanceClock(made)];
      failed := env.Fails(WriteRows);
      if failed || eventId in EventIds() {
        return true, run;
      }
      assert !EventIdTaken(rows, eventId);
      rows := rows + [OutboxRow(eventId, BILLING_CHUNK_CREATED, session.id, newSequence, payload, made)];
      sessions := sessions[session.id := session.(lastBilledAt := Some(to), billingSequence := newSequence)];
      run := ChunkRun(Scanner, session.id, eventId, t, made);
      assert View() == AfterChunk(before, Scanner, session.id, eventId, t, made);
      ChunkCommits(before, Scanner, session.id, eventId, t, made);
      err := false;
    }

    /** Finishes a session: reads it, whatever its status, and bills it up to now. */
    method FinishSession(sessionId: string) returns (err: bool, ghost run: seq<Action>)
      requires Valid()
      modifies this`now, this`sessions, this`rows, env
      ensures Valid() && env.budget <= old(env.budget)
      ensures Attempted(old(View()), View(), run, Finisher, sessionId, err)
      ensures err ==> sessionId !in sessions || env.budget < old(env.budget)
      ensures Accounts(old(env.failures), old(env.budget), env.failures, env.budget)
      ensures OnlyFailed(env.failures, |old(env.failures)|, ONE_SESSION)
      ensures !err ==> env.budget == old(env.budget)
      ensures !err ==> sessionId in sessions && sessions[sessionId].billingStatus == BillingCompleted
    {
      ghost var before := View();
      run := [];
      AttemptFails(before, now, Finisher, sessionId);
      var failed := env.Fails(BeginTx);
      if failed || sessionId !in sessions {
        return true, run;
      }
      var session := sessions[sessionId];
      var t := Now();
      var newSequence := session.billingSequence + 1;
      var eventId := env.NewId(EventIds());
      var from := ZERO_TIME;
      if session.lastBilledAt.Some? { from := session.lastBilledAt.value; }
      var payload := Chunk(eventId, session.id, session.sandboxId, session.organizationId, newSequence, from, t);
      var made := Now();
      AttemptFails(before, made, Finisher, sessionId);
      run := [AdvanceClock(made)];
      failed := env.Fails(WriteRows);
      if failed || eventId in EventIds() {
        return true, run;
      }
      assert !EventIdTaken(rows, eventId);
      sessions := sessions[sessionId := session.(
        lastBilledAt := Some(t), billingSequence := newSequence,
        status := SessionFinished, endAt := Some(t), billingStatus := BillingCompleted)];
      rows := rows + [OutboxRow(eventId, BILLING_CHUNK_CREATED, session.id, newSequence, payload, made)];
      run := ChunkRun(Finisher, sessionId, eventId, t, made);
      assert View() == AfterChunk(before, Finisher, sessionId, eventId, t, made);
      ChunkCommits(before, Finisher, sessionId, eventId, t, made);
      err := false;
    }

    method CountUnbilledUsageSessions() returns (count: nat, err: bool)
      requires Valid()
      modifies this`now, env
      ensures old(now) <= now
      ensures env.budget == if err then old(env.budget) - 1 else old(env.budget)
      ensures env.failures == if err then old(env.failures) + [CountRows] else old(env.failures)
      ensures !err ==> count == |UnbilledBeyond(sessions, now - interval, "")|
    {
      var t := Now();
      err := env.Fails(CountRows);
      count := |UnbilledBeyond(sessions, t - interval, "")|;
    }

    method GetUnbilledUsageSessionsAfterCursor(lastId: string, limit: nat) returns (batch: seq<Session>, err: bool)
      requires Valid()
      modifies this`now, env
      ensures old(now) <= now
      ensures env.budget == if err then old(env.budget) - 1 else old(env.budget)
      ensures env.failures == if err then old(env.failures) + [FetchPage] else old(env.failures)
      ensures IsPage(sessions, now - interval, lastId, limit, batch)
    {
      var t := Now();
      err := env.Fails(FetchPage);
      var all := UnbilledBeyond(sessions, t - interval, lastId);
      var rest := all;
      batch := [];
      while |batch| < limit && rest != {}
        invariant |batch| <= limit && rest <= all
        invariant Ascending(Ids(batch))
        invariant forall k :: 0 <= k < |batch| ==> batch[k].id in all && sessions[batch[k].id] == batch[k]
        invariant forall id :: id in all && id !in rest ==> id in Ids(batch)
        invariant forall id, k :: id in rest && 0 <= k < |batch| ==> Less(batch[k].id, id)
        modifies {}
        decreases rest
      {
        var id := Least(rest);
        ghost var ids := Ids(batch);
        batch := batch + [sessions[id]];
        assert Ids(batch) == ids + [id];
        rest := rest - {id};
      }
    }

    /** One turn of the scanner's inner loop: the cursor moves to the session, or an error is skipped. */
    method BillNext(batch: seq<Session>, j: nat, cursor: string, processed: nat, ghost was: map<string, Session>, ghost n: nat,
                    ghost cutoff: int, ghost before: Gen, ghost from: string, ghost run: seq<Action>, ghost failed: nat)
      returns (lastId: string, total: nat, ghost run': seq<Action>, ghost failed': nat)
      requires Valid() && j < |batch| && cutoff <= now - interval && PageReady(was, cutoff, batch)
      requires PageLoop(was, n, batch, j, before, View(), run, from, cursor, processed, failed)
      modifies this`now, this`sessions, this`rows, env
      ensures Valid() && env.budget <= old(env.budget) && failed' <= failed + old(env.budget) - env.budget
      ensures PageLoop(was, n, batch, j + 1, before, View(), run', from, lastId, total, failed')
      ensures |IdsBeyond(was.Keys, lastId)| + env.budget < |IdsBeyond(was.Keys, cursor)| + old(env.budget)
      ensures Accounts(old(env.failures), old(env.budget), env.failures, env.budget)
      ensures OnlyFailed(env.failures, |old(env.failures)|, ONE_SESSION)
    {
      ghost var g := View();
      RowIsReady(was, n, cutoff, batch, j, before, g, run, from, cursor, processed, failed);
      var session := batch[j];
      var err; ghost var r;
      err, r := CreateOutboxEvent(session);
      PageTurn(was, n, cutoff, batch, j, before, g, View(), run, r, from, cursor, processed, failed, err);
      lastId, total, run', failed' := cursor, processed, run + r, failed;
      if err {
        failed' := failed + 1;
      } else {
        lastId, total := session.id, processed + 1;
      }
    }

    /**
     The scanner's inner loop over one page: a failed session is skipped and the cursor stays put. All
     others are billed, and the cursor ends at the last of them.
     */
    method BillPage(batch: seq<Session>, cursor: string, ghost was: map<string, Session>, ghost n: nat)
      returns (lastId: string, processed: nat, ghost run: seq<Action>)
      requires Valid() && batch != []
      requires InPage(was, n, batch, 0, View(), cursor) && PageReady(was, now - interval, batch)
      modifies this`now, this`sessions, this`rows, env
      ensures Valid() && old(now) <= now
      ensures Performs(old(View()), run, View())
      ensures old(rows) <= rows && |rows| == |old(rows)| + processed
      ensures InPage(was, n, batch, |batch|, View(), lastId)
      ensures env.budget <= old(env.budget)
      ensures |IdsBeyond(was.Keys, lastId)| + env.budget < |IdsBeyond(was.Keys, cursor)| + old(env.budget)
      ensures Accounts(old(env.failures), old(env.budget), env.failures, env.budget)
      ensures OnlyFailed(env.failures, |old(env.failures)|, ONE_SESSION)
      ensures |Unbilled(rows, n, batch, |batch|)| <= old(env.budget) - env.budget
      ensures lastId == cursor || lastId in Ids(batch)
    {
      ghost var before, cutoff, failed: nat := View(), now - interval, 0;
      lastId, processed, run := cursor, 0, [];
      for j := 0 to |batch|
        invariant Valid() && cutoff <= now - interval && env.budget <= old(env.budget)
        invariant failed <= old(env.budget) - env.budget
        invariant PageLoop(was, n, batch, j, before, View(), run, cursor, lastId, processed, failed)
        invariant Accounts(old(env.failures), old(env.budget), env.failures, env.budget)
        invariant OnlyFailed(env.failures, |old(env.failures)|, ONE_SESSION)
        invariant |IdsBeyond(was.Keys, lastId)| + env.budget + j <= |IdsBeyond(was.Keys, cursor)| + old(env.budget)
      {
        ghost var failures := env.failures;
        lastId, processed, run, failed :=
          BillNext(batch, j, lastId, processed, was, n, cutoff, before, cursor, run, failed);
        OnlyFailedOn(failures, env.failures, |old(env.failures)|, ONE_SESSION);
      }
    }

    /**
     One round of the scan: fetch the page past the cursor and bill it. It is the last one when the
     fetch fails, or when nothing eligible is left past the cursor.
     */
    method ScanRound(cursor: string, ghost was: map<string, Session>, ghost cutoff: int, ghost n: nat, ghost failed: nat)
      returns (lastId: string, processed: nat, done: bool, err: bool, ghost run: seq<Action>)
      requires Valid() && ScanState(was, cutoff, View(), n, cursor, failed)
      modifies this`now, this`sessions, this`rows, env
      ensures Valid()
      ensures env.budget <= old(env.budget) && (err ==> done && env.budget < old(env.budget))
      ensures Scanning(was, cutoff, old(View()), View(), n, run, lastId, processed, failed + old(env.budget) - env.budget)
      ensures done && !err ==> Unserved(was, cutoff, rows, n) == PassedBy(was, cutoff, rows, n, lastId)
      ensures Accounts(old(env.failures), old(env.budget), env.failures, env.budget)
      ensures !err <==> OnlyFailed(env.failures, |old(env.failures)|, ONE_SESSION)
      ensures !done ==>
        |IdsBeyond(was.Keys, lastId)| + env.budget < |IdsBeyond(was.Keys, cursor)| + old(env.budget)
    {
      ghost var before := View();
      lastId, processed, done := cursor, 0, true;
      var batch;
      batch, err := GetUnbilledUsageSessionsAfterCursor(cursor, BATCH_SIZE);
      ghost var page := View();
      RoundStarts(was, cutoff, before, page, n, cursor, failed, batch);
      run := [AdvanceClock(now)];
      if err { OneFailure(old(env.failures), FetchPage, ONE_SESSION); }
      if !err && |batch| > 0 {
        done := false;
        ghost var r;
        lastId, processed, r := BillPage(batch, cursor, was, n);
        RoundEnds(was, cutoff, before, page, View(), n, run, r, cursor, lastId, processed,
                  failed, old(env.budget) - env.budget, batch);
        run := run + r;
      }
    }

    /** The rounds of the scan, from the first page to the last. */
    method ScanPages(ghost was: map<string, Session>, ghost cutoff: int, ghost n: nat)
      returns (err: bool, totalProcessed: nat, ghost lastId: string, ghost run: seq<Action>)
      requires Valid() && ScanState(was, cutoff, View(), n, "", 0)
      modifies this`now, this`sessions, this`rows, env
      ensures Valid() && env.budget <= old(env.budget)
      ensures Scanning(was, cutoff, old(View()), View(), n, run, lastId, totalProcessed, old(env.budget) - env.budget)
      ensures Accounts(old(env.failures), old(env.budget), env.failures, env.budget)
      ensures !err <==> OnlyFailed(env.failures, |old(env.failures)|, ONE_SESSION)
      ensures !err ==> Unserved(was, cutoff, rows, n) == PassedBy(was, cutoff, rows, n, lastId)
    {
      ghost var before, g := View(), View();
      var cursor, done := "", false;
      err, totalProcessed, run := false, 0, [];
      while !done
        invariant g == View() && Valid() && env.budget <= old(env.budget)
        invariant Scanning(was, cutoff, before, g, n, run, cursor, totalProcessed, old(env.budget) - env.budget)
        invariant Accounts(old(env.failures), old(env.budget), env.failures, env.budget)
        invariant !err <==> OnlyFailed(env.failures, |old(env.failures)|, ONE_SESSION)
        invariant err ==> done
        invariant done && !err ==> Unserved(was, cutoff, g.rows, n) == PassedBy(was, cutoff, g.rows, n, cursor)
        decreases !done, |IdsBeyond(was.Keys, cursor)| + env.budget
      {
        ghost var failures, from := env.failures, cursor;
        ghost var failed: nat := old(env.budget) - env.budget;
        var processed; ghost var r;
        cursor, processed, done, err, r := ScanRound(cursor, was, cutoff, n, failed);
        OnlyFailedOn(failures, env.failures, |old(env.failures)|, ONE_SESSION);
        ScanGoesOn(was, cutoff, before, g, View(), n, run, r, from, cursor, totalProcessed, processed,
                   failed, old(env.budget) - env.budget);
        totalProcessed := totalProcessed + processed;
        run := run + r;
        g := View();
      }
      lastId := cursor;
    }

    /**
     The scanner. Pages through the unbilled sessions in id order; the cursor moves only when a
     chunk was committed. It performs a serialised run; no session gets two chunks and one that gets
     none keeps its row and stays eligible. Only a failed count or fetch ends it early. Otherwise the
     sessions eligible at the start that get no chunk are at most as many as there were failures, and
     each comes before one that got its chunk.
     */
    method ScanAndCreateOutboxEvents() returns (err: bool, totalProcessed: nat, ghost run: seq<Action>)
      requires Valid()
      modifies this`now, this`sessions, this`rows, env
      ensures Valid() && env.budget <= old(env.budget)
      ensures Accounts(old(env.failures), old(env.budget), env.failures, env.budget)
      ensures !err <==> OnlyFailed(env.failures, |old(env.failures)|, ONE_SESSION)
      ensures Scanned(old(View()), View(), run, totalProcessed, old(env.budget) - env.budget, err)
    {
      ghost var before, n, was := View(), |rows|, sessions;
      ghost var cutoff := now - interval;
      var totalCount;
      totalCount, err := CountUnbilledUsageSessions();
      totalProcessed := 0;
      ghost var counted := View();
      run := [AdvanceClock(now)];
      if err {
        ScanStarts(before, counted, 1);
        OneFailure(old(env.failures), CountRows, ONE_SESSION);
        return;
      }
      if totalCount == 0 {
        NothingToScan(before, counted);
        return;
      }
      ScanStarts(before, counted, 0);
      ghost var lastId, r;
      err, totalProcessed, lastId, r := ScanPages(was, cutoff, n);
      ScanFinishes(was, cutoff, n, before, counted, View(), run, r, lastId, totalProcessed, old(env.budget) - env.budget, err);
      run := run + r;
    }

    method CountActiveSessions() returns (count: nat, err: bool)
      modifies env
      ensures env.budget == if err then old(env.budget) - 1 else old(env.budget)
      ensures env.failures == if err then old(env.failures) + [CountRows] else old(env.failures)
      ensures count == |Active(sessions)|
    {
      err := env.Fails(CountRows);
      count := |Active(sessions)|;
    }

    /** A negative LIMIT is an error of its own. */
    method GetActiveSessionIDs(limit: int) returns (ids: seq<string>, err: bool)
      modifies env
      ensures limit < 0 ==> err
      ensures env.budget <= old(env.budget)
      ensures Accounts(old(env.failures), old(env.budget), env.failures, env.budget)
      ensures env.failures == old(env.failures) || (err && env.failures == old(env.failures) + [FetchPage])
      ensures limit >= 0 && env.failures == old(env.failures) ==> !err
      ensures !err ==> IsActivePage(sessions, limit, ids)
    {
      ids := [];
      err := env.Fails(FetchPage);
      if limit < 0 {
        err := true;
      }
      if !err {
        ids := FirstActive(limit);
      }
    }

    /** ORDER BY start_at LIMIT n over the active sessions. */
    method FirstActive(limit: nat) returns (ids: seq<string>)
      ensures IsActivePage(sessions, limit, ids)
    {
      ids := [];
      var rest := Active(sessions);
      while |ids| < limit && rest != {}
        invariant |ids| <= limit && rest <= Active(sessions)
        invariant DistinctIds(ids) && ByStart(sessions, ids)
        invariant forall k :: 0 <= k < |ids| ==> ids[k] in Active(sessions) && ids[k] !in rest
        invariant forall id :: id in Active(sessions) && id !in rest ==> id in ids
        invariant forall id :: id in rest ==> NoneLater(sessions, ids, id)
        decreases rest
      {
        var id := Earliest(rest);
        forall k | k in rest ensures NoneLater(sessions, ids + [id], k) {
        }
        ids := ids + [id];
        rest := rest - {id};
      }
    }

    method Earliest(ids: set<string>) returns (first: string)
      requires ids != {} && ids <= sessions.Keys
      ensures first in ids
      ensures forall id :: id in ids ==> sessions[first].startAt <= sessions[id].startAt
    {
      first :| first in ids;
      var rest := ids - {first};
      while rest != {}
        invariant first in ids && rest <= ids
        invariant forall id :: id in ids && id !in rest ==> sessions[first].startAt <= sessions[id].startAt
        decreases rest
      {
        var id :| id in rest;
        rest := rest - {id};
        if sessions[id].startAt < sessions[first].startAt { first := id; }
      }
    }

    /** The finisher's inner loop over one page of ids. */
    method FinishPage(ids: seq<string>) returns (finished: nat, failedIds: set<string>, ghost run: seq<Action>)
      requires Valid() && DistinctIds(ids) && forall k :: 0 <= k < |ids| ==> ids[k] in Active(sessions)
      modifies this`now, this`sessions, this`rows, env
      ensures Valid() && FinishLoop(old(View()), View(), run, ids, |ids|, finished, failedIds)
      ensures |failedIds| <= old(env.budget) - env.budget
      ensures Accounts(old(env.failures), old(env.budget), env.failures, env.budget)
      ensures OnlyFailed(env.failures, |old(env.failures)|, ONE_SESSION)
    {
      ghost var before, g := View(), View();
      finished, failedIds, run := 0, {}, [];
      for j := 0 to |ids|
        invariant g == View() && Valid() && FinishLoop(before, g, run, ids, j, finished, failedIds)
        invariant |failedIds| <= old(env.budget) - env.budget
        invariant Accounts(old(env.failures), old(env.budget), env.failures, env.budget)
        invariant OnlyFailed(env.failures, |old(env.failures)|, ONE_SESSION)
      {
        var err; ghost var r;
        err, r := FinishSession(ids[j]);
        ghost var g' := View();
        FinishTurn(before, g, g', run, r, ids, j, finished, failedIds, err);
        run := run + r;
        g := g';
        if err {
          failedIds := failedIds + {ids[j]};
          continue;
        }
        finished := finished + 1;
      }
    }

    /**
     The finisher. Works in batches until one is short. It performs a serialised run; what it
     reports finished and what is still active add up to what was active at the start. With a
     positive batch size and no error, the sessions still active are exactly those that failed in the
     last batch, at most one per failure. An error is a failed count or fetch, or a negative batch size
     with something to finish.
     */
    method FinishActiveSessions(batchSize: int) returns (totalFinished: nat, err: bool, failedLast: set<string>, ghost run: seq<Action>)
      requires Valid()
      modifies this`now, this`sessions, this`rows, env
      ensures Valid()
      ensures Performs(old(View()), run, View())
      ensures totalFinished + |Active(sessions)| == |Active(old(sessions))|
      ensures !err && batchSize > 0 ==> Active(sessions) == failedLast
      ensures batchSize <= 0 ==> sessions == old(sessions)
      ensures |failedLast| <= old(env.budget) - env.budget
      ensures Accounts(old(env.failures), old(env.budget), env.failures, env.budget)
      ensures !err <==>
        && (batchSize >= 0 || Active(old(sessions)) == {})
        && OnlyFailed(env.failures, |old(env.failures)|, ONE_SESSION)
    {
      ghost var before := View();
      totalFinished, failedLast, run := 0, {}, [];
      var totalCount;
      totalCount, err := CountActiveSessions();
      if err { OneFailure(old(env.failures), CountRows, ONE_SESSION); }
      if err || totalCount == 0 {
        return;
      }
      while true
        invariant Valid()
        invariant Performs(before, run, View())
        invariant totalFinished + |Active(sessions)| == |Active(old(sessions))|
        invariant |failedLast| <= old(env.budget) - env.budget
        invariant Active(old(sessions)) != {}
        invariant batchSize <= 0 ==> sessions == old(sessions)
        invariant Accounts(old(env.failures), old(env.budget), env.failures, env.budget)
        invariant OnlyFailed(env.failures, |old(env.failures)|, ONE_SESSION)
        decreases |Active(sessions)| + env.budget
      {
        ghost var failures, g := env.failures, View();
        var ids;
        ids, err := GetActiveSessionIDs(batchSize);
        if err {
          OneFailure(failures, FetchPage, ONE_SESSION);
          OnlyFailedOn(failures, env.failures, |old(env.failures)|, ONE_SESSION);
          break;
        }
        ghost var was := sessions;
        failedLast := {};
        if |ids| == 0 {
          break;
        }
        var finished; ghost var r;
        finished, failedLast, r := FinishPage(ids);
        totalFinished := totalFinished + finished;
        PerformsOn(before, run, g, r, View());
        run := run + r;
        if |ids| < batchSize {
          ShortPageLeavesFailures(was, sessions, batchSize, ids, failedLast);
          break;
        }
      }
    }
  }
}
