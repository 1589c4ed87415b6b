/**
 What the scanner's and the finisher's loops rely on: pages of sessions, the cursor, and what a page
 leaves behind.
 */
module Paging {
  import opened Model
  import opened Generation
  import opened Tiling
  import opened Clock
  import opened Order
  import opened Faults

  const BATCH_SIZE: nat := 1000

  /** The calls whose failure costs one session its chunk and nothing more. */
  const ONE_SESSION: set<Call> := {BeginTx, DrawId, WriteRows}

  lemma ChunkRunWorks(g: Gen, producer: Producer, id: string, eventId: string, t: int, made: int)
    requires g.windows == map[] && id in g.sessions && g.sessions[id].id == id
    requires producer == Scanner ==> IsUnbilled(g.sessions[id], g.now - g.interval)
    requires !EventIdTaken(g.rows, eventId) && eventId != "" && g.now <= t <= made
    ensures var run := ChunkRun(producer, id, eventId, t, made);
      ServiceRun(g, run) && CanRun(g, run) && Exec(g, run) == AfterChunk(g, producer, id, eventId, t, made)
  {
    var run := ChunkRun(producer, id, eventId, t, made);
    var g1 := Next(g, run[0]);
    var g2 := Next(g1, run[1]);
    var g3 := Next(g2, run[2]);
    assert g3.windows == map[];
    ServicePrepend(g2, run[2], []);
    ServicePrepend(g1, run[1], [run[2]]);
    ServicePrepend(g, run[0], [run[1], run[2]]);
    assert run == [run[0], run[1], run[2]];
  }

  /** Past the cursor; the empty cursor admits every id. */
  predicate Beyond(cursor: string, id: string) {
    cursor == "" || Less(cursor, id)
  }

  function IdsBeyond(ids: set<string>, cursor: string): set<string> {
    set id | id in ids && Beyond(cursor, id)
  }

  function UnbilledBeyond(sessions: map<string, Session>, cutoff: int, cursor: string): set<string> {
    set id | id in sessions && IsUnbilled(sessions[id], cutoff) && Beyond(cursor, id)
  }

  function Ids(batch: seq<Session>): seq<string> {
    seq(|batch|, k requires 0 <= k < |batch| => batch[k].id)
  }

  /** A page of the scan: the first `limit` unbilled rows past the cursor, in id order. */
  ghost predicate IsPage(sessions: map<string, Session>, cutoff: int, cursor: string, limit: nat, batch: seq<Session>) {
    && |batch| <= limit
    && Ascending(Ids(batch))
    && (forall k :: 0 <= k < |batch| ==>
          batch[k].id in UnbilledBeyond(sessions, cutoff, cursor) && sessions[batch[k].id] == batch[k])
    && (forall id :: id in UnbilledBeyond(sessions, cutoff, cursor) && id !in Ids(batch) ==>
          |batch| == limit && forall k :: 0 <= k < |batch| ==> Less(batch[k].id, id))
  }

  /** The sessions that got a row since the table had n rows. */
  predicate BilledSince(rows: seq<OutboxRow>, n: nat, id: string) {
    exists k :: n <= k < |rows| && rows[k].sessionId == id
  }

  /** Rows added since n, in strictly ascending session order, none past the cursor. */
  ghost predicate AscendingSince(rows: seq<OutboxRow>, n: nat, cursor: string) {
    && n <= |rows|
    && cursor == (if n < |rows| then rows[|rows| - 1].sessionId else "")
    && (forall j, k :: n <= j < k < |rows| ==> Less(rows[j].sessionId, rows[k].sessionId))
    && (forall k :: n <= k < |rows| ==> !Beyond(cursor, rows[k].sessionId))
  }

  /** Sessions without a new row still have the row they had. */
  ghost predicate OthersUntouched(before: map<string, Session>, after: map<string, Session>, rows: seq<OutboxRow>, n: nat) {
    && after.Keys == before.Keys
    && forall id :: id in before && !BilledSince(rows, n, id) ==> after[id] == before[id]
  }

  lemma BilledRowExtendsScan(rows: seq<OutboxRow>, n: nat, cursor: string, r: OutboxRow)
    requires AscendingSince(rows, n, cursor) && Beyond(cursor, r.sessionId) && r.sessionId != ""
    ensures AscendingSince(rows + [r], n, r.sessionId)
  {
    var rows' := rows + [r];
    forall k | n <= k < |rows| ensures Less(rows[k].sessionId, r.sessionId) && !Beyond(r.sessionId, rows[k].sessionId) {
      var id := rows[k].sessionId;
      assert !Beyond(cursor, id);
      Total(cursor, id);
      if id != cursor { Transitive(id, cursor, r.sessionId); }
      Asymmetric(id, r.sessionId);
    }
    Irreflexive(r.sessionId);
    forall j, k | n <= j < k < |rows'| ensures Less(rows'[j].sessionId, rows'[k].sessionId) {
      if k < |rows| { assert rows'[j] == rows[j] && rows'[k] == rows[k]; }
    }
  }

  lemma BilledSinceAppend(rows: seq<OutboxRow>, n: nat, r: OutboxRow, id: string)
    requires n <= |rows|
    ensures BilledSince(rows + [r], n, id) <==> BilledSince(rows, n, id) || r.sessionId == id
  {
    var rows' := rows + [r];
    if BilledSince(rows, n, id) {
      var k :| n <= k < |rows| && rows[k].sessionId == id;
      assert rows'[k] == rows[k];
    }
    if r.sessionId == id { assert rows'[|rows|].sessionId == id; }
  }

  /** A committed chunk for `id` leaves every other session as it was. */
  lemma ChunkTouchesOne(before: map<string, Session>, g: Gen, n: nat, id: string, producer: Producer, eventId: string, t: int, made: int)
    requires OthersUntouched(before, g.sessions, g.rows, n) && n <= |g.rows| && id in g.sessions && g.sessions[id].id == id
    ensures var g' := AfterChunk(g, producer, id, eventId, t, made);
      && OthersUntouched(before, g'.sessions, g'.rows, n)
      && g'.rows[|g.rows|].sessionId == id
      && forall k :: BilledSince(g'.rows, n, k) <==> BilledSince(g.rows, n, k) || k == id
  {
    var g' := AfterChunk(g, producer, id, eventId, t, made);
    forall k ensures BilledSince(g'.rows, n, k) <==> BilledSince(g.rows, n, k) || k == id {
      BilledSinceAppend(g.rows, n, g'.rows[|g.rows|], k);
    }
  }

  lemma CursorMovesOn(ids: set<string>, cursor: string, next: string)
    requires next in ids && next != "" && Beyond(cursor, next)
    ensures IdsBeyond(ids, next) < IdsBeyond(ids, cursor)
    ensures |IdsBeyond(ids, next)| < |IdsBeyond(ids, cursor)|
  {
    Irreflexive(next);
    forall id | id in IdsBeyond(ids, next) ensures id in IdsBeyond(ids, cursor) {
      if cursor != "" { Transitive(cursor, next, id); }
    }
    assert next in IdsBeyond(ids, cursor) && next !in IdsBeyond(ids, next);
    ProperSubsetCount(IdsBeyond(ids, next), IdsBeyond(ids, cursor));
  }

  lemma ProperSubsetCount(a: set<string>, b: set<string>)
    requires a < b
    ensures |a| < |b|
  {
    assert b == a + (b - a) && |b| == |a| + |b - a|;
  }

  /** The sessions eligible when the scan began that have no new row. */
  function Unserved(was: map<string, Session>, cutoff: int, rows: seq<OutboxRow>, n: nat): set<string> {
    set id | id in was && IsUnbilled(was[id], cutoff) && !BilledSince(rows, n, id)
  }

  /** Those that the cursor has passed: in this scan they get none any more. */
  function PassedBy(was: map<string, Session>, cutoff: int, rows: seq<OutboxRow>, n: nat, cursor: string): set<string> {
    set id | id in Unserved(was, cutoff, rows, n) && !Beyond(cursor, id)
  }

  /** The rows of the page that were not billed. */
  function Unbilled(rows: seq<OutboxRow>, n: nat, batch: seq<Session>, j: nat): set<string>
    requires j <= |batch|
  {
    set k | 0 <= k < j && !BilledSince(rows, n, batch[k].id) :: batch[k].id
  }

  lemma UnionCount(a: set<string>, b: set<string>)
    ensures |a + b| <= |a| + |b|
  {
    assert a + b == a + (b - a) && |a + (b - a)| == |a| + |b - a|;
    SubsetCount(b - a, b);
  }

  lemma SubsetCount(a: set<string>, b: set<string>)
    requires a <= b
    ensures |a| <= |b|
  {
    assert b == a + (b - a) && |b| == |a| + |b - a|;
  }

  lemma StillBilled(rows: seq<OutboxRow>, rows': seq<OutboxRow>, n: nat, id: string)
    requires rows <= rows'
    ensures BilledSince(rows, n, id) ==> BilledSince(rows', n, id)
  {
  }

  /** A page leaves behind nothing but what it failed to bill: what the cursor passes was in the page. */
  lemma PageLeavesFailures(was: map<string, Session>, cutoff: int, page: Gen, rows: seq<OutboxRow>, n: nat, cursor: string,
                           lastId: string, batch: seq<Session>)
    requires AscendingSince(page.rows, n, cursor) && OthersUntouched(was, page.sessions, page.rows, n) && page.rows <= rows
    requires cutoff <= page.now - page.interval
    requires IsPage(page.sessions, page.now - page.interval, cursor, BATCH_SIZE, batch)
    requires lastId == cursor || lastId in Ids(batch)
    ensures PassedBy(was, cutoff, rows, n, lastId) <=
      PassedBy(was, cutoff, page.rows, n, cursor) + Unbilled(rows, n, batch, |batch|)
  {
    forall id | id in PassedBy(was, cutoff, rows, n, lastId)
      ensures id in PassedBy(was, cutoff, page.rows, n, cursor) + Unbilled(rows, n, batch, |batch|)
    {
      StillBilled(page.rows, rows, n, id);
      if Beyond(cursor, id) {
        assert id in UnbilledBeyond(page.sessions, page.now - page.interval, cursor);
        PassedIsInPage(page, cursor, lastId, batch, id);
      }
    }
  }

  lemma PassedIsInPage(page: Gen, cursor: string, lastId: string, batch: seq<Session>, id: string)
    requires IsPage(page.sessions, page.now - page.interval, cursor, BATCH_SIZE, batch)
    requires id in UnbilledBeyond(page.sessions, page.now - page.interval, cursor)
    requires lastId in Ids(batch) && !Beyond(lastId, id)
    ensures exists k :: 0 <= k < |batch| && batch[k].id == id
  {
    var k :| 0 <= k < |batch| && Ids(batch)[k] == lastId;
    assert batch[k].id == lastId;
    assert id in Ids(batch);
  }

  /** A session eligible at the start has been billed, or passed, or is still ahead of the cursor. */
  lemma BilledOrAhead(was: map<string, Session>, cutoff: int, g: Gen, n: nat, cursor: string, id: string)
    requires OthersUntouched(was, g.sessions, g.rows, n) && cutoff <= g.now - g.interval
    requires id in Unserved(was, cutoff, g.rows, n)
    ensures id in PassedBy(was, cutoff, g.rows, n, cursor) || id in UnbilledBeyond(g.sessions, g.now - g.interval, cursor)
  {
  }

  /** An empty page past the cursor: everything eligible at the start has been billed or passed. */
  lemma EmptyPageEndsScan(was: map<string, Session>, cutoff: int, page: Gen, n: nat, cursor: string)
    requires OthersUntouched(was, page.sessions, page.rows, n) && cutoff <= page.now - page.interval
    requires IsPage(page.sessions, page.now - page.interval, cursor, BATCH_SIZE, [])
    ensures Unserved(was, cutoff, page.rows, n) == PassedBy(was, cutoff, page.rows, n, cursor)
  {
    assert UnbilledBeyond(page.sessions, page.now - page.interval, cursor) == {};
    forall id | id in Unserved(was, cutoff, page.rows, n) ensures id in PassedBy(was, cutoff, page.rows, n, cursor) {
      BilledOrAhead(was, cutoff, page, n, cursor, id);
    }
  }

  /** The id comes before that of a session with a new row. */
  predicate Overtaken(rows: seq<OutboxRow>, n: nat, id: string) {
    exists k :: n <= k < |rows| && Less(id, rows[k].sessionId)
  }

  /** What the cursor has passed without billing it comes before a session that it billed. */
  lemma PassedIsOvertaken(was: map<string, Session>, cutoff: int, rows: seq<OutboxRow>, n: nat, cursor: string, id: string)
    requires AscendingSince(rows, n, cursor) && id in PassedBy(was, cutoff, rows, n, cursor)
    ensures Overtaken(rows, n, id)
  {
    var k := |rows| - 1;
    assert n <= k && rows[k].sessionId == cursor;
    Total(cursor, id);
  }

  /** Every session eligible at the given cutoff has a new row. */
  ghost predicate AllUnbilledServed(was: map<string, Session>, cutoff: int, rows: seq<OutboxRow>, n: nat) {
    forall id :: id in was && IsUnbilled(was[id], cutoff) ==> BilledSince(rows, n, id)
  }

  lemma NoneUnserved(was: map<string, Session>, cutoff: int, rows: seq<OutboxRow>, n: nat)
    ensures Unserved(was, cutoff, rows, n) == {} <==> AllUnbilledServed(was, cutoff, rows, n)
  {
    if Unserved(was, cutoff, rows, n) == {} {
      forall id | id in was && IsUnbilled(was[id], cutoff) ensures BilledSince(rows, n, id) {
        assert id !in Unserved(was, cutoff, rows, n);
      }
    }
  }

  /** Every session eligible at the given cutoff has a new row or is still eligible. */
  ghost predicate ServedOrStillUnbilled(was: map<string, Session>, cutoff: int, g: Gen, n: nat) {
    forall id :: id in was && IsUnbilled(was[id], cutoff) ==>
      BilledSince(g.rows, n, id) || (id in g.sessions && IsUnbilled(g.sessions[id], g.now - g.interval))
  }

  /** At most one new row per session. */
  ghost predicate OneRowEach(rows: seq<OutboxRow>, n: nat) {
    forall j, k :: n <= j < k < |rows| ==> rows[j].sessionId != rows[k].sessionId
  }

  /**
   What a scan leaves. No session got two chunks; one that got none keeps its row and stays eligible.
   Without an error the sessions eligible at the start that got none are at most as many as the failures,
   and each comes before one that got its chunk.
   */
  ghost predicate ScanResult(was: map<string, Session>, cutoff: int, g: Gen, n: nat, failed: nat, err: bool) {
    && OneRowEach(g.rows, n) && OthersUntouched(was, g.sessions, g.rows, n)
    && ServedOrStillUnbilled(was, cutoff, g, n)
    && (!err ==>
          && |Unserved(was, cutoff, g.rows, n)| <= failed
          && forall id :: id in Unserved(was, cutoff, g.rows, n) ==> Overtaken(g.rows, n, id))
  }

  lemma ScanOutcome(was: map<string, Session>, cutoff: int, g: Gen, n: nat, lastId: string, failed: nat, err: bool)
    requires ScanState(was, cutoff, g, n, lastId, failed)
    requires !err ==> Unserved(was, cutoff, g.rows, n) == PassedBy(was, cutoff, g.rows, n, lastId)
    ensures ScanResult(was, cutoff, g, n, failed, err)
    ensures !err && failed == 0 ==> AllUnbilledServed(was, cutoff, g.rows, n)
  {
    forall j, k | n <= j < k < |g.rows| ensures g.rows[j].sessionId != g.rows[k].sessionId {
      assert Less(g.rows[j].sessionId, g.rows[k].sessionId);
      Irreflexive(g.rows[j].sessionId);
    }
    if !err {
      forall id | id in Unserved(was, cutoff, g.rows, n) ensures Overtaken(g.rows, n, id) {
        PassedIsOvertaken(was, cutoff, g.rows, n, lastId, id);
      }
      NoneUnserved(was, cutoff, g.rows, n);
    }
  }

  /** The scan is inside a page: rows from position j on are still ahead of the cursor, and untouched. */
  ghost predicate InPage(was: map<string, Session>, n: nat, batch: seq<Session>, j: nat, g: Gen, lastId: string) {
    && AscendingSince(g.rows, n, lastId)
    && OthersUntouched(was, g.sessions, g.rows, n)
    && (forall k :: j <= k < |batch| ==> Beyond(lastId, batch[k].id))
  }

  lemma RestIsAhead(batch: seq<Session>, j: nat)
    requires j < |batch| && Ascending(Ids(batch))
    ensures forall k :: j < k < |batch| ==> Beyond(batch[j].id, batch[k].id)
  {
    forall k | j < k < |batch| ensures Beyond(batch[j].id, batch[k].id) {
      assert Less(Ids(batch)[j], Ids(batch)[k]);
    }
  }

  lemma BilledInPage(was: map<string, Session>, n: nat, batch: seq<Session>, j: nat, g: Gen, lastId: string,
                     eventId: string, t: int, made: int)
    requires InPage(was, n, batch, j, g, lastId) && j < |batch| && Ascending(Ids(batch))
    requires batch[j].id in was && batch[j].id in g.sessions && g.sessions[batch[j].id].id == batch[j].id != ""
    ensures InPage(was, n, batch, j + 1, AfterChunk(g, Scanner, batch[j].id, eventId, t, made), batch[j].id)
    ensures Unbilled(AfterChunk(g, Scanner, batch[j].id, eventId, t, made).rows, n, batch, j + 1) <= Unbilled(g.rows, n, batch, j)
    ensures |IdsBeyond(was.Keys, batch[j].id)| < |IdsBeyond(was.Keys, lastId)|
  {
    var id := batch[j].id;
    var g' := AfterChunk(g, Scanner, id, eventId, t, made);
    ChunkTouchesOne(was, g, n, id, Scanner, eventId, t, made);
    BilledRowExtendsScan(g.rows, n, lastId, g'.rows[|g.rows|]);
    CursorMovesOn(was.Keys, lastId, id);
    RestIsAhead(batch, j);
  }

  /** The page loop after j rows, of which at most `failed` were not billed. */
  ghost predicate PageLoop(was: map<string, Session>, n: nat, batch: seq<Session>, j: nat, before: Gen, g: Gen,
                           run: seq<Action>, cursor: string, lastId: string, processed: nat, failed: nat) {
    && j <= |batch| && (lastId == cursor || lastId in Ids(batch))
    && |Unbilled(g.rows, n, batch, j)| <= failed
    && Performs(before, run, g)
    && before.now <= g.now && before.rows <= g.rows && |g.rows| == |before.rows| + processed
    && InPage(was, n, batch, j, g, lastId)
  }

  lemma PageFails(was: map<string, Session>, n: nat, batch: seq<Session>, j: nat, before: Gen, g: Gen, g': Gen,
                  run: seq<Action>, r: seq<Action>, cursor: string, lastId: string, processed: nat, failed: nat)
    requires PageLoop(was, n, batch, j, before, g, run, cursor, lastId, processed, failed) && j < |batch|
    requires Attempted(g, g', r, Scanner, batch[j].id, true)
    ensures PageLoop(was, n, batch, j + 1, before, g', run + r, cursor, lastId, processed, failed + 1)
  {
    PerformsOn(before, run, g, r, g');
    var unbilled := Unbilled(g.rows, n, batch, j);
    assert Unbilled(g.rows, n, batch, j + 1) <= unbilled + {batch[j].id};
    UnionCount(unbilled, {batch[j].id});
    SubsetCount(Unbilled(g.rows, n, batch, j + 1), unbilled + {batch[j].id});
  }

  lemma PageBills(was: map<string, Session>, n: nat, cutoff: int, batch: seq<Session>, j: nat, before: Gen, g: Gen, g': Gen,
                  run: seq<Action>, r: seq<Action>, cursor: string, lastId: string, processed: nat, failed: nat)
    requires PageLoop(was, n, batch, j, before, g, run, cursor, lastId, processed, failed)
    requires j < |batch| && PageReady(was, cutoff, batch) && batch[j].id != ""
    requires batch[j].id in g.sessions && g.sessions[batch[j].id].id == batch[j].id
    requires Attempted(g, g', r, Scanner, batch[j].id, false)
    ensures PageLoop(was, n, batch, j + 1, before, g', run + r, cursor, batch[j].id, processed + 1, failed)
    ensures |IdsBeyond(was.Keys, batch[j].id)| < |IdsBeyond(was.Keys, lastId)|
  {
    var eventId, t, made :| g' == AfterChunk(g, Scanner, batch[j].id, eventId, t, made);
    PerformsOn(before, run, g, r, g');
    BilledInPage(was, n, batch, j, g, lastId, eventId, t, made);
    SubsetCount(Unbilled(g'.rows, n, batch, j + 1), Unbilled(g.rows, n, batch, j));
    assert Ids(batch)[j] == batch[j].id;
  }

  /** The next row of the page is as the page found it, and still eligible. */
  lemma RowIsReady(was: map<string, Session>, n: nat, cutoff: int, batch: seq<Session>, j: nat, before: Gen, g: Gen,
                   run: seq<Action>, cursor: string, lastId: string, processed: nat, failed: nat)
    requires PageLoop(was, n, batch, j, before, g, run, cursor, lastId, processed, failed)
    requires j < |batch| && PageReady(was, cutoff, batch) && cutoff <= g.now - g.interval
    ensures batch[j].id in g.sessions && g.sessions[batch[j].id] == batch[j] && IsUnbilled(batch[j], g.now - g.interval)
  {
    assert Beyond(lastId, batch[j].id);
    assert !BilledSince(g.rows, n, batch[j].id);
  }

  /** One turn of the page loop; the measure of the scan goes down with every turn. */
  lemma PageTurn(was: map<string, Session>, n: nat, cutoff: int, batch: seq<Session>, j: nat, before: Gen, g: Gen, g': Gen,
                 run: seq<Action>, r: seq<Action>, cursor: string, lastId: string, processed: nat, failed: nat, err: bool)
    requires PageLoop(was, n, batch, j, before, g, run, cursor, lastId, processed, failed)
    requires j < |batch| && PageReady(was, cutoff, batch) && batch[j].id != ""
    requires batch[j].id in g.sessions && g.sessions[batch[j].id].id == batch[j].id
    requires Attempted(g, g', r, Scanner, batch[j].id, err)
    ensures var lastId', failed' := if err then lastId else batch[j].id, if err then failed + 1 else failed;
      && PageLoop(was, n, batch, j + 1, before, g', run + r, cursor, lastId', if err then processed else processed + 1, failed')
      && |IdsBeyond(was.Keys, lastId')| + (if err then 0 else 1) <= |IdsBeyond(was.Keys, lastId)|
  {
    if err {
      PageFails(was, n, batch, j, before, g, g', run, r, cursor, lastId, processed, failed);
    } else {
      PageBills(was, n, cutoff, batch, j, before, g, g', run, r, cursor, lastId, processed, failed);
    }
  }

  /** What the scan keeps between pages: the cursor has passed at most `failed` sessions without billing them. */
  ghost predicate ScanState(was: map<string, Session>, cutoff: int, g: Gen, n: nat, cursor: string, failed: nat) {
    && AscendingSince(g.rows, n, cursor)
    && OthersUntouched(was, g.sessions, g.rows, n)
    && cutoff <= g.now - g.interval
    && |PassedBy(was, cutoff, g.rows, n, cursor)| <= failed
  }

  ghost predicate PageReady(was: map<string, Session>, cutoff: int, batch: seq<Session>) {
    && Ascending(Ids(batch))
    && forall k :: 0 <= k < |batch| ==>
         batch[k].id in was && was[batch[k].id] == batch[k] && IsUnbilled(batch[k], cutoff)
  }

  /** The scan so far: a run, one row for each session counted as processed, and the state of the cursor. */
  ghost predicate Scanning(was: map<string, Session>, cutoff: int, before: Gen, g: Gen, n: nat, run: seq<Action>,
                           lastId: string, processed: nat, failed: nat) {
    && Performs(before, run, g) && before.rows <= g.rows && |g.rows| == |before.rows| + processed
    && ScanState(was, cutoff, g, n, lastId, failed)
  }

  lemma ScanGoesOn(was: map<string, Session>, cutoff: int, before: Gen, g: Gen, g': Gen, n: nat, run: seq<Action>, r: seq<Action>,
                   lastId: string, lastId': string, total: nat, processed: nat, failed: nat, failed': nat)
    requires Scanning(was, cutoff, before, g, n, run, lastId, total, failed)
    requires Scanning(was, cutoff, g, g', n, r, lastId', processed, failed')
    ensures Scanning(was, cutoff, before, g', n, run + r, lastId', total + processed, failed')
  {
    PerformsOn(before, run, g, r, g');
  }

  lemma RoundStarts(was: map<string, Session>, cutoff: int, g: Gen, page: Gen, n: nat, cursor: string, failed: nat, batch: seq<Session>)
    requires ScanState(was, cutoff, g, n, cursor, failed)
    requires page == g.(now := page.now) && g.now <= page.now
    requires IsPage(page.sessions, page.now - page.interval, cursor, BATCH_SIZE, batch)
    ensures Scanning(was, cutoff, g, page, n, [AdvanceClock(page.now)], cursor, 0, failed)
    ensures InPage(was, n, batch, 0, page, cursor) && PageReady(was, page.now - page.interval, batch)
    ensures batch == [] ==> Unserved(was, cutoff, page.rows, n) == PassedBy(was, cutoff, page.rows, n, cursor)
  {
    ClockPerforms(g, page.now);
    if batch == [] { EmptyPageEndsScan(was, cutoff, page, n, cursor); }
  }

  lemma RoundEnds(was: map<string, Session>, cutoff: int, before: Gen, page: Gen, g: Gen, n: nat, run: seq<Action>, r: seq<Action>,
                  cursor: string, lastId: string, processed: nat, failed: nat, more: nat, batch: seq<Session>)
    requires Scanning(was, cutoff, before, page, n, run, cursor, 0, failed)
    requires Performs(page, r, g) && |g.rows| == |page.rows| + processed
    requires IsPage(page.sessions, page.now - page.interval, cursor, BATCH_SIZE, batch)
    requires page.rows <= g.rows && page.now <= g.now && page.interval == g.interval
    requires InPage(was, n, batch, |batch|, g, lastId) && (lastId == cursor || lastId in Ids(batch))
    requires |Unbilled(g.rows, n, batch, |batch|)| <= more
    ensures Scanning(was, cutoff, before, g, n, run + r, lastId, processed, failed + more)
  {
    PerformsOn(before, run, page, r, g);
    var passed, unbilled := PassedBy(was, cutoff, page.rows, n, cursor), Unbilled(g.rows, n, batch, |batch|);
    PageLeavesFailures(was, cutoff, page, g.rows, n, cursor, lastId, batch);
    UnionCount(passed, unbilled);
    SubsetCount(PassedBy(was, cutoff, g.rows, n, lastId), passed + unbilled);
  }

  /** A whole scan: the run it performs, one row for each session counted as processed, and what it leaves. */
  ghost predicate Scanned(before: Gen, g: Gen, run: seq<Action>, processed: nat, failed: nat, err: bool) {
    var n, cutoff := |before.rows|, before.now - before.interval;
    && Performs(before, run, g) && before.rows <= g.rows && |g.rows| == n + processed
    && ScanResult(before.sessions, cutoff, g, n, failed, err)
    && (!err && failed == 0 ==> AllUnbilledServed(before.sessions, cutoff, g.rows, n))
  }

  lemma ScanStarts(before: Gen, counted: Gen, failed: nat)
    requires counted == before.(now := counted.now) && before.now <= counted.now
    ensures var n, cutoff := |before.rows|, before.now - before.interval;
      ScanState(before.sessions, cutoff, counted, n, "", 0)
    ensures Performs(before, [AdvanceClock(counted.now)], counted)
    ensures Scanned(before, counted, [AdvanceClock(counted.now)], 0, failed, true)
  {
    ClockPerforms(before, counted.now);
  }

  lemma ScanFinishes(was: map<string, Session>, cutoff: int, n: nat, before: Gen, counted: Gen, g: Gen, run: seq<Action>,
                     r: seq<Action>, lastId: string, processed: nat, failed: nat, err: bool)
    requires was == before.sessions && cutoff == before.now - before.interval && n == |before.rows|
    requires Performs(before, run, counted) && counted.rows == before.rows
    requires Scanning(was, cutoff, counted, g, n, r, lastId, processed, failed)
    requires !err ==> Unserved(was, cutoff, g.rows, n) == PassedBy(was, cutoff, g.rows, n, lastId)
    ensures Scanned(before, g, run + r, processed, failed, err)
  {
    PerformsOn(before, run, counted, r, g);
    ScanOutcome(was, cutoff, g, n, lastId, failed, err);
  }

  lemma NothingToScan(before: Gen, counted: Gen)
    requires counted == before.(now := counted.now) && before.now <= counted.now
    requires |UnbilledBeyond(counted.sessions, counted.now - counted.interval, "")| == 0
    ensures Scanned(before, counted, [AdvanceClock(counted.now)], 0, 0, false)
  {
    ClockPerforms(before, counted.now);
    var was, cutoff, later := before.sessions, before.now - before.interval, counted.now - counted.interval;
    forall id | id in was ensures !IsUnbilled(was[id], cutoff) {
      assert id !in UnbilledBeyond(was, later, "");
    }
    NoneUnserved(was, cutoff, counted.rows, |before.rows|);
  }

  lemma CreateRuns(g: Gen, t: int, id: string, sandboxId: string, organizationId: string, startAt: Option<int>)
    requires g.now <= t && id !in g.sessions && id != ""
    ensures var a := Action.CreateSession(id, sandboxId, organizationId, startAt);
      var run := [AdvanceClock(t), a];
      && SerialRun(g, run) && CanRun(g, run) && Exec(g, run) == Next(g.(now := t), a)
      && (sandboxId != "" && (startAt.Some? ==> startAt.value <= t) ==> ServiceRun(g, run))
  {
    var a := Action.CreateSession(id, sandboxId, organizationId, startAt);
    var run, g' := [AdvanceClock(t), a], g.(now := t);
    assert [a] + [] == [a] && [AdvanceClock(t)] + [a] == run && run[1..] == [a] && [a][1..] == [];
    Prepend(g', a, [], Next(g', a));
    Prepend(g, AdvanceClock(t), [a], g');
    assert SerialRun(g', [a]);
    if sandboxId != "" && (startAt.Some? ==> startAt.value <= t) {
      ServicePrepend(g', a, []);
      ServicePrepend(g, AdvanceClock(t), [a]);
    }
  }

  /**
   The scanner has billed session id from where it was billed to up to a later reading of the clock: the
   chunk has the next number, and the row moves to the chunk's end and number and is otherwise unchanged.
   */
  ghost predicate ScannerBilled(g: Gen, g': Gen, id: string) {
    && id in g.sessions && id in g'.sessions && |g'.rows| == |g.rows| + 1
    && var s, r := g.sessions[id], g'.rows[|g.rows|];
       && RowMatchesPayload(r) && r.sessionId == id && r.sequence == s.billingSequence + 1
       && r.payload.sandboxId == s.sandboxId && r.payload.organizationId == s.organizationId
       && s.lastBilledAt == Some(r.payload.from)
       && (s.endAt == None ==> g.now <= r.payload.to <= r.createdAt)
       && (s.endAt.Some? ==> r.payload.to <= s.endAt.value && (r.payload.to == s.endAt.value || g.now <= r.payload.to <= r.createdAt))
       && r.createdAt == g'.now
       && g'.sessions[id] == s.(lastBilledAt := Some(r.payload.to), billingSequence := r.sequence)
  }

  /** The finisher has billed session id up to now and closed it: it ends there, and its billing is completed. */
  ghost predicate FinisherBilled(g: Gen, g': Gen, id: string) {
    && id in g.sessions && id in g'.sessions && |g'.rows| == |g.rows| + 1
    && var s, r := g.sessions[id], g'.rows[|g.rows|];
       && RowMatchesPayload(r) && r.sessionId == id && r.sequence == s.billingSequence + 1
       && r.payload.sandboxId == s.sandboxId && r.payload.organizationId == s.organizationId
       && r.payload.from == (if s.lastBilledAt.Some? then s.lastBilledAt.value else ZERO_TIME)
       && g.now <= r.payload.to <= r.createdAt == g'.now
       && g'.sessions[id] == Session(s.id, s.sandboxId, s.organizationId, s.startAt, Some(r.payload.to), SessionFinished,
                                     Some(r.payload.to), BillingCompleted, r.sequence)
  }

  /** One committed chunk has been added, and what it says. */
  ghost predicate CommitsOne(g: Gen, g': Gen, producer: Producer, id: string) {
    && id in g.sessions && (if producer == Scanner then ScannerBilled(g, g', id) else FinisherBilled(g, g', id))
    && exists eventId, t, made :: g' == AfterChunk(g, producer, id, eventId, t, made)
  }

  lemma ClockPerforms(g: Gen, t: int)
    requires g.now <= t
    ensures Performs(g, [AdvanceClock(t)], g.(now := t)) && Performs(g, [], g)
  {
    ServicePrepend(g, AdvanceClock(t), []);
    assert [AdvanceClock(t)] + [] == [AdvanceClock(t)];
  }

  /** An attempt to bill session id: one chunk more, or an error and neither table changed. */
  ghost predicate Attempted(g: Gen, g': Gen, run: seq<Action>, producer: Producer, id: string, err: bool) {
    && Performs(g, run, g') && g.now <= g'.now
    && (err ==> g'.sessions == g.sessions && g'.rows == g.rows)
    && (!err ==> CommitsOne(g, g', producer, id))
  }

  lemma AttemptFails(g: Gen, made: int, producer: Producer, id: string)
    requires g.now <= made
    ensures Attempted(g, g, [], producer, id, true)
    ensures Attempted(g, g.(now := made), [AdvanceClock(made)], producer, id, true)
  {
    ClockPerforms(g, made);
  }

  lemma ChunkCommits(g: Gen, producer: Producer, id: string, eventId: string, t: int, made: int)
    requires g.windows == map[] && id in g.sessions && g.sessions[id].id == id
    requires producer == Scanner ==> IsUnbilled(g.sessions[id], g.now - g.interval)
    requires !EventIdTaken(g.rows, eventId) && eventId != "" && g.now <= t <= made
    ensures Attempted(g, AfterChunk(g, producer, id, eventId, t, made), ChunkRun(producer, id, eventId, t, made),
                      producer, id, false)
  {
    ChunkRunWorks(g, producer, id, eventId, t, made);
  }

  function Active(sessions: map<string, Session>): set<string> {
    set id | id in sessions && sessions[id].status == SessionActive
  }

  ghost predicate DistinctIds(ids: seq<string>) {
    forall j, k :: 0 <= j < k < |ids| ==> ids[j] != ids[k]
  }

  ghost predicate ByStart(sessions: map<string, Session>, ids: seq<string>) {
    && (forall k :: 0 <= k < |ids| ==> ids[k] in sessions)
    && (forall j, k :: 0 <= j < k < |ids| ==> sessions[ids[j]].startAt <= sessions[ids[k]].startAt)
  }

  /** Nothing in the list starts later than session id. */
  ghost predicate NoneLater(sessions: map<string, Session>, ids: seq<string>, id: string) {
    id in sessions && forall k :: 0 <= k < |ids| ==> ids[k] in sessions && sessions[ids[k]].startAt <= sessions[id].startAt
  }

  /** The first `limit` active sessions by start_at, ties in any order. */
  ghost predicate IsActivePage(sessions: map<string, Session>, limit: int, ids: seq<string>) {
    && |ids| <= limit
    && DistinctIds(ids) && ByStart(sessions, ids)
    && (forall k :: 0 <= k < |ids| ==> ids[k] in Active(sessions))
    && (forall id :: id in Active(sessions) && id !in ids ==> |ids| == limit && NoneLater(sessions, ids, id))
  }

  /** After j of the page's sessions: the handled ones are finished or failed, the rest are as they were. */
  ghost predicate PageFinished(was: map<string, Session>, now: map<string, Session>, ids: seq<string>, j: nat, failed: set<string>)
    requires j <= |ids|
  {
    && now.Keys == was.Keys
    && failed <= Active(now)
    && (forall id :: id in failed ==> id in ids[..j])
    && (forall id :: id in was && (id !in ids[..j] || id in failed) ==> now[id] == was[id])
    && (forall id :: id in ids[..j] && id !in failed ==> id in now && now[id].status == SessionFinished)
  }

  /** A committed finish closes its session and leaves the others as they were. */
  lemma FinishMovesOne(g: Gen, g': Gen, id: string)
    requires CommitsOne(g, g', Finisher, id)
    ensures g'.sessions == g.sessions[id := g'.sessions[id]] && g'.sessions[id].status == SessionFinished
  {
  }

  lemma FinishedIsInactive(was: map<string, Session>, now: map<string, Session>, id: string)
    requires id in Active(was) && id in now && now == was[id := now[id]] && now[id].status == SessionFinished
    ensures Active(now) == Active(was) - {id} && |Active(now)| == |Active(was)| - 1
  {
  }

  lemma FinishOne(was: map<string, Session>, g: Gen, g': Gen, ids: seq<string>, j: nat, failed: set<string>)
    requires j < |ids| && DistinctIds(ids) && PageFinished(was, g.sessions, ids, j, failed)
    requires ids[j] in Active(was) && CommitsOne(g, g', Finisher, ids[j])
    ensures PageFinished(was, g'.sessions, ids, j + 1, failed)
    ensures |Active(g'.sessions)| == |Active(g.sessions)| - 1
  {
    var id, now, now' := ids[j], g.sessions, g'.sessions;
    FinishMovesOne(g, g', id);
    assert id !in ids[..j];
    FinishedIsInactive(now, now', id);
    OneMoreFinished(was, now, now', ids, j, failed);
  }

  lemma OneMoreFinished(was: map<string, Session>, now: map<string, Session>, now': map<string, Session>, ids: seq<string>, j: nat,
                        failed: set<string>)
    requires j < |ids| && ids[j] !in ids[..j] && PageFinished(was, now, ids, j, failed)
    requires ids[j] in now' && now' == now[ids[j] := now'[ids[j]]] && now'[ids[j]].status == SessionFinished
    requires ids[j] in now && Active(now') == Active(now) - {ids[j]}
    ensures PageFinished(was, now', ids, j + 1, failed)
  {
    assert ids[..j + 1] == ids[..j] + [ids[j]];
  }

  /** The finisher's loop after j sessions. */
  ghost predicate FinishLoop(before: Gen, g: Gen, run: seq<Action>, ids: seq<string>, j: nat, finished: nat, failed: set<string>) {
    && j <= |ids| && Performs(before, run, g)
    && PageFinished(before.sessions, g.sessions, ids, j, failed)
    && finished + |failed| == j
    && finished + |Active(g.sessions)| == |Active(before.sessions)|
  }

  lemma FinishTurn(before: Gen, g: Gen, g': Gen, run: seq<Action>, r: seq<Action>, ids: seq<string>, j: nat, finished: nat,
                   failed: set<string>, err: bool)
    requires FinishLoop(before, g, run, ids, j, finished, failed) && j < |ids|
    requires DistinctIds(ids) && ids[j] in Active(before.sessions) && Attempted(g, g', r, Finisher, ids[j], err)
    ensures FinishLoop(before, g', run + r, ids, j + 1, if err then finished else finished + 1,
                       if err then failed + {ids[j]} else failed)
  {
    PerformsOn(before, run, g, r, g');
    if err {
      FailOne(before.sessions, g.sessions, ids, j, failed);
    } else {
      FinishOne(before.sessions, g, g', ids, j, failed);
    }
  }

  lemma FailOne(was: map<string, Session>, now: map<string, Session>, ids: seq<string>, j: nat, failed: set<string>)
    requires j < |ids| && DistinctIds(ids) && PageFinished(was, now, ids, j, failed)
    requires ids[j] in Active(was)
    ensures PageFinished(was, now, ids, j + 1, failed + {ids[j]}) && ids[j] !in failed
  {
  }

  /** After a short page, what is still active is exactly what failed in it. */
  lemma ShortPageLeavesFailures(was: map<string, Session>, now: map<string, Session>, limit: int, ids: seq<string>, failed: set<string>)
    requires IsActivePage(was, limit, ids) && |ids| < limit
    requires PageFinished(was, now, ids, |ids|, failed)
    ensures Active(now) == failed
  {
    assert ids[..|ids|] == ids;
    forall id | id in Active(now) ensures id in failed {
      assert id in Active(was) || id in ids;
    }
  }
}
