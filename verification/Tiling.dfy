/**
 What holds when the read-to-commit windows of one session never overlap: the design's intent,
 for which the code takes no lock. Windows of different sessions still interleave freely.
 */
module Tiling {
  import opened Model
  import opened Generation

  /** A read may start only while no other window on the same session is open. */
  ghost predicate Serialised(g: Gen, a: Action) {
    (a.ReadUnbilled? || a.ReadForFinish?) ==> forall w :: w in g.windows ==> g.windows[w].seen.id != a.id
  }

  ghost predicate SerialRun(g: Gen, run: seq<Action>)
    decreases |run|
  {
    run == [] || (Enabled(g, run[0]) && Serialised(g, run[0]) && SerialRun(Next(g, run[0]), run[1..]))
  }

  lemma {:induction false} SerialRunIsRun(g: Gen, run: seq<Action>)
    requires SerialRun(g, run)
    ensures CanRun(g, run)
    decreases |run|
  {
    if run != [] { SerialRunIsRun(Next(g, run[0]), run[1..]); }
  }

  lemma SerialPrepend(g: Gen, a: Action, rest: seq<Action>, g': Gen)
    requires Enabled(g, a) && Serialised(g, a) && Next(g, a) == g' && SerialRun(g', rest) && CanRun(g', rest)
    ensures SerialRun(g, [a] + rest) && CanRun(g, [a] + rest) && Exec(g, [a] + rest) == Exec(g', rest)
  {
    assert ([a] + rest)[1..] == rest;
  }

  lemma {:induction false} SerialRunsCompose(g: Gen, first: seq<Action>, second: seq<Action>)
    requires SerialRun(g, first) && CanRun(g, first) && SerialRun(Exec(g, first), second) && CanRun(Exec(g, first), second)
    ensures SerialRun(g, first + second) && CanRun(g, first + second)
    ensures Exec(g, first + second) == Exec(Exec(g, first), second)
    decreases |first|
  {
    if first == [] {
      assert first + second == second;
    } else {
      SplitFirst(first, second);
      SerialRunsCompose(Next(g, first[0]), first[1..], second);
    }
  }

  /** Read, cut and commit with no other window open. */
  function ChunkRun(producer: Producer, id: string, eventId: string, t: int, made: int): seq<Action> {
    [if producer == Scanner then ReadUnbilled(0, id) else ReadForFinish(0, id),
     CutChunk(0, eventId, t, made), CommitChunk(0)]
  }

  /** What one committed chunk does to the tables. */
  function AfterChunk(g: Gen, producer: Producer, id: string, eventId: string, t: int, made: int): Gen
    requires id in g.sessions
  {
    var c := CutFor(producer, g.sessions[id], eventId, t);
    g.(now := made, rows := g.rows + [RowFor(c, made)],
       sessions := g.sessions[id := Advanced(g.sessions[id], producer, c)])
  }

  lemma ChunkRunSerial(g: Gen, producer: Producer, id: string, eventId: string, t: int, made: int)
    requires g.windows == map[] && id in g.sessions && g.sessions[id].id == id
    requires producer == Scanner ==> IsUnbilled(g.sessions[id], g.now - g.interval)
    requires !EventIdTaken(g.rows, eventId)
    ensures var run := ChunkRun(producer, id, eventId, t, made);
      SerialRun(g, run) && CanRun(g, run) && Exec(g, run) == AfterChunk(g, producer, id, eventId, t, made)
  {
    var run := ChunkRun(producer, id, eventId, t, made);
    var g1 := Next(g, run[0]);
    var g2 := Next(g1, run[1]);
    var g3 := Next(g2, run[2]);
    assert g3.windows == map[];
    SerialPrepend(g2, run[2], [], g3);
    SerialPrepend(g1, run[1], [run[2]], g2);
    SerialPrepend(g, run[0], [run[1], run[2]], g1);
    assert run == [run[0], run[1], run[2]];
  }

  /** The committed chunks of one session, in commit order. */
  function ChunksOf(rows: seq<OutboxRow>, id: string): seq<Chunk> {
    if rows == [] then []
    else
      var last := rows[|rows| - 1];
      ChunksOf(rows[..|rows| - 1], id) + if last.sessionId == id then [last.payload] else []
  }

  lemma ChunksOfAppend(rows: seq<OutboxRow>, r: OutboxRow, id: string)
    ensures ChunksOf(rows + [r], id) == ChunksOf(rows, id) + if r.sessionId == id then [r.payload] else []
  {
    assert (rows + [r])[..|rows|] == rows;
  }

  lemma {:induction false} ChunksOfNone(rows: seq<OutboxRow>, id: string)
    requires forall i :: 0 <= i < |rows| ==> rows[i].sessionId != id
    ensures ChunksOf(rows, id) == []
  {
    if rows != [] { ChunksOfNone(rows[..|rows| - 1], id); }
  }

  /** Where the first k chunks of the sequence leave off. */
  function Boundary(cs: seq<Chunk>, start: int, k: nat): int
    requires k <= |cs|
  {
    if k == 0 then start else cs[k - 1].to
  }

  /** Numbered 1, 2, 3, ...; the first starts at `start`, each starts where the previous ended, the last ends at `end`. */
  predicate Tiles(cs: seq<Chunk>, start: int, end: int) {
    && (forall k :: 0 <= k < |cs| ==> cs[k].sequence == k + 1 && cs[k].from == Boundary(cs, start, k))
    && end == Boundary(cs, start, |cs|)
  }

  /** One more chunk keeps the tiling exactly when it has the next number and starts where the last one ended. */
  lemma TilesAppend(cs: seq<Chunk>, c: Chunk, start: int, end: int)
    requires Tiles(cs, start, end)
    ensures Tiles(cs + [c], start, c.to) <==> c.sequence == |cs| + 1 && c.from == end
  {
    var all := cs + [c];
    assert all[|cs|] == c && Boundary(all, start, |cs|) == end;
    forall k | 0 <= k < |cs| ensures all[k] == cs[k] && Boundary(all, start, k) == Boundary(cs, start, k) {
    }
  }

  function TotalLength(cs: seq<Chunk>): int {
    if cs == [] then 0 else TotalLength(cs[..|cs| - 1]) + cs[|cs| - 1].Length()
  }

  lemma {:induction false} TilesTotal(cs: seq<Chunk>, start: int, end: int)
    requires Tiles(cs, start, end)
    ensures TotalLength(cs) == end - start
  {
    if cs != [] {
      var front := cs[..|cs| - 1];
      forall k | 0 <= k <= |front| ensures Boundary(front, start, k) == Boundary(cs, start, k) {
      }
      assert cs[|front|].from == Boundary(cs, start, |front|);
      TilesTotal(front, start, Boundary(front, start, |front|));
    }
  }

  ghost predicate SessionTiled(s: Session, rows: seq<OutboxRow>) {
    && s.lastBilledAt.Some?
    && |ChunksOf(rows, s.id)| == s.billingSequence
    && Tiles(ChunksOf(rows, s.id), s.startAt, s.lastBilledAt.value)
    && (s.endAt.Some? ==> s.endAt == s.lastBilledAt)
  }

  /** No two rows carry the same session and sequence. */
  ghost predicate DistinctKeys(rows: seq<OutboxRow>) {
    forall i, j :: 0 <= i < j < |rows| && rows[i].sessionId == rows[j].sessionId ==> rows[i].sequence != rows[j].sequence
  }

  /** No row is numbered beyond its session's billing_sequence. */
  ghost predicate Counted(g: Gen) {
    forall i :: 0 <= i < |g.rows| ==>
      g.rows[i].sessionId in g.sessions && g.rows[i].sequence <= g.sessions[g.rows[i].sessionId].billingSequence
  }

  ghost predicate AllTiled(g: Gen) {
    forall id {:trigger SessionTiled(g.sessions[id], g.rows)} :: id in g.sessions ==>
      SessionTiled(g.sessions[id], g.rows)
  }

  /**
   The session row still carries the cursor and the number that window w read; and when a scanner
   bills a session that has been finished meanwhile, its chunk ends where the session did.
   */
  predicate CommitIsFresh(g: Gen, w: nat) {
    && w in g.windows && g.windows[w].Cutting? && g.windows[w].chunk.sessionId in g.sessions
    && var win, current := g.windows[w], g.sessions[g.windows[w].chunk.sessionId];
       && win.seen.lastBilledAt == current.lastBilledAt
       && win.seen.billingSequence == current.billingSequence
       && (win.producer == Scanner && current.endAt.Some? ==> current.endAt.value == win.chunk.to)
  }

  predicate Fresh(g: Gen, a: Action) {
    a.CommitChunk? ==> CommitIsFresh(g, a.w)
  }

  ghost predicate FreshInv(g: Gen) {
    Inv(g) && AllTiled(g) && Counted(g) && DistinctKeys(g.rows)
  }

  /** Committing window w keeps its session tiled exactly when the window is fresh. */
  lemma AdvancedIsTiled(g: Gen, w: nat)
    requires Inv(g) && AllTiled(g) && Enabled(g, CommitChunk(w))
    ensures var g' := Next(g, CommitChunk(w));
      var id := g.windows[w].chunk.sessionId;
      id in g.sessions && id in g'.sessions && (SessionTiled(g'.sessions[id], g'.rows) <==> CommitIsFresh(g, w))
  {
    var win := g.windows[w];
    var id := win.chunk.sessionId;
    assert WindowOk(g, win) && Grounded(g, win.seen);
    var s, row := g.sessions[id], RowFor(win.chunk, win.made);
    var cs := ChunksOf(g.rows, id);
    assert s.id == id && SessionTiled(s, g.rows);
    ChunksOfAppend(g.rows, row, id);
    TilesAppend(cs, win.chunk, s.startAt, s.lastBilledAt.value);
  }

  lemma CommitTilesExactly(g: Gen, w: nat)
    requires Inv(g) && AllTiled(g) && Enabled(g, CommitChunk(w))
    ensures AllTiled(Next(g, CommitChunk(w))) <==> CommitIsFresh(g, w)
  {
    var g' := Next(g, CommitChunk(w));
    var win := g.windows[w];
    AdvancedIsTiled(g, w);
    if CommitIsFresh(g, w) {
      forall id | id in g'.sessions ensures SessionTiled(g'.sessions[id], g'.rows) {
        if id != win.chunk.sessionId {
          assert g.sessions[id].id == id && SessionTiled(g.sessions[id], g.rows);
        }
      }
    } else {
      assert !SessionTiled(g'.sessions[win.chunk.sessionId], g'.rows);
    }
  }

  lemma CommitKeepsKeys(g: Gen, w: nat)
    requires FreshInv(g) && Enabled(g, CommitChunk(w)) && CommitIsFresh(g, w)
    ensures var g' := Next(g, CommitChunk(w)); Counted(g') && DistinctKeys(g'.rows)
  {
    assert WindowOk(g, g.windows[w]);
    var g' := Next(g, CommitChunk(w));
    forall i, j | 0 <= i < j < |g'.rows| && g'.rows[i].sessionId == g'.rows[j].sessionId
      ensures g'.rows[i].sequence != g'.rows[j].sequence
    {
      assert g'.rows[i] == g.rows[i];
    }
  }

  lemma CreateKeepsTiled(g: Gen, a: Action, id: string)
    requires Inv(g) && AllTiled(g) && a.CreateSession? && Enabled(g, a) && id in Next(g, a).sessions
    ensures SessionTiled(Next(g, a).sessions[id], g.rows)
  {
    if id == a.id {
      forall i | 0 <= i < |g.rows| ensures g.rows[i].sessionId != id {
        assert Continues(g.sessions, g.rows, i);
      }
      ChunksOfNone(g.rows, id);
    } else {
      assert SessionTiled(g.sessions[id], g.rows);
    }
  }

  /** Every other step keeps all sessions tiled. */
  lemma StepKeepsTiled(g: Gen, a: Action)
    requires Inv(g) && AllTiled(g) && Enabled(g, a) && !a.CommitChunk?
    ensures AllTiled(Next(g, a))
  {
    forall id | id in Next(g, a).sessions ensures SessionTiled(Next(g, a).sessions[id], Next(g, a).rows) {
      if a.CreateSession? {
        CreateKeepsTiled(g, a, id);
      } else {
        assert SessionTiled(g.sessions[id], g.rows);
      }
    }
  }

  lemma FreshStep(g: Gen, a: Action)
    requires FreshInv(g) && Enabled(g, a) && Fresh(g, a)
    ensures FreshInv(Next(g, a))
  {
    StepKeepsInv(g, a);
    if a.CommitChunk? {
      CommitTilesExactly(g, a.w);
      CommitKeepsKeys(g, a.w);
    } else {
      StepKeepsTiled(g, a);
    }
  }

  // ---------- Exactly when the tiling holds ----------

  predicate FreshRun(g: Gen, run: seq<Action>)
    requires CanRun(g, run)
    decreases |run|
  {
    run == [] || (Fresh(g, run[0]) && FreshRun(Next(g, run[0]), run[1..]))
  }

  ghost predicate TiledThroughout(g: Gen, run: seq<Action>)
    requires CanRun(g, run)
    decreases |run|
  {
    AllTiled(g) && (run == [] || TiledThroughout(Next(g, run[0]), run[1..]))
  }

  lemma {:induction false} TiledThroughoutExactly(g: Gen, run: seq<Action>)
    requires Inv(g) && AllTiled(g) && CanRun(g, run)
    ensures TiledThroughout(g, run) <==> FreshRun(g, run)
    decreases |run|
  {
    if run != [] {
      var g' := Next(g, run[0]);
      StepKeepsInv(g, run[0]);
      if run[0].CommitChunk? {
        CommitTilesExactly(g, run[0].w);
      } else {
        StepKeepsTiled(g, run[0]);
      }
      if AllTiled(g') {
        TiledThroughoutExactly(g', run[1..]);
      }
    }
  }

  /** For any interleaving: all sessions stay tiled throughout exactly when no commit is stale. */
  lemma TiledExactlyWhenFresh(now: int, interval: int, run: seq<Action>)
    requires CanRun(Initial(now, interval), run)
    ensures TiledThroughout(Initial(now, interval), run) <==> FreshRun(Initial(now, interval), run)
  {
    InitialInv(now, interval);
    TiledThroughoutExactly(Initial(now, interval), run);
  }

  // ---------- Serialised runs are fresh ----------

  /** Every remembered row is the current one, and each session has at most one window. */
  ghost predicate WindowsCurrent(g: Gen) {
    && (forall w :: w in g.windows ==>
          g.windows[w].seen.id in g.sessions && g.windows[w].seen == g.sessions[g.windows[w].seen.id])
    && (forall v, w :: v in g.windows && w in g.windows && v != w ==> g.windows[v].seen.id != g.windows[w].seen.id)
  }

  ghost predicate SerialInv(g: Gen) {
    Inv(g) && WindowsCurrent(g)
  }

  lemma SerialIsFresh(g: Gen, a: Action)
    requires SerialInv(g) && Enabled(g, a)
    ensures Fresh(g, a)
  {
    if a.CommitChunk? {
      assert WindowOk(g, g.windows[a.w]) && Grounded(g, g.windows[a.w].seen);
    }
  }

  lemma SerialStep(g: Gen, a: Action)
    requires SerialInv(g) && Enabled(g, a) && Serialised(g, a)
    ensures SerialInv(Next(g, a))
  {
    StepKeepsInv(g, a);
    if a.CommitChunk? {
      assert WindowOk(g, g.windows[a.w]);
    }
  }

  /** Windows that never overlap never go stale. */
  lemma {:induction false} SerialRunIsFresh(g: Gen, run: seq<Action>)
    requires SerialInv(g) && SerialRun(g, run)
    ensures CanRun(g, run) && FreshRun(g, run)
    decreases |run|
  {
    SerialRunIsRun(g, run);
    if run != [] {
      SerialIsFresh(g, run[0]);
      SerialStep(g, run[0]);
      SerialRunIsFresh(Next(g, run[0]), run[1..]);
    }
  }

  lemma {:induction false} FreshRunKeeps(g: Gen, run: seq<Action>)
    requires FreshInv(g) && CanRun(g, run) && FreshRun(g, run)
    ensures FreshInv(Exec(g, run))
    decreases |run|
  {
    if run != [] {
      FreshStep(g, run[0]);
      FreshRunKeeps(Next(g, run[0]), run[1..]);
    }
  }

  lemma SerialRunKeeps(now: int, interval: int, run: seq<Action>)
    requires SerialRun(Initial(now, interval), run)
    ensures CanRun(Initial(now, interval), run) && FreshInv(Exec(Initial(now, interval), run))
  {
    SerialRunIsFresh(Initial(now, interval), run);
    FreshRunKeeps(Initial(now, interval), run);
  }

  /**
   For every serialised run: a session's chunks in commit order are numbered 1..billing_sequence,
   tile [start_at, last_billed_at) and so sum to last_billed_at - start_at; once the session is
   finished, that is end_at - start_at.
   */
  lemma ExactTiling(now: int, interval: int, run: seq<Action>, id: string)
    requires SerialRun(Initial(now, interval), run)
    ensures CanRun(Initial(now, interval), run)
    ensures var g := Exec(Initial(now, interval), run);
      id in g.sessions ==>
        var s := g.sessions[id];
        var cs := ChunksOf(g.rows, id);
        && s.lastBilledAt.Some?
        && |cs| == s.billingSequence
        && Tiles(cs, s.startAt, s.lastBilledAt.value)
        && TotalLength(cs) == s.lastBilledAt.value - s.startAt
        && (s.endAt.Some? ==> TotalLength(cs) == s.endAt.value - s.startAt)
  {
    SerialRunKeeps(now, interval, run);
    var g := Exec(Initial(now, interval), run);
    if id in g.sessions {
      assert g.sessions[id].id == id && SessionTiled(g.sessions[id], g.rows);
      TilesTotal(ChunksOf(g.rows, id), g.sessions[id].startAt, g.sessions[id].lastBilledAt.value);
    }
  }

  // ---------- The hypothesis is needed ----------

  /**
   Scanner and finisher both read session "s" before either commits. The finisher commits [0, 11),
   the scanner then [0, 12): two overlapping chunks numbered 1, a finished session whose
   last_billed_at lies beyond its end_at, and two events that share one transaction id.
   */
  function OverlappingRun(): seq<Action> {
    [CreateSession("s", "b", "o", Some(0)), ReadUnbilled(1, "s"), ReadForFinish(2, "s"),
     CutChunk(2, "e2", 11, 11), CommitChunk(2), CutChunk(1, "e1", 12, 12), CommitChunk(1)]
  }

  lemma OverlapBreaksTiling()
    ensures CanRun(Initial(10, 5), OverlappingRun())
    ensures var g := Exec(Initial(10, 5), OverlappingRun());
      && |g.rows| == 2
      && g.rows[0].payload == Chunk("e2", "s", "b", "o", 1, 0, 11)
      && g.rows[1].payload == Chunk("e1", "s", "b", "o", 1, 0, 12)
      && "s" in g.sessions
      && g.sessions["s"].endAt == Some(11) && g.sessions["s"].lastBilledAt == Some(12)
      && g.sessions["s"].billingSequence == 1
  {
    var session := NewSession("s", "b", "o", 0);
    var late := Chunk("e1", "s", "b", "o", 1, 0, 12);
    var early := Chunk("e2", "s", "b", "o", 1, 0, 11);
    var finished := Advanced(session, Finisher, early);
    var run := OverlappingRun();
    var g1 := Gen(10, 5, map["s" := session], map[], []);
    var g2 := g1.(windows := map[1 := Reading(Scanner, session)]);
    var g3 := g1.(windows := map[1 := Reading(Scanner, session), 2 := Reading(Finisher, session)]);
    var g4 := g3.(now := 11, windows := map[1 := Reading(Scanner, session), 2 := Cutting(Finisher, session, early, 11)]);
    var g5 := Gen(11, 5, map["s" := finished], map[1 := Reading(Scanner, session)], [RowFor(early, 11)]);
    var g6 := g5.(now := 12, windows := map[1 := Cutting(Scanner, session, late, 12)]);
    var g7 := Next(g6, run[6]);
    assert g7.rows == [RowFor(early, 11), RowFor(late, 12)];
    Prepend(g6, run[6], [], g7);
    Prepend(g5, run[5], [run[6]], g6);
    Prepend(g4, run[4], [run[5], run[6]], g5);
    Prepend(g3, run[3], [run[4], run[5], run[6]], g4);
    Prepend(g2, run[2], [run[3], run[4], run[5], run[6]], g3);
    Prepend(g1, run[1], [run[2], run[3], run[4], run[5], run[6]], g2);
    Prepend(Initial(10, 5), run[0], [run[1], run[2], run[3], run[4], run[5], run[6]], g1);
    assert run == [run[0], run[1], run[2], run[3], run[4], run[5], run[6]];
  }
}
