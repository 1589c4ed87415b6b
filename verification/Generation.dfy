/**
 Chunk generation in the usage service as a state machine.

 A producer (the scanner or the finisher) reads a session row outside any transaction, cuts a
 chunk from that remembered row, and commits: the outbox row and the session update become
 visible together, and the update is guarded only by the session's id. Any number of producers
 may be between their read and their commit, and the clock is unconstrained; hypotheses on the
 clock and on overlapping windows are separate guards.
 */
module Generation {
  import opened Model

  datatype Producer = Scanner | Finisher

  /** A producer between its read and its commit; `seen` is the row it read. */
  datatype Window =
    | Reading(producer: Producer, seen: Session)
    | Cutting(producer: Producer, seen: Session, chunk: Chunk, made: int)

  datatype Gen = Gen(
    now: int, interval: int, sessions: map<string, Session>,
    windows: map<nat, Window>, rows: seq<OutboxRow>)

  datatype Action =
    | CreateSession(id: string, sandboxId: string, organizationId: string, startAt: Option<int>)
    | AdvanceClock(t: int)
    | ReadUnbilled(w: nat, id: string)
    | ReadForFinish(w: nat, id: string)
    | CutChunk(w: nat, eventId: string, t: int, made: int)
    | CommitChunk(w: nat)
    | RollBack(w: nat)

  /** A session row as CreateSession inserts it: active, with last_billed_at seeded to start_at. */
  function NewSession(id: string, sandboxId: string, organizationId: string, startAt: int): Session {
    Session(id, sandboxId, organizationId, startAt, None, SessionActive, Some(startAt), BillingActive, 0)
  }

  /** The scanner's WHERE clause; a NULL last_billed_at satisfies no comparison. */
  predicate IsUnbilled(s: Session, cutoff: int) {
    s.status == SessionActive && s.lastBilledAt.Some? && s.lastBilledAt.value < cutoff
  }

  function ChunkFrom(producer: Producer, seen: Session): int {
    match seen.lastBilledAt
    case Some(t) => t
    case None => if producer == Scanner then seen.startAt else ZERO_TIME
  }

  function ChunkTo(producer: Producer, seen: Session, t: int): int {
    if producer == Scanner && seen.endAt.Some? && seen.endAt.value < t then seen.endAt.value else t
  }

  function CutFor(producer: Producer, seen: Session, eventId: string, t: int): Chunk {
    Chunk(eventId, seen.id, seen.sandboxId, seen.organizationId,
          seen.billingSequence + 1, ChunkFrom(producer, seen), ChunkTo(producer, seen, t))
  }

  function RowFor(c: Chunk, made: int): OutboxRow {
    OutboxRow(c.eventId, BILLING_CHUNK_CREATED, c.sessionId, c.sequence, c, made)
  }

  /** What a committed chunk writes to the current session row. */
  function Advanced(current: Session, producer: Producer, c: Chunk): Session {
    var s := current.(lastBilledAt := Some(c.to), billingSequence := c.sequence);
    if producer == Scanner then s
    else s.(status := SessionFinished, endAt := Some(c.to), billingStatus := BillingCompleted)
  }

  predicate Enabled(g: Gen, a: Action) {
    match a
    case CreateSession(id, _, _, _) => id !in g.sessions
    case AdvanceClock(_) => true
    case ReadUnbilled(w, id) =>
      w !in g.windows && id in g.sessions && IsUnbilled(g.sessions[id], g.now - g.interval)
    case ReadForFinish(w, id) => w !in g.windows && id in g.sessions
    case CutChunk(w, _, _, _) => w in g.windows && g.windows[w].Reading?
    case CommitChunk(w) =>
      && w in g.windows && g.windows[w].Cutting?
      && !EventIdTaken(g.rows, g.windows[w].chunk.eventId)
      // The finisher checks that its update found the row; the scanner does not.
      && (g.windows[w].producer == Finisher ==> g.windows[w].chunk.sessionId in g.sessions)
    case RollBack(w) => w in g.windows
  }

  function Next(g: Gen, a: Action): Gen
    requires Enabled(g, a)
  {
    match a
    case CreateSession(id, sandboxId, organizationId, startAt) =>
      var start := if startAt.Some? then startAt.value else g.now;
      g.(sessions := g.sessions[id := NewSession(id, sandboxId, organizationId, start)])
    case AdvanceClock(t) => g.(now := t)
    case ReadUnbilled(w, id) => g.(windows := g.windows[w := Reading(Scanner, g.sessions[id])])
    case ReadForFinish(w, id) => g.(windows := g.windows[w := Reading(Finisher, g.sessions[id])])
    case CutChunk(w, eventId, t, made) =>
      var win := g.windows[w];
      var c := CutFor(win.producer, win.seen, eventId, t);
      g.(now := made, windows := g.windows[w := Cutting(win.producer, win.seen, c, made)])
    case CommitChunk(w) =>
      var win := g.windows[w];
      var id := win.chunk.sessionId;
      g.(rows := g.rows + [RowFor(win.chunk, win.made)],
         windows := g.windows - {w},
         sessions := if id in g.sessions
                     then g.sessions[id := Advanced(g.sessions[id], win.producer, win.chunk)]
                     else g.sessions)
    case RollBack(w) => g.(windows := g.windows - {w})
  }

  function Initial(now: int, interval: int): Gen {
    Gen(now, interval, map[], map[], [])
  }

  predicate CanRun(g: Gen, run: seq<Action>)
    decreases |run|
  {
    run == [] || (Enabled(g, run[0]) && CanRun(Next(g, run[0]), run[1..]))
  }

  function Exec(g: Gen, run: seq<Action>): Gen
    requires CanRun(g, run)
    decreases |run|
  {
    if run == [] then g else Exec(Next(g, run[0]), run[1..])
  }

  lemma Prepend(g: Gen, a: Action, rest: seq<Action>, g': Gen)
    requires Enabled(g, a) && Next(g, a) == g' && CanRun(g', rest)
    ensures CanRun(g, [a] + rest) && Exec(g, [a] + rest) == Exec(g', rest)
  {
  }

  lemma {:induction false} RunsCompose(g: Gen, first: seq<Action>, second: seq<Action>)
    requires CanRun(g, first) && CanRun(Exec(g, first), second)
    ensures CanRun(g, first + second) && Exec(g, first + second) == Exec(Exec(g, first), second)
    decreases |first|
  {
    if first == [] {
      assert first + second == second;
    } else {
      SplitFirst(first, second);
      RunsCompose(Next(g, first[0]), first[1..], second);
    }
  }

  // ---------- What every interleaving keeps ----------

  /** The sequence number n has been emitted for the session. */
  ghost predicate Emitted(rows: seq<OutboxRow>, id: string, n: int) {
    exists i :: 0 <= i < |rows| && rows[i].sessionId == id && rows[i].sequence == n
  }

  /** Some committed chunk of the session ends at t. */
  ghost predicate EndsAt(rows: seq<OutboxRow>, id: string, t: int) {
    exists i :: 0 <= i < |rows| && rows[i].sessionId == id && rows[i].payload.to == t
  }

  /**
   A row version, current or remembered: its cursor is the start or the end of a committed chunk, it has
   an end once it is finished, and exactly then its billing is completed.
   */
  ghost predicate Grounded(g: Gen, s: Session) {
    && s.id in g.sessions
    && s.startAt == g.sessions[s.id].startAt
    && s.sandboxId == g.sessions[s.id].sandboxId
    && s.organizationId == g.sessions[s.id].organizationId
    && s.lastBilledAt.Some?
    && (s.lastBilledAt.value == s.startAt || EndsAt(g.rows, s.id, s.lastBilledAt.value))
    && (s.billingSequence == 0 || Emitted(g.rows, s.id, s.billingSequence))
    && (s.status == SessionActive <==> s.endAt == None)
    && (s.status == SessionFinished <==> s.billingStatus == BillingCompleted)
  }

  ghost predicate WindowOk(g: Gen, win: Window) {
    && Grounded(g, win.seen)
    && (win.producer == Scanner ==> win.seen.status == SessionActive)
    && (win.Cutting? ==> exists t :: win.chunk == CutFor(win.producer, win.seen, win.chunk.eventId, t))
  }

  /** Row i continues its session from the start or from an earlier committed chunk. */
  ghost predicate Continues(sessions: map<string, Session>, rows: seq<OutboxRow>, i: nat)
    requires i < |rows|
  {
    var r := rows[i];
    && r.sessionId in sessions
    && r.payload.sandboxId == sessions[r.sessionId].sandboxId
    && r.payload.organizationId == sessions[r.sessionId].organizationId
    && (r.payload.from == sessions[r.sessionId].startAt || EndsAt(rows[..i], r.sessionId, r.payload.from))
    && (r.sequence == 1 || Emitted(rows[..i], r.sessionId, r.sequence - 1))
  }

  ghost predicate Inv(g: Gen) {
    && (forall id :: id in g.sessions ==> g.sessions[id].id == id)
    && (forall id {:trigger Grounded(g, g.sessions[id])} :: id in g.sessions ==> Grounded(g, g.sessions[id]))
    && (forall w {:trigger WindowOk(g, g.windows[w])} :: w in g.windows ==> WindowOk(g, g.windows[w]))
    && (forall i :: 0 <= i < |g.rows| ==> RowMatchesPayload(g.rows[i]))
    && (forall i :: 0 <= i < |g.rows| ==> Continues(g.sessions, g.rows, i))
    && DistinctEventIds(g.rows)
  }

  lemma InitialInv(now: int, interval: int)
    ensures Inv(Initial(now, interval))
  {
  }

  /** Growing the outbox or the session table keeps a row version grounded. */
  lemma GroundedMono(g: Gen, g': Gen, s: Session)
    requires Grounded(g, s)
    requires g.rows <= g'.rows
    requires s.id in g'.sessions
    requires g'.sessions[s.id].startAt == g.sessions[s.id].startAt
    requires g'.sessions[s.id].sandboxId == g.sessions[s.id].sandboxId
    requires g'.sessions[s.id].organizationId == g.sessions[s.id].organizationId
    ensures Grounded(g', s)
  {
  }

  lemma CommitContinues(g: Gen, w: nat, i: nat)
    requires Inv(g) && Enabled(g, CommitChunk(w)) && i <= |g.rows|
    ensures var g' := Next(g, CommitChunk(w)); i < |g'.rows| && Continues(g'.sessions, g'.rows, i)
  {
    var g' := Next(g, CommitChunk(w));
    var win := g.windows[w];
    assert g'.rows[..i] == g.rows[..i];
    if i < |g.rows| {
      assert Continues(g.sessions, g.rows, i);
    } else {
      assert WindowOk(g, win) && g.rows[..i] == g.rows && g'.rows[i] == RowFor(win.chunk, win.made);
    }
  }

  lemma CommitGrounds(g: Gen, w: nat, k: string)
    requires Inv(g) && Enabled(g, CommitChunk(w)) && k in Next(g, CommitChunk(w)).sessions
    ensures var g' := Next(g, CommitChunk(w)); g'.sessions[k].id == k && Grounded(g', g'.sessions[k])
  {
    var g' := Next(g, CommitChunk(w));
    var win := g.windows[w];
    var n := |g.rows|;
    assert WindowOk(g, win) && Grounded(g, g.sessions[k]);
    GroundedMono(g, g', g.sessions[k]);
    assert g'.rows[n] == RowFor(win.chunk, win.made);
  }

  lemma CommitKeepsInv(g: Gen, w: nat)
    requires Inv(g) && Enabled(g, CommitChunk(w))
    ensures Inv(Next(g, CommitChunk(w)))
  {
    var g' := Next(g, CommitChunk(w));
    forall i | 0 <= i < |g'.rows| ensures Continues(g'.sessions, g'.rows, i) {
      CommitContinues(g, w, i);
    }
    forall k | k in g'.sessions ensures g'.sessions[k].id == k && Grounded(g', g'.sessions[k]) {
      CommitGrounds(g, w, k);
    }
    forall v | v in g'.windows ensures WindowOk(g', g'.windows[v]) {
      assert WindowOk(g, g.windows[v]);
      GroundedMono(g, g', g.windows[v].seen);
    }
  }

  lemma WindowStep(g: Gen, a: Action, v: nat)
    requires Inv(g) && Enabled(g, a) && !a.CommitChunk? && v in Next(g, a).windows
    ensures WindowOk(Next(g, a), Next(g, a).windows[v])
  {
    var g' := Next(g, a);
    if v in g.windows {
      var win := g.windows[v];
      assert WindowOk(g, win);
      GroundedMono(g, g', win.seen);
      if a.CutChunk? && a.w == v {
        assert g'.windows[v].chunk == CutFor(win.producer, win.seen, g'.windows[v].chunk.eventId, a.t);
      }
    } else {
      assert Grounded(g, g.sessions[a.id]);
      GroundedMono(g, g', g.sessions[a.id]);
    }
  }

  lemma SessionStep(g: Gen, a: Action, k: string)
    requires Inv(g) && Enabled(g, a) && !a.CommitChunk? && k in Next(g, a).sessions
    ensures Next(g, a).sessions[k].id == k && Grounded(Next(g, a), Next(g, a).sessions[k])
  {
    if k in g.sessions {
      assert Grounded(g, g.sessions[k]);
      GroundedMono(g, Next(g, a), g.sessions[k]);
    }
  }

  lemma ContinuesStep(g: Gen, a: Action, i: nat)
    requires Inv(g) && Enabled(g, a) && !a.CommitChunk? && i < |g.rows|
    ensures Continues(Next(g, a).sessions, g.rows, i)
  {
    assert Continues(g.sessions, g.rows, i);
  }

  lemma OtherStepKeepsInv(g: Gen, a: Action)
    requires Inv(g) && Enabled(g, a) && !a.CommitChunk?
    ensures Inv(Next(g, a))
  {
    var g' := Next(g, a);
    assert g'.rows == g.rows;
    forall k | k in g'.sessions ensures g'.sessions[k].id == k && Grounded(g', g'.sessions[k]) {
      SessionStep(g, a, k);
    }
    forall v | v in g'.windows ensures WindowOk(g', g'.windows[v]) {
      WindowStep(g, a, v);
    }
    forall i | 0 <= i < |g'.rows| ensures Continues(g'.sessions, g'.rows, i) {
      ContinuesStep(g, a, i);
    }
  }

  /** Every step of every interleaving, under any clock, keeps the invariant. */
  lemma StepKeepsInv(g: Gen, a: Action)
    requires Inv(g) && Enabled(g, a)
    ensures Inv(Next(g, a))
  {
    if a.CommitChunk? {
      CommitKeepsInv(g, a.w);
    } else {
      OtherStepKeepsInv(g, a);
    }
  }

  lemma {:induction false} RunKeepsInv(g: Gen, run: seq<Action>)
    requires Inv(g) && CanRun(g, run)
    ensures Inv(Exec(g, run))
    decreases |run|
  {
    if run != [] {
      StepKeepsInv(g, run[0]);
      RunKeepsInv(Next(g, run[0]), run[1..]);
    }
  }

  /** For every run: a session has an end and completed billing exactly when it is finished. */
  lemma FinishedIsCompleted(now: int, interval: int, run: seq<Action>, id: string)
    requires CanRun(Initial(now, interval), run)
    requires id in Exec(Initial(now, interval), run).sessions
    ensures var s := Exec(Initial(now, interval), run).sessions[id];
      && (s.status == SessionFinished <==> s.billingStatus == BillingCompleted)
      && (s.status == SessionFinished <==> s.endAt.Some?)
      && s.lastBilledAt.Some?
  {
    InitialInv(now, interval);
    RunKeepsInv(Initial(now, interval), run);
    var g := Exec(Initial(now, interval), run);
    assert Grounded(g, g.sessions[id]);
  }

  // ---------- No billing gap ----------

  /** The earliest chunk that ends after t also starts at or before t: walk back along the chain. */
  lemma {:induction false} CoveringRow(g: Gen, id: string, t: int, i: nat) returns (j: nat)
    requires Inv(g) && id in g.sessions && g.sessions[id].startAt <= t
    requires i < |g.rows| && g.rows[i].sessionId == id && t < g.rows[i].payload.to
    ensures j <= i && g.rows[j].sessionId == id && g.rows[j].payload.from <= t < g.rows[j].payload.to
  {
    if g.rows[i].payload.from <= t {
      j := i;
    } else {
      assert Continues(g.sessions, g.rows, i);
      var k :| 0 <= k < i && g.rows[k].sessionId == id && g.rows[k].payload.to == g.rows[i].payload.from;
      j := CoveringRow(g, id, t, k);
    }
  }

  /**
   For every run, however stale the windows are and whatever the clock does: each instant from
   start_at up to the largest To emitted for a session lies in one of its committed chunks.
   */
  lemma NoBillingGap(now: int, interval: int, run: seq<Action>, id: string, t: int, i: nat)
    requires CanRun(Initial(now, interval), run)
    requires var g := Exec(Initial(now, interval), run);
      && id in g.sessions && g.sessions[id].startAt <= t
      && i < |g.rows| && g.rows[i].sessionId == id && t < g.rows[i].payload.to
    ensures var g := Exec(Initial(now, interval), run);
      exists j :: 0 <= j < |g.rows| && g.rows[j].sessionId == id && g.rows[j].payload.from <= t < g.rows[j].payload.to
  {
    InitialInv(now, interval);
    RunKeepsInv(Initial(now, interval), run);
    var g := Exec(Initial(now, interval), run);
    var j := CoveringRow(g, id, t, i);
  }

  // ---------- Sequence numbers ----------

  /** The largest sequence number emitted for a session, 0 when there is none. */
  function LargestSequence(rows: seq<OutboxRow>, id: string): nat {
    if rows == [] then 0
    else
      var before := LargestSequence(rows[..|rows| - 1], id);
      var last := rows[|rows| - 1];
      if last.sessionId == id && last.sequence > before then last.sequence else before
  }

  lemma {:induction false} LargestIsLargest(rows: seq<OutboxRow>, id: string, i: nat)
    requires i < |rows| && rows[i].sessionId == id
    ensures rows[i].sequence <= LargestSequence(rows, id)
  {
    if i < |rows| - 1 {
      LargestIsLargest(rows[..|rows| - 1], id, i);
    }
  }

  /** The chain of earlier rows reaches every number between 1 and an emitted one. */
  lemma {:induction false} EmittedDownTo(g: Gen, id: string, i: nat, m: int)
    requires Inv(g) && i < |g.rows| && g.rows[i].sessionId == id && 1 <= m <= g.rows[i].sequence
    ensures Emitted(g.rows, id, m)
    decreases i
  {
    if m < g.rows[i].sequence {
      assert Continues(g.sessions, g.rows, i);
      var k :| 0 <= k < i && g.rows[k].sessionId == id && g.rows[k].sequence == g.rows[i].sequence - 1;
      EmittedDownTo(g, id, k, m);
    }
  }

  lemma {:induction false} EmittedIsPositive(g: Gen, i: nat)
    requires Inv(g) && i < |g.rows|
    ensures 1 <= g.rows[i].sequence
  {
    assert Continues(g.sessions, g.rows, i);
    if g.rows[i].sequence != 1 {
      var k :| 0 <= k < i && g.rows[k].sessionId == g.rows[i].sessionId && g.rows[k].sequence == g.rows[i].sequence - 1;
      EmittedIsPositive(g, k);
    }
  }

  lemma {:induction false} LargestIsEmitted(rows: seq<OutboxRow>, id: string)
    ensures LargestSequence(rows, id) == 0 || Emitted(rows, id, LargestSequence(rows, id))
  {
    if rows != [] {
      var front := rows[..|rows| - 1];
      LargestIsEmitted(front, id);
      if Emitted(front, id, LargestSequence(rows, id)) {
        var i :| 0 <= i < |front| && front[i].sessionId == id && front[i].sequence == LargestSequence(rows, id);
        assert rows[i] == front[i];
      }
      assert rows[|rows| - 1] in rows;
    }
  }

  /**
   For every run: the sequences emitted for a session are exactly 1..k, and the stored
   billing_sequence is 0 or one of them, even when a stale commit moved it backwards.
   */
  lemma SequencesArePrefixClosed(now: int, interval: int, run: seq<Action>, id: string)
    requires CanRun(Initial(now, interval), run)
    requires id in Exec(Initial(now, interval), run).sessions
    ensures var g := Exec(Initial(now, interval), run);
      && (forall n :: Emitted(g.rows, id, n) <==> 1 <= n <= LargestSequence(g.rows, id))
      && 0 <= g.sessions[id].billingSequence <= LargestSequence(g.rows, id)
  {
    InitialInv(now, interval);
    RunKeepsInv(Initial(now, interval), run);
    var g := Exec(Initial(now, interval), run);
    var k := LargestSequence(g.rows, id);
    LargestIsEmitted(g.rows, id);
    forall n: int ensures Emitted(g.rows, id, n) <==> 1 <= n <= k {
      if Emitted(g.rows, id, n) {
        var i :| 0 <= i < |g.rows| && g.rows[i].sessionId == id && g.rows[i].sequence == n;
        LargestIsLargest(g.rows, id, i);
        EmittedIsPositive(g, i);
      }
      if 1 <= n <= k {
        var i :| 0 <= i < |g.rows| && g.rows[i].sessionId == id && g.rows[i].sequence == k;
        EmittedDownTo(g, id, i, n);
      }
    }
    assert Grounded(g, g.sessions[id]);
  }
}
