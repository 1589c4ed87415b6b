/**
 Exactly when a session can be charged for more time than it was billed: after any commit, when the
 longest chunks of its numbers are longer than what it is billed. Without stale commits that takes a
 chunk that ends before it starts; at the first stale commit, a row that was read too long ago.
 */
module Overcharge {
  import opened Model
  import opened Generation
  import opened Tiling
  import opened Clock
  import opened Ledger
  import opened Ceiling
  import Charging
  import Delivery
  import Deployment
  import Pipeline
  import Publishing
  import Starvation

  /** last_billed_at - start_at. */
  function Billed(g: Gen, id: string): int
    requires id in g.sessions && g.sessions[id].lastBilledAt.Some?
  {
    g.sessions[id].lastBilledAt.value - g.sessions[id].startAt
  }

  // ---------- Any commit of any run ----------

  lemma CommittedSession(g: Gen, w: nat)
    requires Inv(g) && Enabled(g, CommitChunk(w))
    ensures var g', id := Next(g, CommitChunk(w)), g.windows[w].chunk.sessionId;
      && g'.rows == g.rows + [RowFor(g.windows[w].chunk, g.windows[w].made)]
      && RowMatchesPayload(RowFor(g.windows[w].chunk, g.windows[w].made))
      && id in g.sessions && id in g'.sessions && g'.sessions[id].lastBilledAt == Some(g.windows[w].chunk.to)
      && Billed(g', id) == g.windows[w].chunk.to - g.sessions[id].startAt
  {
    assert WindowOk(g, g.windows[w]) && Grounded(g, g.windows[w].seen);
  }

  /** The new row raises the most that can be charged by what it is longer than the longest of its number. */
  lemma CommitRaises(g: Gen, w: nat)
    requires Inv(g) && Enabled(g, CommitChunk(w))
    ensures var win := g.windows[w];
      LargestCharge(Next(g, CommitChunk(w)).rows, win.chunk.sessionId) ==
        LargestCharge(g.rows, win.chunk.sessionId) + Raised(g.rows, RowFor(win.chunk, win.made), win.chunk.sessionId)
  {
    var g', id, r := Next(g, CommitChunk(w)), g.windows[w].chunk.sessionId, RowFor(g.windows[w].chunk, g.windows[w].made);
    var k, k' := LargestSequence(g.rows, id), LargestSequence(g'.rows, id);
    CommittedSession(g, w);
    StepKeepsInv(g, CommitChunk(w));
    RowsAreNumbered(g, id);
    RowsAreNumbered(g', id);
    assert g'.rows[|g.rows|] == r && g'.rows[..|g.rows|] == g.rows;
    SumLongestAppend(g.rows, r, id, k');
    SumLongestStops(g.rows, id, k, k');
  }

  /**
   For every run of the usage service followed by any commit, stale commits before it and any clock
   included: the session can be charged for more than it is then billed exactly when what could be
   charged before, and what the new chunk is longer than the longest of its number, are together more.
   */
  lemma CommitOverchargesExactly(now: int, interval: int, run: seq<Action>, w: nat, u: Starvation.Setup)
    requires CanRun(Initial(now, interval), run) && Enabled(Exec(Initial(now, interval), run), CommitChunk(w))
    requires var g := Exec(Initial(now, interval), run);
      Charging.SessionServable(Next(g, CommitChunk(w)).rows, g.windows[w].chunk.sessionId, u)
    ensures var g := Exec(Initial(now, interval), run);
      var win, id, g' := g.windows[w], g.windows[w].chunk.sessionId, Next(g, CommitChunk(w));
      && id in g.sessions && id in g'.sessions && g'.sessions[id].lastBilledAt.Some?
      && (Charging.CanCharge(now, interval, g', id, Billed(g', id), u) <==>
            win.chunk.to - g.sessions[id].startAt <
              LargestCharge(g.rows, id) + Raised(g.rows, RowFor(win.chunk, win.made), id))
  {
    var g0 := Initial(now, interval);
    var g := Exec(g0, run);
    var g', id := Next(g, CommitChunk(w)), g.windows[w].chunk.sessionId;
    InitialInv(now, interval);
    RunKeepsInv(g0, run);
    CommittedSession(g, w);
    CommitRaises(g, w);
    Prepend(g, CommitChunk(w), [], g');
    assert [CommitChunk(w)] + [] == [CommitChunk(w)];
    RunsCompose(g0, run, [CommitChunk(w)]);
    Charging.CanChargeExactly(now, interval, run + [CommitChunk(w)], id, Billed(g', id), u);
  }

  // ---------- No stale commit ----------

  /** Without stale commits every valid chunk counts. */
  lemma FreshLargestCharge(g: Gen, id: string)
    requires FreshInv(g)
    ensures LargestCharge(g.rows, id) == PassedLength(g.rows, id)
  {
    RowsAreNumbered(g, id);
    KeyedSum(g.rows, id, LargestSequence(g.rows, id));
  }

  /**
   For every run without stale commits, under any clock: the session can be charged for more than it
   was billed exactly when its chunks that the gate refuses have negative length in all; with all ids
   present, exactly when some chunk ends before it starts.
   */
  lemma FreshChargeExactly(now: int, interval: int, run: seq<Action>, id: string, u: Starvation.Setup)
    requires CanRun(Initial(now, interval), run) && FreshRun(Initial(now, interval), run)
    requires id in Exec(Initial(now, interval), run).sessions
    requires Charging.SessionServable(Exec(Initial(now, interval), run).rows, id, u)
    ensures var g := Exec(Initial(now, interval), run);
      && g.sessions[id].lastBilledAt.Some?
      && (Charging.CanCharge(now, interval, g, id, Billed(g, id), u) <==> RefusedLength(g.rows, id) < 0)
      && (Named(g.rows, id) ==>
            (Charging.CanCharge(now, interval, g, id, Billed(g, id), u) <==> !Forward(g.rows, id)))
  {
    var g := Exec(Initial(now, interval), run);
    FreshRunKeeps(Initial(now, interval), run);
    Pipeline.SessionTotal(g, id);
    Charging.CanChargeExactly(now, interval, run, id, Billed(g, id), u);
    FreshLargestCharge(g, id);
    PassedAndRefused(g.rows, id);
    if Named(g.rows, id) { RefusedIsNegative(g.rows, id); }
  }

  // ---------- The first stale commit ----------

  /** Each window remembers a point at which its session's chunks once ended: the m-th of them. */
  ghost predicate RemembersAll(g: Gen) {
    forall w {:trigger RemembersWindow(g, w)} :: w in g.windows ==> RemembersWindow(g, w)
  }

  ghost predicate RemembersWindow(g: Gen, w: nat)
    requires w in g.windows
  {
    var seen := g.windows[w].seen;
    && seen.id in g.sessions && seen.lastBilledAt.Some?
    && var cs := ChunksOf(g.rows, seen.id);
       && 0 <= seen.billingSequence <= |cs|
       && seen.lastBilledAt.value == Boundary(cs, g.sessions[seen.id].startAt, seen.billingSequence)
  }

  lemma RememberCommit(g: Gen, w: nat, v: nat)
    requires FreshInv(g) && RemembersAll(g) && Enabled(g, CommitChunk(w)) && v in g.windows && v != w
    ensures RemembersWindow(Next(g, CommitChunk(w)), v)
  {
    var g', seen := Next(g, CommitChunk(w)), g.windows[v].seen;
    var r := g'.rows[|g.rows|];
    assert RemembersWindow(g, v) && g'.rows == g.rows + [r];
  }

  lemma RememberOther(g: Gen, a: Action, v: nat)
    requires FreshInv(g) && RemembersAll(g) && Enabled(g, a) && !a.CommitChunk? && v in Next(g, a).windows
    ensures RemembersWindow(Next(g, a), v)
  {
    if v in g.windows {
      assert RemembersWindow(g, v);
    } else {
      assert g.sessions[a.id].id == a.id && SessionTiled(g.sessions[a.id], g.rows);
    }
  }

  lemma RememberStep(g: Gen, a: Action)
    requires FreshInv(g) && RemembersAll(g) && Enabled(g, a)
    ensures RemembersAll(Next(g, a))
  {
    var g' := Next(g, a);
    forall v | v in g'.windows ensures RemembersWindow(g', v) {
      if a.CommitChunk? { RememberCommit(g, a.w, v); } else { RememberOther(g, a, v); }
    }
  }

  lemma {:induction false} FreshRunRemembers(g: Gen, run: seq<Action>)
    requires FreshInv(g) && RemembersAll(g) && CanRun(g, run) && FreshRun(g, run)
    ensures FreshInv(Exec(g, run)) && RemembersAll(Exec(g, run))
    decreases |run|
  {
    if run != [] {
      var g' := Next(g, run[0]);
      FreshStep(g, run[0]);
      RememberStep(g, run[0]);
      FreshRunRemembers(g', run[1..]);
    }
  }

  /** The session's chunks as the commit finds them, and the number that its window remembers. */
  ghost predicate AtCommit(g: Gen, w: nat, id: string, cs: seq<Chunk>, m: nat) {
    && w in g.windows && g.windows[w].Cutting? && id == g.windows[w].chunk.sessionId
    && id in g.sessions && g.sessions[id].lastBilledAt.Some?
    && var win, s := g.windows[w], g.sessions[id];
       && cs == ChunksOf(g.rows, id) && Tiles(cs, s.startAt, s.lastBilledAt.value) && |cs| == s.billingSequence
       && win.seen.billingSequence == m <= |cs|
       && win.chunk.from == Boundary(cs, s.startAt, m) && win.chunk.sequence == m + 1
       && RowMatchesPayload(RowFor(win.chunk, win.made))
  }

  lemma CommitFacts(g: Gen, w: nat) returns (id: string, cs: seq<Chunk>, m: nat)
    requires FreshInv(g) && RemembersAll(g) && Enabled(g, CommitChunk(w))
    ensures AtCommit(g, w, id, cs, m)
    ensures var g' := Next(g, CommitChunk(w));
      && g'.rows == g.rows + [RowFor(g.windows[w].chunk, g.windows[w].made)]
      && id in g'.sessions && g'.sessions[id].lastBilledAt == Some(g.windows[w].chunk.to)
      && g'.sessions[id].startAt == g.sessions[id].startAt
  {
    var win := g.windows[w];
    assert WindowOk(g, win) && RemembersWindow(g, w);
    id, m := win.chunk.sessionId, win.seen.billingSequence;
    cs := ChunksOf(g.rows, id);
    assert g.sessions[id].id == id && SessionTiled(g.sessions[id], g.rows);
  }

  /** In order and named, all of the session's chunks count in full. */
  lemma AllPassed(rows: seq<OutboxRow>, id: string)
    requires Named(rows, id) && Forward(rows, id)
    ensures PassedLength(rows, id) == TotalLength(ChunksOf(rows, id))
    ensures forall i :: 0 <= i < |rows| && rows[i].sessionId == id ==> Passed(rows[i], id) == rows[i].payload.Length()
  {
    PassedAndRefused(rows, id);
    RefusedIsNegative(rows, id);
  }

  /** The row has not moved since the read: no chunk bears the new number yet. */
  lemma RaisedAtNewNumber(g: Gen, w: nat, id: string, cs: seq<Chunk>, m: nat)
    requires FreshInv(g) && AtCommit(g, w, id, cs, m) && m == |cs|
    ensures Longest(g.rows, id, m + 1) == 0
  {
    assert g.sessions[id].id == id;
    NoneAt(g.rows, id, m + 1);
  }

  /** The row has moved: the chunk repeats a number, of which only the longer one counts. */
  lemma RaisedAtOldNumber(g: Gen, w: nat, id: string, cs: seq<Chunk>, m: nat)
    requires FreshInv(g) && AtCommit(g, w, id, cs, m) && m < |cs| && Named(g.rows, id) && Forward(g.rows, id)
    ensures Longest(g.rows, id, m + 1) == Boundary(cs, g.sessions[id].startAt, m + 1) - Boundary(cs, g.sessions[id].startAt, m)
    ensures Boundary(cs, g.sessions[id].startAt, m + 1) <= g.sessions[id].lastBilledAt.value
  {
    var i := ChunksOfAreRows(g.rows, id, m);
    assert RowMatchesPayload(g.rows[i]) && cs[m].sequence == m + 1;
    OnlyRowAt(g.rows, id, i);
    AllPassed(g.rows, id);
    OrderedChunks(g.rows, id);
    BoundariesGrow(cs, g.sessions[id].startAt, g.sessions[id].lastBilledAt.value, m + 1, |cs|);
  }

  lemma PartsAreSound(rows: seq<OutboxRow>, r: OutboxRow, id: string)
    requires Named(rows + [r], id) && Forward(rows + [r], id)
    ensures Named(rows, id) && Forward(rows, id)
  {
    assert forall i :: 0 <= i < |rows| ==> (rows + [r])[i] == rows[i];
  }

  lemma OrderedChunks(rows: seq<OutboxRow>, id: string)
    requires Forward(rows, id)
    ensures Ordered(ChunksOf(rows, id))
  {
    forall k | 0 <= k < |ChunksOf(rows, id)| ensures ChunksOf(rows, id)[k].from <= ChunksOf(rows, id)[k].to {
      var i := ChunksOfAreRows(rows, id, k);
    }
  }

  /**
   The session row has not moved since window w read it; or only by the next number (and empty chunks),
   and it is not billed past the end of the chunk at hand.
   */
  predicate Harmless(g: Gen, w: nat) {
    && w in g.windows && g.windows[w].Cutting? && g.windows[w].chunk.sessionId in g.sessions
    && var win, current := g.windows[w], g.sessions[g.windows[w].chunk.sessionId];
       var cs, m := ChunksOf(g.rows, win.chunk.sessionId), win.seen.billingSequence;
       && (m == current.billingSequence ||
           (&& 0 <= m < |cs| && current.lastBilledAt.Some?
            && Boundary(cs, current.startAt, m + 1) == current.lastBilledAt.value <= win.chunk.to))
  }

  /** The ids of the session's chunks, the new one included, are present and none ends before it starts. */
  predicate Sound(g: Gen, w: nat)
    requires Enabled(g, CommitChunk(w))
  {
    var rows, id := Next(g, CommitChunk(w)).rows, g.windows[w].chunk.sessionId;
    Named(rows, id) && Forward(rows, id)
  }

  lemma FirstStaleCommit(g: Gen, w: nat)
    requires FreshInv(g) && RemembersAll(g) && Enabled(g, CommitChunk(w)) && Sound(g, w)
    ensures var g', id := Next(g, CommitChunk(w)), g.windows[w].chunk.sessionId;
      && id in g'.sessions && g'.sessions[id].lastBilledAt.Some?
      && (LargestCharge(g'.rows, id) <= Billed(g', id) <==> Harmless(g, w))
  {
    var id, cs, m := CommitFacts(g, w);
    var r := RowFor(g.windows[w].chunk, g.windows[w].made);
    CommitRaises(g, w);
    FreshLargestCharge(g, id);
    PartsAreSound(g.rows, r, id);
    AllPassed(g.rows, id);
    AllPassed(g.rows + [r], id);
    assert (g.rows + [r])[|g.rows|] == r;
    TilesTotal(cs, g.sessions[id].startAt, g.sessions[id].lastBilledAt.value);
    if m == |cs| {
      RaisedAtNewNumber(g, w, id, cs, m);
    } else {
      RaisedAtOldNumber(g, w, id, cs, m);
    }
  }

  /**
   For every run without stale commits followed by any commit, in every pipeline run that produces
   these rows: the session can be charged for more than it is then billed exactly when that commit is
   not harmless.
   */
  lemma FirstStaleCommitExactly(now: int, interval: int, run: seq<Action>, w: nat, u: Starvation.Setup)
    requires CanRun(Initial(now, interval), run) && FreshRun(Initial(now, interval), run)
    requires Enabled(Exec(Initial(now, interval), run), CommitChunk(w))
    requires Sound(Exec(Initial(now, interval), run), w)
    requires var g := Exec(Initial(now, interval), run);
      Charging.SessionServable(Next(g, CommitChunk(w)).rows, g.windows[w].chunk.sessionId, u)
    ensures var g := Exec(Initial(now, interval), run);
      var g', id := Next(g, CommitChunk(w)), g.windows[w].chunk.sessionId;
      && id in g'.sessions && g'.sessions[id].lastBilledAt.Some?
      && (Charging.CanCharge(now, interval, g', id, Billed(g', id), u) <==> !Harmless(g, w))
  {
    var g := Exec(Initial(now, interval), run);
    FreshRunRemembers(Initial(now, interval), run);
    CommitOverchargesExactly(now, interval, run, w, u);
    FirstStaleCommit(g, w);
    CommittedSession(g, w);
    CommitRaises(g, w);
  }

  lemma LaterIsMore(cs: seq<Chunk>, start: int, end: int, m: nat)
    requires Tiles(cs, start, end) && m < |cs| && forall k :: 0 <= k < |cs| ==> cs[k].from < cs[k].to
    ensures Boundary(cs, start, m + 1) == end <==> m + 1 == |cs|
  {
    if m + 1 < |cs| {
      assert cs[m + 1].from == Boundary(cs, start, m + 1);
      BoundariesGrow(cs, start, end, m + 2, |cs|);
    }
  }

  lemma PositiveChunks(rows: seq<OutboxRow>, id: string)
    requires forall i :: 0 <= i < |rows| ==> rows[i].payload.from < rows[i].payload.to
    ensures forall k :: 0 <= k < |ChunksOf(rows, id)| ==> ChunksOf(rows, id)[k].from < ChunksOf(rows, id)[k].to
  {
    forall k | 0 <= k < |ChunksOf(rows, id)| ensures ChunksOf(rows, id)[k].from < ChunksOf(rows, id)[k].to {
      var i := ChunksOfAreRows(rows, id, k);
    }
  }

  /** With chunks of positive length, two columns of the session row decide. */
  lemma HarmlessStrictly(g: Gen, w: nat)
    requires FreshInv(g) && RemembersAll(g) && Enabled(g, CommitChunk(w))
    requires forall i :: 0 <= i < |g.rows| ==> g.rows[i].payload.from < g.rows[i].payload.to
    ensures g.windows[w].chunk.sessionId in g.sessions
    ensures var win, current := g.windows[w], g.sessions[g.windows[w].chunk.sessionId];
      Harmless(g, w) <==>
        (current.billingSequence == win.seen.billingSequence ||
         (current.billingSequence == win.seen.billingSequence + 1 && current.lastBilledAt.Some? &&
          current.lastBilledAt.value <= win.chunk.to))
  {
    var id, cs, m := CommitFacts(g, w);
    PositiveChunks(g.rows, id);
    if m < |cs| { LaterIsMore(cs, g.sessions[id].startAt, g.sessions[id].lastBilledAt.value, m); }
  }

  // ---------- Three runs that overcharge ----------

  /** The source's default batch of 500, one worker, no replayer. */
  const DEFAULT_SETUP: Starvation.Setup := Starvation.Setup(500, 1, false)

  lemma FewRowsAreServable(rows: seq<OutboxRow>, id: string)
    requires |rows| < 500
    ensures Charging.SessionServable(rows, id, DEFAULT_SETUP)
  {
    var all := seq(|rows|, j => j);
    Delivery.DistinctCount(all);
    forall i: nat | i < |rows| ensures |Starvation.OlderHopeless(rows, i)| < 500 {
      forall j | j in Starvation.OlderHopeless(rows, i) ensures j in Publishing.ToSet(all) { assert all[j] == j; }
      Delivery.SubsetCount(Starvation.OlderHopeless(rows, i), Publishing.ToSet(all));
    }
  }

  /** What the deployed pipeline charges in some run that produces the rows of this run. */
  lemma SomeRunCharges(now: int, interval: int, run: seq<Action>, g: Gen, id: string, most: nat) returns (whole: seq<Pipeline.Action>)
    requires CanRun(Initial(now, interval), run) && Exec(Initial(now, interval), run) == g && |g.rows| < 500
    requires LargestCharge(g.rows, id) == most
    ensures Deployment.DeployedRun(Pipeline.Start(now, interval), Deployment.BEGINNING, whole, DEFAULT_SETUP)
    ensures Pipeline.CanRun(Pipeline.Start(now, interval), whole)
    ensures var s := Pipeline.Exec(Pipeline.Start(now, interval), whole);
      s.gen == g && LedgerLength(Kept(s.bill.submissions), id) == most
  {
    FewRowsAreServable(g.rows, id);
    whole := Charging.ChargeLongest(now, interval, run, id, DEFAULT_SETUP);
  }

  /** One more row: the largest number and the most that can be charged. */
  lemma OneMoreRow(rows: seq<OutboxRow>, r: OutboxRow, id: string, k: nat)
    ensures LargestSequence(rows + [r], id) ==
      if r.sessionId == id && r.sequence > LargestSequence(rows, id) then r.sequence else LargestSequence(rows, id)
    ensures SumLongest(rows + [r], id, k) == SumLongest(rows, id, k) + if 1 <= r.sequence <= k then Raised(rows, r, id) else 0
    ensures forall n: int :: Longest(rows + [r], id, n) == Max(Longest(rows, id, n), Offered(r, id, n))
  {
    assert (rows + [r])[..|rows|] == rows;
    SumLongestAppend(rows, r, id, k);
  }

  /** What three chunks of session "s", the first two numbers in use, allow at most. */
  lemma ThreeRows(a: OutboxRow, b: OutboxRow, c: OutboxRow)
    requires a.sessionId == b.sessionId == c.sessionId == "s" && a.sequence == 1
    requires 1 <= b.sequence <= 2 && 1 <= c.sequence <= 2 && (b.sequence == 2 || c.sequence == 2)
    ensures LargestSequence([a, b, c], "s") == 2
    ensures LargestCharge([a, b, c], "s") ==
      Passed(a, "s") + Raised([a], b, "s") + Raised([a, b], c, "s")
    ensures forall n: int :: Longest([a], "s", n) == Offered(a, "s", n)
    ensures forall n: int :: Longest([a, b], "s", n) == Max(Offered(a, "s", n), Offered(b, "s", n))
  {
    OneMoreRow([], a, "s", 2);
    OneMoreRow([a], b, "s", 2);
    OneMoreRow([a, b], c, "s", 2);
    NothingLongest("s", 2);
    assert [] + [a] == [a] && [a] + [b] == [a, b] && [a, b] + [c] == [a, b, c];
  }

  const FIRST: Chunk := Chunk("e1", "s", "b", "o", 1, 0, 11)
  const SECOND: Chunk := Chunk("e2", "s", "b", "o", 2, 11, 21)
  const STALE: Chunk := Chunk("e3", "s", "b", "o", 1, 0, 22)

  /** The scanner bills [0, 11) and [11, 21) while a finisher holds on to the row it read at the start. */
  function EarlySteps(): seq<Action> {
    [CreateSession("s", "b", "o", Some(0)), ReadForFinish(2, "s"),
     ReadUnbilled(1, "s"), CutChunk(1, "e1", 11, 20), CommitChunk(1)]
  }

  /** The finisher then bills [0, 22), again as number 1. */
  function LateSteps(): seq<Action> {
    [ReadUnbilled(1, "s"), CutChunk(1, "e2", 21, 21), CommitChunk(1),
     CutChunk(2, "e3", 22, 22), CommitChunk(2)]
  }

  function Seeded(): Session {
    NewSession("s", "b", "o", 0)
  }

  function Held(): map<nat, Window> {
    map[2 := Reading(Finisher, Seeded())]
  }

  /** The session after the scanner's first chunk, with the finisher's window still open. */
  function Midway(): Gen {
    Gen(20, 5, map["s" := Advanced(Seeded(), Scanner, FIRST)], Held(), [RowFor(FIRST, 20)])
  }

  function AllRows(): seq<OutboxRow> {
    [RowFor(FIRST, 20), RowFor(SECOND, 21), RowFor(STALE, 22)]
  }

  function Finished(): Session {
    Advanced(Advanced(Advanced(Seeded(), Scanner, FIRST), Scanner, SECOND), Finisher, STALE)
  }

  lemma EarlyRun()
    ensures CanRun(Initial(10, 5), EarlySteps()) && TimelyRun(Initial(10, 5), EarlySteps(), true)
    ensures Exec(Initial(10, 5), EarlySteps()) == Midway()
  {
  }

  /** After the scanner's second chunk. */
  function Scanned(): Gen {
    var s := Advanced(Advanced(Seeded(), Scanner, FIRST), Scanner, SECOND);
    Gen(21, 5, map["s" := s], Held(), AllRows()[..2])
  }

  lemma LateFinish()
    ensures CanRun(Scanned(), LateSteps()[3..])
    ensures Exec(Scanned(), LateSteps()[3..]) == Gen(22, 5, map["s" := Finished()], map[], AllRows())
  {
    var run := LateSteps();
    var g4 := Scanned().(now := 22, windows := map[2 := Cutting(Finisher, Seeded(), STALE, 22)]);
    Prepend(g4, run[4], [], Gen(22, 5, map["s" := Finished()], map[], AllRows()));
    Prepend(Scanned(), run[3], [run[4]], g4);
    assert run[3..] == [run[3], run[4]];
  }

  lemma LateRun()
    ensures CanRun(Midway(), LateSteps())
    ensures Exec(Midway(), LateSteps()) == Gen(22, 5, map["s" := Finished()], map[], AllRows())
  {
    var run, rest := LateSteps(), LateSteps()[3..];
    var s1 := Advanced(Seeded(), Scanner, FIRST);
    var g1 := Midway().(windows := Held()[1 := Reading(Scanner, s1)]);
    var g2 := Midway().(now := 21, windows := Held()[1 := Cutting(Scanner, s1, SECOND, 21)]);
    assert Held()[1 := Cutting(Scanner, s1, SECOND, 21)] - {1} == Held();
    LateFinish();
    Prepend(g2, run[2], rest, Scanned());
    Prepend(g1, run[1], [run[2]] + rest, g2);
    Prepend(Midway(), run[0], [run[1]] + ([run[2]] + rest), g1);
    assert run == [run[0]] + ([run[1]] + ([run[2]] + rest));
  }

  function StaleRun(): seq<Action> {
    EarlySteps() + LateSteps()
  }

  /** The scanner bills [0, 20), the clock steps back, the finisher bills [20, 5). */
  function StepBackRun(): seq<Action> {
    [CreateSession("s", "b", "o", Some(0))] +
    (ChunkRun(Scanner, "s", "e1", 20, 20) + ChunkRun(Finisher, "s", "e2", 5, 5))
  }

  function BilledOnce(): Gen {
    AfterChunk(Gen(20, 5, map["s" := Seeded()], map[], []), Scanner, "s", "e1", 20, 20)
  }

  function SteppedBack(): Gen {
    AfterChunk(BilledOnce(), Finisher, "s", "e2", 5, 5)
  }

  lemma StepBack()
    ensures SerialRun(Initial(20, 5), StepBackRun()) && CanRun(Initial(20, 5), StepBackRun())
    ensures Exec(Initial(20, 5), StepBackRun()) == SteppedBack()
  {
    var seeded := Gen(20, 5, map["s" := Seeded()], map[], []);
    var scan, finish := ChunkRun(Scanner, "s", "e1", 20, 20), ChunkRun(Finisher, "s", "e2", 5, 5);
    ChunkRunSerial(seeded, Scanner, "s", "e1", 20, 20);
    ChunkRunSerial(BilledOnce(), Finisher, "s", "e2", 5, 5);
    SerialRunsCompose(seeded, scan, finish);
    SerialPrepend(Initial(20, 5), CreateSession("s", "b", "o", Some(0)), scan + finish, seeded);
  }

  lemma StaleMost()
    ensures LargestCharge(AllRows(), "s") == 32
  {
    ThreeRows(RowFor(FIRST, 20), RowFor(SECOND, 21), RowFor(STALE, 22));
  }

  /** A session that lasted 22 ticks and was billed up to 22 is charged 32, in a run of the deployed pipeline. */
  lemma StaleCommitOvercharges() returns (run: seq<Pipeline.Action>)
    ensures Deployment.DeployedRun(Pipeline.Start(10, 5), Deployment.BEGINNING, run, DEFAULT_SETUP)
    ensures Pipeline.CanRun(Pipeline.Start(10, 5), run)
    ensures var s := Pipeline.Exec(Pipeline.Start(10, 5), run);
      && "s" in s.gen.sessions
      && s.gen.sessions["s"].startAt == 0
      && s.gen.sessions["s"].lastBilledAt == Some(22) && s.gen.sessions["s"].endAt == Some(22)
      && LedgerLength(Kept(s.bill.submissions), "s") == 32
  {
    EarlyRun();
    LateRun();
    RunsCompose(Initial(10, 5), EarlySteps(), LateSteps());
    StaleMost();
    run := SomeRunCharges(10, 5, StaleRun(), Gen(22, 5, map["s" := Finished()], map[], AllRows()), "s", 32);
  }

  lemma StepBackMost()
    ensures |SteppedBack().rows| == 2 && LargestCharge(SteppedBack().rows, "s") == 20
  {
    var a, b := BilledOnce().rows[0], SteppedBack().rows[1];
    OneMoreRow([], a, "s", 2);
    OneMoreRow([a], b, "s", 2);
    NothingLongest("s", 2);
    assert [] + [a] == [a] && SteppedBack().rows == [a] + [b];
  }

  /** Serialised, but with a clock that steps back: 20 ticks are charged, last_billed_at - start_at is 5. */
  lemma StepBackOvercharges() returns (run: seq<Pipeline.Action>)
    ensures SerialRun(Initial(20, 5), StepBackRun()) && CanRun(Initial(20, 5), StepBackRun())
    ensures Deployment.DeployedRun(Pipeline.Start(20, 5), Deployment.BEGINNING, run, DEFAULT_SETUP)
    ensures Pipeline.CanRun(Pipeline.Start(20, 5), run)
    ensures var s := Pipeline.Exec(Pipeline.Start(20, 5), run);
      && s.gen == Exec(Initial(20, 5), StepBackRun()) && "s" in s.gen.sessions
      && s.gen.sessions["s"].startAt == 0 && s.gen.sessions["s"].lastBilledAt == Some(5)
      && LedgerLength(Kept(s.bill.submissions), "s") == 20
  {
    StepBack();
    StepBackMost();
    run := SomeRunCharges(20, 5, StepBackRun(), SteppedBack(), "s", 20);
  }

  // ---------- After a stale commit that does no harm ----------

  const REPEAT: Chunk := Chunk("e2", "s", "b", "o", 1, 0, 22)
  const THIRD: Chunk := Chunk("e3", "s", "b", "o", 2, 11, 24)

  /** After the early steps: another scanner reads, the finisher bills [0, 22) again as number 1, the scanner [11, 24). */
  function HarmlessSteps(): seq<Action> {
    [ReadUnbilled(3, "s"), CutChunk(2, "e2", 22, 22), CommitChunk(2), CutChunk(3, "e3", 24, 24), CommitChunk(3)]
  }

  function Scanning(): Window {
    Reading(Scanner, Advanced(Seeded(), Scanner, FIRST))
  }

  function BeforeRepeat(): Gen {
    Midway().(now := 22, windows := map[2 := Cutting(Finisher, Seeded(), REPEAT, 22), 3 := Scanning()])
  }

  function BeforeThird(): Gen {
    Gen(24, 5, map["s" := Advanced(Advanced(Seeded(), Scanner, FIRST), Finisher, REPEAT)],
        map[3 := Cutting(Scanner, Advanced(Seeded(), Scanner, FIRST), THIRD, 24)], [RowFor(FIRST, 20), RowFor(REPEAT, 22)])
  }

  function AfterThird(): Gen {
    Gen(24, 5, map["s" := Advanced(Advanced(Advanced(Seeded(), Scanner, FIRST), Finisher, REPEAT), Scanner, THIRD)],
        map[], [RowFor(FIRST, 20), RowFor(REPEAT, 22), RowFor(THIRD, 24)])
  }

  function AfterRepeat(): Gen {
    BeforeThird().(now := 22, windows := map[3 := Scanning()])
  }

  lemma LastSteps()
    ensures CanRun(AfterRepeat(), HarmlessSteps()[3..]) && Exec(AfterRepeat(), HarmlessSteps()[3..]) == AfterThird()
    ensures TimelyRun(AfterRepeat(), HarmlessSteps()[3..], true)
  {
    var run := HarmlessSteps();
    assert BeforeThird().windows - {3} == map[];
    TimelyPrepend(BeforeThird(), run[4], [], AfterThird(), true);
    TimelyPrepend(AfterRepeat(), run[3], [run[4]], BeforeThird(), true);
    assert run[3..] == [run[3]] + [run[4]];
  }

  lemma HarmlessRun()
    ensures CanRun(Midway(), HarmlessSteps()) && Exec(Midway(), HarmlessSteps()) == AfterThird()
    ensures TimelyRun(Midway(), HarmlessSteps(), true)
  {
    var run, rest := HarmlessSteps(), HarmlessSteps()[3..];
    var g1 := Midway().(windows := Held()[3 := Scanning()]);
    assert map[2 := Cutting(Finisher, Seeded(), REPEAT, 22), 3 := Scanning()] - {2} == map[3 := Scanning()];
    LastSteps();
    TimelyPrepend(BeforeRepeat(), run[2], rest, AfterRepeat(), true);
    TimelyPrepend(g1, run[1], [run[2]] + rest, BeforeRepeat(), true);
    TimelyPrepend(Midway(), run[0], [run[1]] + ([run[2]] + rest), g1, true);
    assert run == [run[0]] + ([run[1]] + ([run[2]] + rest));
  }

  lemma HarmlessMost()
    ensures LargestCharge(AfterThird().rows, "s") == 35
  {
    ThreeRows(RowFor(FIRST, 20), RowFor(REPEAT, 22), RowFor(THIRD, 24));
  }

  /**
   With a clock that advances before every cut and every commit harmless, the second of them stale: the
   session is billed 24 and charged 35. The two columns only guard against the first stale commit.
   */
  lemma HarmlessIsNotEnough() returns (run: seq<Pipeline.Action>)
    ensures var steps := EarlySteps() + HarmlessSteps();
      CanRun(Initial(10, 5), steps) && TimelyRun(Initial(10, 5), steps, true) && Exec(Initial(10, 5), steps) == AfterThird()
    ensures Harmless(BeforeRepeat(), 2) && !CommitIsFresh(BeforeRepeat(), 2) && Harmless(BeforeThird(), 3)
    ensures Deployment.DeployedRun(Pipeline.Start(10, 5), Deployment.BEGINNING, run, DEFAULT_SETUP)
    ensures Pipeline.CanRun(Pipeline.Start(10, 5), run)
    ensures var s := Pipeline.Exec(Pipeline.Start(10, 5), run);
      && s.gen == AfterThird() && Billed(s.gen, "s") == 24
      && LedgerLength(Kept(s.bill.submissions), "s") == 35
  {
    EarlyRun();
    HarmlessRun();
    RunsCompose(Initial(10, 5), EarlySteps(), HarmlessSteps());
    TimelyRunsCompose(Initial(10, 5), EarlySteps(), HarmlessSteps(), true);
    HarmlessMost();
    run := SomeRunCharges(10, 5, EarlySteps() + HarmlessSteps(), AfterThird(), "s", 35);
  }
}
