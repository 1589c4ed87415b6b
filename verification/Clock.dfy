/**
 What the clock adds. A timely run never reads the clock backwards and seeds sessions with a start
 that has passed; a strict one also sees the clock move before every cut.
 */
module Clock {
  import opened Model
  import opened Generation
  import opened Tiling

  predicate Timely(g: Gen, a: Action, strict: bool) {
    match a
    case CreateSession(id, sandboxId, _, startAt) =>
      id != "" && sandboxId != "" && (startAt.Some? ==> startAt.value <= g.now)
    case AdvanceClock(t) => g.now <= t
    case CutChunk(_, eventId, t, made) =>
      eventId != "" && g.now <= t <= made && (strict ==> g.now < t)
    case _ => true
  }

  predicate TimelyRun(g: Gen, run: seq<Action>, strict: bool)
    decreases |run|
  {
    run == [] || (Enabled(g, run[0]) && Timely(g, run[0], strict) && TimelyRun(Next(g, run[0]), run[1..], strict))
  }

  /** No overlapping windows, no clock running backwards. */
  ghost predicate ServiceRun(g: Gen, run: seq<Action>) {
    SerialRun(g, run) && TimelyRun(g, run, false)
  }

  lemma {:induction false} TimelyRunsCompose(g: Gen, first: seq<Action>, second: seq<Action>, strict: bool)
    requires TimelyRun(g, first, strict) && CanRun(g, first) && TimelyRun(Exec(g, first), second, strict)
    ensures TimelyRun(g, first + second, strict)
    decreases |first|
  {
    if first == [] {
      assert first + second == second;
    } else {
      SplitFirst(first, second);
      TimelyRunsCompose(Next(g, first[0]), first[1..], second, strict);
    }
  }

  lemma TimelyPrepend(g: Gen, a: Action, rest: seq<Action>, g': Gen, strict: bool)
    requires Enabled(g, a) && Timely(g, a, strict) && Next(g, a) == g' && TimelyRun(g', rest, strict) && CanRun(g', rest)
    ensures TimelyRun(g, [a] + rest, strict) && CanRun(g, [a] + rest) && Exec(g, [a] + rest) == Exec(g', rest)
  {
    assert ([a] + rest)[1..] == rest;
  }

  lemma ServiceRunsCompose(g: Gen, first: seq<Action>, second: seq<Action>)
    requires ServiceRun(g, first) && CanRun(g, first) && ServiceRun(Exec(g, first), second)
    ensures ServiceRun(g, first + second) && CanRun(g, first + second)
    ensures CanRun(Exec(g, first), second)
    ensures Exec(g, first + second) == Exec(Exec(g, first), second)
  {
    SerialRunIsRun(Exec(g, first), second);
    SerialRunsCompose(g, first, second);
    TimelyRunsCompose(g, first, second, false);
  }

  /** A run without overlaps and with a clock that does not run backwards leads from g to g'. */
  ghost predicate Performs(g: Gen, run: seq<Action>, g': Gen) {
    ServiceRun(g, run) && CanRun(g, run) && Exec(g, run) == g'
  }

  lemma PerformsOn(g: Gen, first: seq<Action>, g1: Gen, second: seq<Action>, g2: Gen)
    requires Performs(g, first, g1) && Performs(g1, second, g2)
    ensures Performs(g, first + second, g2)
  {
    ServiceRunsCompose(g, first, second);
  }

  lemma ServicePrepend(g: Gen, a: Action, rest: seq<Action>)
    requires Enabled(g, a) && Serialised(g, a) && Timely(g, a, false)
    requires ServiceRun(Next(g, a), rest) && CanRun(Next(g, a), rest)
    ensures ServiceRun(g, [a] + rest) && CanRun(g, [a] + rest)
    ensures Exec(g, [a] + rest) == Exec(Next(g, a), rest)
  {
  }

  predicate SessionTimely(g: Gen, s: Session) {
    && s.lastBilledAt.Some? && s.startAt <= s.lastBilledAt.value <= g.now
    && s.id != "" && s.sandboxId != ""
  }

  predicate ChunkTimely(g: Gen, c: Chunk, strict: bool) {
    && c.from <= c.to <= g.now
    && (strict ==> c.from < c.to)
    && c.eventId != "" && c.sessionId != "" && c.sandboxId != ""
  }

  /** The scanner only reads rows billed before its cutoff, so its chunks are never empty. */
  predicate WindowTimely(g: Gen, win: Window, strict: bool) {
    && SessionTimely(g, win.seen)
    && (win.producer == Scanner ==> win.seen.lastBilledAt.value < g.now)
    && (win.Cutting? ==>
          && ChunkTimely(g, win.chunk, strict)
          && win.chunk.from == win.seen.lastBilledAt.value
          && (win.producer == Scanner ==> win.chunk.from < win.chunk.to))
  }

  ghost predicate RowsTimely(g: Gen, strict: bool) {
    forall i :: 0 <= i < |g.rows| ==>
      && ChunkTimely(g, g.rows[i].payload, strict)
      && g.rows[i].sessionId in g.sessions
      && g.sessions[g.rows[i].sessionId].startAt <= g.rows[i].payload.from
  }

  ghost predicate TimelyInv(g: Gen, strict: bool) {
    && Inv(g)
    && 0 <= g.interval
    && (forall id :: id in g.sessions ==> SessionTimely(g, g.sessions[id]))
    && (forall w :: w in g.windows ==> WindowTimely(g, g.windows[w], strict))
    && RowsTimely(g, strict)
  }

  lemma WindowStaysTimely(g: Gen, a: Action, strict: bool, v: nat)
    requires TimelyInv(g, strict) && Enabled(g, a) && Timely(g, a, strict) && v in Next(g, a).windows
    ensures WindowTimely(Next(g, a), Next(g, a).windows[v], strict)
  {
    if v in g.windows {
      assert WindowTimely(g, g.windows[v], strict) && WindowOk(g, g.windows[v]);
    }
  }

  lemma RowsStayTimely(g: Gen, a: Action, strict: bool)
    requires TimelyInv(g, strict) && Enabled(g, a) && Timely(g, a, strict)
    ensures RowsTimely(Next(g, a), strict)
  {
    if a.CommitChunk? {
      assert WindowTimely(g, g.windows[a.w], strict) && WindowOk(g, g.windows[a.w]);
    }
  }

  lemma SessionStaysTimely(g: Gen, a: Action, strict: bool, id: string)
    requires TimelyInv(g, strict) && Enabled(g, a) && Timely(g, a, strict) && id in Next(g, a).sessions
    ensures SessionTimely(Next(g, a), Next(g, a).sessions[id])
  {
    if a.CommitChunk? {
      assert WindowTimely(g, g.windows[a.w], strict) && WindowOk(g, g.windows[a.w]);
    }
  }

  lemma TimelyStep(g: Gen, a: Action, strict: bool)
    requires TimelyInv(g, strict) && Enabled(g, a) && Timely(g, a, strict)
    ensures TimelyInv(Next(g, a), strict)
  {
    var g' := Next(g, a);
    forall v | v in g'.windows ensures WindowTimely(g', g'.windows[v], strict) {
      WindowStaysTimely(g, a, strict, v);
    }
    forall id | id in g'.sessions ensures SessionTimely(g', g'.sessions[id]) {
      SessionStaysTimely(g, a, strict, id);
    }
    RowsStayTimely(g, a, strict);
    StepKeepsInv(g, a);
  }

  lemma {:induction false} TimelyRunKeeps(g: Gen, run: seq<Action>, strict: bool)
    requires TimelyInv(g, strict) && TimelyRun(g, run, strict)
    ensures CanRun(g, run) && TimelyInv(Exec(g, run), strict)
    decreases |run|
  {
    if run != [] {
      TimelyStep(g, run[0], strict);
      TimelyRunKeeps(Next(g, run[0]), run[1..], strict);
    }
  }

  /** Strictly advancing clock: every chunk either producer commits passes the publisher's gate. */
  lemma CommittedChunksArePublishable(now: int, interval: nat, run: seq<Action>)
    requires TimelyRun(Initial(now, interval), run, true)
    ensures CanRun(Initial(now, interval), run)
    ensures var g := Exec(Initial(now, interval), run);
      forall i :: 0 <= i < |g.rows| ==> Publishable(ToMessage(g.rows[i].payload))
  {
    InitialInv(now, interval);
    TimelyRunKeeps(Initial(now, interval), run, true);
  }

  /**
   A clock that may stand still: an interval never runs backwards and never precedes the start, the
   scanner's chunks always pass the gate, and the finisher's fail it exactly when the clock still
   shows the last_billed_at that the finisher read.
   */
  lemma PublishableExactly(now: int, interval: nat, run: seq<Action>, w: nat)
    requires TimelyRun(Initial(now, interval), run, false)
    ensures CanRun(Initial(now, interval), run)
    ensures var g := Exec(Initial(now, interval), run);
      w in g.windows && g.windows[w].Cutting? ==>
        var win := g.windows[w];
        && win.seen.lastBilledAt.Some?
        && win.seen.startAt <= win.chunk.from == win.seen.lastBilledAt.value <= win.chunk.to
        && (Publishable(ToMessage(win.chunk)) <==>
              win.producer == Scanner || win.chunk.to != win.seen.lastBilledAt.value)
  {
    InitialInv(now, interval);
    TimelyRunKeeps(Initial(now, interval), run, false);
    var g := Exec(Initial(now, interval), run);
    if w in g.windows { assert WindowTimely(g, g.windows[w], false); }
  }

  /** A session finished in the very tick it was created in. */
  function StandingClockRun(): seq<Action> {
    [CreateSession("s", "b", "o", None), ReadForFinish(1, "s"), CutChunk(1, "e", 10, 10), CommitChunk(1)]
  }

  /** Timely, but not strictly: the finisher commits an empty chunk that the publisher's gate refuses. */
  lemma StandingClockCommitsEmpty()
    ensures TimelyRun(Initial(10, 5), StandingClockRun(), false) && CanRun(Initial(10, 5), StandingClockRun())
    ensures var rows := Exec(Initial(10, 5), StandingClockRun()).rows;
      rows == [RowFor(Chunk("e", "s", "b", "o", 1, 10, 10), 10)] && !Publishable(ToMessage(rows[0].payload))
  {
  }

  /** The scanner never reads a row that has an end: its "bill until endAt" branch is not taken. */
  lemma ScannerNeverSeesAnEnd(now: int, interval: int, run: seq<Action>, w: nat)
    requires CanRun(Initial(now, interval), run)
    ensures var g := Exec(Initial(now, interval), run);
      w in g.windows && g.windows[w].producer == Scanner ==> g.windows[w].seen.endAt == None
  {
    InitialInv(now, interval);
    RunKeepsInv(Initial(now, interval), run);
    var g := Exec(Initial(now, interval), run);
    if w in g.windows { assert WindowOk(g, g.windows[w]); }
  }

  // ---------- Each instant is billed once ----------

  ghost predicate Ordered(cs: seq<Chunk>) {
    forall k :: 0 <= k < |cs| ==> cs[k].from <= cs[k].to
  }

  lemma {:induction false} BoundariesGrow(cs: seq<Chunk>, start: int, end: int, i: nat, j: nat)
    requires Tiles(cs, start, end) && Ordered(cs) && i <= j <= |cs|
    ensures Boundary(cs, start, i) <= Boundary(cs, start, j)
    decreases j
  {
    if i < j {
      BoundariesGrow(cs, start, end, i, j - 1);
      assert cs[j - 1].from == Boundary(cs, start, j - 1);
    }
  }

  lemma {:induction false} SomeChunkHolds(cs: seq<Chunk>, start: int, end: int, t: int, n: nat) returns (k: nat)
    requires Tiles(cs, start, end) && n <= |cs| && start <= t < Boundary(cs, start, n)
    ensures k < n && cs[k].from <= t < cs[k].to
  {
    if Boundary(cs, start, n - 1) <= t {
      k := n - 1;
    } else {
      k := SomeChunkHolds(cs, start, end, t, n - 1);
    }
  }

  lemma OnlyOneChunkHolds(cs: seq<Chunk>, start: int, end: int, t: int, i: nat, j: nat)
    requires Tiles(cs, start, end) && Ordered(cs) && i < j < |cs|
    ensures !(cs[i].from <= t < cs[i].to && cs[j].from <= t < cs[j].to)
  {
    BoundariesGrow(cs, start, end, i + 1, j);
    assert cs[j].from == Boundary(cs, start, j);
  }

  lemma {:induction false} ChunksOfAreRows(rows: seq<OutboxRow>, id: string, k: nat) returns (i: nat)
    requires k < |ChunksOf(rows, id)|
    ensures i < |rows| && rows[i].sessionId == id && rows[i].payload == ChunksOf(rows, id)[k]
  {
    var front := rows[..|rows| - 1];
    if k < |ChunksOf(front, id)| {
      i := ChunksOfAreRows(front, id, k);
    } else {
      i := |rows| - 1;
    }
  }

  /** Serialised and timely: each instant of [start_at, last_billed_at) lies in exactly one chunk. */
  lemma EachInstantBilledOnce(now: int, interval: nat, run: seq<Action>, id: string, t: int)
    requires SerialRun(Initial(now, interval), run) && TimelyRun(Initial(now, interval), run, false)
    ensures CanRun(Initial(now, interval), run)
    ensures var g := Exec(Initial(now, interval), run);
      id in g.sessions && g.sessions[id].lastBilledAt.Some? &&
      g.sessions[id].startAt <= t < g.sessions[id].lastBilledAt.value ==>
        var cs := ChunksOf(g.rows, id);
        && (exists k :: 0 <= k < |cs| && cs[k].from <= t < cs[k].to)
        && (forall i, j :: 0 <= i < j < |cs| ==> !(cs[i].from <= t < cs[i].to && cs[j].from <= t < cs[j].to))
  {
    InitialInv(now, interval);
    SerialRunKeeps(now, interval, run);
    TimelyRunKeeps(Initial(now, interval), run, false);
    var g := Exec(Initial(now, interval), run);
    if id in g.sessions && g.sessions[id].lastBilledAt.Some? && g.sessions[id].startAt <= t < g.sessions[id].lastBilledAt.value {
      var s, cs := g.sessions[id], ChunksOf(g.rows, id);
      assert s.id == id && SessionTiled(s, g.rows);
      forall k | 0 <= k < |cs| ensures cs[k].from <= cs[k].to {
        var i := ChunksOfAreRows(g.rows, id, k);
      }
      var k := SomeChunkHolds(cs, s.startAt, s.lastBilledAt.value, t, |cs|);
      forall i, j | 0 <= i < j < |cs| ensures !(cs[i].from <= t < cs[i].to && cs[j].from <= t < cs[j].to) {
        OnlyOneChunkHolds(cs, s.startAt, s.lastBilledAt.value, t, i, j);
      }
    }
  }
}
