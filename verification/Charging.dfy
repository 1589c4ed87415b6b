/**
 The most that the deployed pipeline can charge a session: of each sequence number the longest chunk
 that passes the publisher's gate, no more in any run and that much in some.
 */
module Charging {
  import opened Model
  import opened Pipeline
  import opened Ledger
  import opened Ceiling
  import opened Starvation
  import opened Serving
  import opened Deployment
  import opened Completion
  import Gen = Generation
  import Pub = Publishing
  import Bill = Billing
  import TransactionId

  /** In every run of the pipeline, stale commits, any clock and any deployment included. */
  lemma ChargedAtMost(now: int, interval: int, run: seq<Action>, id: string)
    requires CanRun(Start(now, interval), run)
    ensures var s := Exec(Start(now, interval), run);
      LedgerLength(Kept(s.bill.submissions), id) <= LargestCharge(s.gen.rows, id)
  {
    Reached(now, interval, run);
    var s := Exec(Start(now, interval), run);
    RowsAreNumbered(s.gen, id);
    forall n | 0 <= n < |s.bill.submissions| ensures FromRow(s.gen.rows, s.bill.submissions[n].usage) {
      SubmissionHasRow(s, n);
    }
    AtMostLongest(s.gen.rows, s.bill.submissions, id, Gen.LargestSequence(s.gen.rows, id));
  }

  /** Fewer hopeless rows are older than any valid row of the session than the workers can hold. */
  predicate SessionServable(rows: seq<OutboxRow>, id: string, u: Setup) {
    forall i :: 0 <= i < |rows| && rows[i].sessionId == id && IsValid(rows, i) ==> Servable(rows, i, u)
  }

  predicate IsLongestRow(rows: seq<OutboxRow>, id: string, i: nat) {
    i < |rows| && IsChunkAt(rows[i], id, rows[i].sequence) && rows[i].payload.Length() == Longest(rows, id, rows[i].sequence)
  }

  function LongestEvents(rows: seq<OutboxRow>, id: string): set<string> {
    set i | 0 <= i < |rows| && IsLongestRow(rows, id, i) :: rows[i].eventId
  }

  lemma ChosenAreLongest(s: State, m: nat, id: string)
    requires Inv(s) && m < |s.bill.submissions| && ForChosen(s.bill, m, LongestEvents(s.gen.rows, id))
    ensures var usage := s.bill.submissions[m].usage;
      usage.sessionId == id ==> usage.Length() == Longest(s.gen.rows, id, usage.sequence)
  {
    var c: ChunkMessage :| IsFor(s.bill, m, c) && c.eventId in LongestEvents(s.gen.rows, id);
    var j := SubmittedRow(s, m);
    var i :| 0 <= i < |s.gen.rows| && IsLongestRow(s.gen.rows, id, i) && s.gen.rows[i].eventId == c.eventId;
    assert RowMatchesPayload(s.gen.rows[j]) && i == j;
  }

  lemma LongestAreHeard(s: State, s': State, id: string, n: nat, u: Setup)
    requires Inv(s') && s'.gen == s.gen && s.pub == Pub.IDLE && SessionServable(s.gen.rows, id, u)
    requires ChargesChosen(s, BEGINNING, s', LongestEvents(s.gen.rows, id), u) && Longest(s.gen.rows, id, n) > 0
    ensures Known(s'.bill.submissions, TransactionId.Make(id, n))
  {
    var i := LongestRow(s.gen.rows, id, n);
    assert IsLongestRow(s.gen.rows, id, i) && Pending(s, BEGINNING, i, u);
    HeardIsCharged(s', i);
    assert RowMatchesPayload(s.gen.rows[i]);
  }

  /** The deployed pipeline can charge the session the longest valid chunk of each number. */
  lemma ChargeLongest(now: int, interval: int, run: seq<Gen.Action>, id: string, u: Setup) returns (whole: seq<Action>)
    requires Gen.CanRun(Gen.Initial(now, interval), run)
    requires SessionServable(Gen.Exec(Gen.Initial(now, interval), run).rows, id, u)
    ensures DeployedRun(Start(now, interval), BEGINNING, whole, u) && CanRun(Start(now, interval), whole)
    ensures var s := Exec(Start(now, interval), whole);
      && s.gen == Gen.Exec(Gen.Initial(now, interval), run)
      && LedgerLength(Kept(s.bill.submissions), id) == LargestCharge(s.gen.rows, id)
  {
    var g := Gen.Exec(Gen.Initial(now, interval), run);
    var s0, s := Start(now, interval), Start(now, interval).(gen := g);
    StartIsOrderly(now, interval);
    ProducerGets(s0, BEGINNING, run, u);
    GetsKeepsInv(s0, BEGINNING, Produced(run), s, BEGINNING, u);
    var charging, s', v' := ChargeChosen(s, BEGINNING, LongestEvents(g.rows, id), u);
    GetsOn(s0, BEGINNING, Produced(run), s, BEGINNING, charging, s', v', u);
    whole := Produced(run) + charging;
    GetsKeepsInv(s0, BEGINNING, whole, s', v', u);
    RowsAreNumbered(g, id);
    LongestCharged(s, s', id, Gen.LargestSequence(g.rows, id), u);
  }

  lemma LongestCharged(s: State, s': State, id: string, k: nat, u: Setup)
    requires Inv(s') && s'.gen == s.gen && s.pub == Pub.IDLE && s.bill == Bill.UNBILLED
    requires SessionServable(s.gen.rows, id, u) && NumberedTo(s.gen.rows, id, k)
    requires ChargesChosen(s, BEGINNING, s', LongestEvents(s.gen.rows, id), u)
    ensures LedgerLength(Kept(s'.bill.submissions), id) == SumLongest(s.gen.rows, id, k)
  {
    var rows, subs := s.gen.rows, s'.bill.submissions;
    forall m: nat | m < |subs| && subs[m].usage.sessionId == id
      ensures subs[m].usage.Length() == Longest(rows, id, subs[m].usage.sequence)
    {
      ChosenAreLongest(s', m, id);
    }
    forall n: nat | 1 <= n <= k && Longest(rows, id, n) > 0 ensures Known(subs, TransactionId.Make(id, n)) {
      LongestAreHeard(s, s', id, n, u);
    }
    forall n | 0 <= n < |subs| ensures FromRow(rows, subs[n].usage) { SubmissionHasRow(s', n); }
    LongestIsCharged(rows, subs, id, k);
  }

  /** Some run of the deployed pipeline ends with these sessions and rows, and charges the session more than x. */
  ghost predicate CanCharge(now: int, interval: int, g: Gen.Gen, id: string, x: int, u: Setup) {
    exists run :: ChargesMore(now, interval, run, g, id, x, u)
  }

  ghost predicate ChargesMore(now: int, interval: int, run: seq<Action>, g: Gen.Gen, id: string, x: int, u: Setup) {
    && DeployedRun(Start(now, interval), BEGINNING, run, u) && CanRun(Start(now, interval), run)
    && Exec(Start(now, interval), run).gen == g
    && x < LedgerLength(Kept(Exec(Start(now, interval), run).bill.submissions), id)
  }

  /**
   For every run of the usage service, stale commits and any clock included: the deployed pipeline can
   charge a session more than x exactly when the longest valid chunks of its numbers add up to more.
   */
  lemma CanChargeExactly(now: int, interval: int, run: seq<Gen.Action>, id: string, x: int, u: Setup)
    requires Gen.CanRun(Gen.Initial(now, interval), run)
    requires SessionServable(Gen.Exec(Gen.Initial(now, interval), run).rows, id, u)
    ensures var g := Gen.Exec(Gen.Initial(now, interval), run);
      CanCharge(now, interval, g, id, x, u) <==> x < LargestCharge(g.rows, id)
  {
    var g := Gen.Exec(Gen.Initial(now, interval), run);
    forall whole | ChargesMore(now, interval, whole, g, id, x, u) ensures x < LargestCharge(g.rows, id) {
      ChargedAtMost(now, interval, whole, id);
    }
    if x < LargestCharge(g.rows, id) {
      var whole := ChargeLongest(now, interval, run, id, u);
      assert ChargesMore(now, interval, whole, g, id, x, u);
    }
  }
}
