/**
 The three services running side by side, interleaved step by step, and what their runs add up to.
 Safety over arbitrary runs comes first; the atomic ledger they refine needs commits that are not
 stale, which serialised sessions guarantee.
 */
module Pipeline {
  import opened Model
  import opened Ledger
  import Gen = Generation
  import Pub = Publishing
  import Bill = Billing
  import Clock
  import Tiling
  import Delivery
  import TransactionId

  datatype State = State(gen: Gen.Gen, pub: Pub.Pub, bill: Bill.Bill)

  datatype Action = Produce(g: Gen.Action) | Publish(p: Pub.Action) | Charge(b: Bill.Action)

  function Start(now: int, interval: int): State {
    State(Gen.Initial(now, interval), Pub.IDLE, Bill.UNBILLED)
  }

  predicate Enabled(s: State, a: Action) {
    match a
    case Produce(g) => Gen.Enabled(s.gen, g)
    case Publish(p) => Pub.Enabled(s.gen.rows, s.pub, p)
    case Charge(b) => Bill.Enabled(s.pub.topic, s.bill, b)
  }

  function Next(s: State, a: Action): State
    requires Enabled(s, a)
  {
    match a
    case Produce(g) => s.(gen := Gen.Next(s.gen, g))
    case Publish(p) => s.(pub := Pub.Next(s.gen.rows, s.pub, p))
    case Charge(b) => s.(bill := Bill.Next(s.pub.topic, s.bill, b))
  }

  predicate CanRun(s: State, run: seq<Action>)
    decreases |run|
  {
    run == [] || (Enabled(s, run[0]) && CanRun(Next(s, run[0]), run[1..]))
  }

  function Exec(s: State, run: seq<Action>): State
    requires CanRun(s, run)
    decreases |run|
  {
    if run == [] then s else Exec(Next(s, run[0]), run[1..])
  }

  // ---------- Runs of one service are runs of the pipeline ----------

  function Produced(run: seq<Gen.Action>): seq<Action> {
    if run == [] then [] else [Produce(run[0])] + Produced(run[1..])
  }

  function Published(run: seq<Pub.Action>): seq<Action> {
    if run == [] then [] else [Publish(run[0])] + Published(run[1..])
  }

  function Charged(run: seq<Bill.Action>): seq<Action> {
    if run == [] then [] else [Charge(run[0])] + Charged(run[1..])
  }

  lemma Prepend(s: State, a: Action, rest: seq<Action>, s': State)
    requires Enabled(s, a) && Next(s, a) == s' && CanRun(s', rest)
    ensures CanRun(s, [a] + rest) && Exec(s, [a] + rest) == Exec(s', rest)
  {
  }

  lemma {:induction false} ProducedRuns(s: State, run: seq<Gen.Action>)
    requires Gen.CanRun(s.gen, run)
    ensures CanRun(s, Produced(run)) && Exec(s, Produced(run)) == s.(gen := Gen.Exec(s.gen, run))
    decreases |run|
  {
    if run != [] {
      var s' := Next(s, Produce(run[0]));
      ProducedRuns(s', run[1..]);
      Prepend(s, Produce(run[0]), Produced(run[1..]), s');
    }
  }

  lemma {:induction false} ChargedRuns(s: State, run: seq<Bill.Action>)
    requires Bill.CanRun(s.pub.topic, s.bill, run)
    ensures CanRun(s, Charged(run))
    ensures Exec(s, Charged(run)) == s.(bill := Bill.Exec(s.pub.topic, s.bill, run))
    decreases |run|
  {
    if run != [] {
      var s' := Next(s, Charge(run[0]));
      ChargedRuns(s', run[1..]);
      Prepend(s, Charge(run[0]), Charged(run[1..]), s');
    }
  }

  /** What the usage service does in a run of the pipeline. */
  function GenOf(run: seq<Action>): seq<Gen.Action> {
    if run == [] then []
    else if run[0].Produce? then [run[0].g] + GenOf(run[1..])
    else GenOf(run[1..])
  }

  lemma {:induction false} ProducedBy(s: State, run: seq<Action>)
    requires CanRun(s, run)
    ensures Gen.CanRun(s.gen, GenOf(run)) && Exec(s, run).gen == Gen.Exec(s.gen, GenOf(run))
    decreases |run|
  {
    if run != [] {
      var s' := Next(s, run[0]);
      ProducedBy(s', run[1..]);
      if run[0].Produce? { Gen.Prepend(s.gen, run[0].g, GenOf(run[1..]), s'.gen); }
    }
  }

  lemma {:induction false} RunsCompose(s: State, first: seq<Action>, second: seq<Action>)
    requires CanRun(s, first) && CanRun(Exec(s, first), second)
    ensures CanRun(s, first + second) && Exec(s, first + second) == Exec(Exec(s, first), second)
    decreases |first|
  {
    if first == [] {
      assert first + second == second;
    } else {
      SplitFirst(first, second);
      RunsCompose(Next(s, first[0]), first[1..], second);
    }
  }

  // ---------- The invariant ----------

  ghost predicate Inv(s: State) {
    && Gen.Inv(s.gen)
    && Pub.Inv(s.gen.rows, s.pub)
    && Bill.Inv(s.pub.topic, s.bill)
  }

  lemma RowsGrow(g: Gen.Gen, a: Gen.Action)
    requires Gen.Inv(g) && Gen.Enabled(g, a)
    ensures g.rows <= Gen.Next(g, a).rows
    ensures Pub.RowsOk(Gen.Next(g, a).rows)
  {
  }

  lemma StepKeepsInv(s: State, a: Action)
    requires Inv(s) && Enabled(s, a)
    ensures Inv(Next(s, a))
  {
    match a
    case Produce(g) =>
      Gen.StepKeepsInv(s.gen, g);
      RowsGrow(s.gen, g);
      Pub.MoreRowsKeepInv(s.gen.rows, Gen.Next(s.gen, g).rows, s.pub);
    case Publish(p) =>
      Pub.StepKeepsInv(s.gen.rows, s.pub, p);
      Bill.MoreMessagesKeepInv(s.pub.topic, Pub.Next(s.gen.rows, s.pub, p).topic, s.bill);
    case Charge(b) =>
      Bill.StepKeepsInv(s.pub.topic, s.bill, b);
  }

  lemma {:induction false} RunKeepsInv(s: State, run: seq<Action>)
    requires Inv(s) && CanRun(s, run)
    ensures Inv(Exec(s, run))
    decreases |run|
  {
    if run != [] {
      StepKeepsInv(s, run[0]);
      RunKeepsInv(Next(s, run[0]), run[1..]);
    }
  }

  lemma Reached(now: int, interval: int, run: seq<Action>)
    requires CanRun(Start(now, interval), run)
    ensures Inv(Exec(Start(now, interval), run))
  {
    Gen.InitialInv(now, interval);
    Pub.IdleInv([]);
    Bill.UnbilledInv([]);
    RunKeepsInv(Start(now, interval), run);
  }

  // ---------- Safety over every run ----------

  /** published_at set => recorded => a valid message with exactly that row's payload is on the topic. */
  lemma PublishedIsDelivered(now: int, interval: int, run: seq<Action>, i: nat)
    requires CanRun(Start(now, interval), run)
    requires i in Exec(Start(now, interval), run).pub.published
    ensures var s := Exec(Start(now, interval), run);
      && i < |s.gen.rows| && s.gen.rows[i].eventId in s.pub.processed
      && Publishable(ToMessage(s.gen.rows[i].payload))
      && exists n :: 0 <= n < |s.pub.topic| && s.pub.topic[n].chunk == ToMessage(s.gen.rows[i].payload)
  {
    Reached(now, interval, run);
    var s := Exec(Start(now, interval), run);
    Delivery.PublishedImpliesDelivered(s.gen.rows, s.pub, i);
  }

  lemma DuplicatesAreAccountedFor(now: int, interval: int, run: seq<Action>, e: string)
    requires CanRun(Start(now, interval), run)
    ensures var p := Exec(Start(now, interval), run).pub;
      Pub.CountAll(p.topic, e) ==
        (if e in p.processed then 1 else 0) +
        Pub.CountIn(p.topic, p.leases, e, Pub.FromOpen) + Pub.CountIn(p.topic, p.leases, e, Pub.FromAborted) +
        Pub.CountIn(p.topic, p.leases, e, Pub.FromLostAck) + Pub.CountIn(p.topic, p.leases, e, Pub.FromReplayer)
  {
    Reached(now, interval, run);
    var s := Exec(Start(now, interval), run);
    Delivery.ExactDuplicateAccounting(s.gen.rows, s.pub, e);
  }

  /** Open leases hold disjoint unpublished rows, and a worker about to record meets no UNIQUE conflict. */
  lemma LeasesExclude(now: int, interval: int, run: seq<Action>, j: nat, k: nat)
    requires CanRun(Start(now, interval), run)
    requires var p := Exec(Start(now, interval), run).pub; Pub.IsOpen(p, j) && Pub.IsOpen(p, k)
    ensures var s := Exec(Start(now, interval), run);
      && (j != k ==> forall i :: i in s.pub.leases[j].batch ==> i !in s.pub.leases[k].batch)
      && (forall i :: i in s.pub.leases[k].batch ==> i !in s.pub.published)
      && (Pub.Handling(s.gen.rows, s.pub, k, Pub.AtRecord) ==> Pub.Enabled(s.gen.rows, s.pub, Pub.Record(k)))
  {
    Reached(now, interval, run);
    var s := Exec(Start(now, interval), run);
    assert Pub.LeaseOk(s.gen.rows, s.pub, k);
    if Pub.Handling(s.gen.rows, s.pub, k, Pub.AtRecord) {
      Delivery.RecordNeverConflicts(s.gen.rows, s.pub, k);
    }
  }

  lemma RecordedPipelineStep(s: State, a: Action, e: string)
    requires Inv(s) && Enabled(s, a) && e in s.pub.processed
    ensures var p' := Next(s, a).pub; e in p'.processed && Delivery.OnlyReplaysOf(s.pub.topic, p'.topic, e)
  {
    if a.Publish? { Delivery.RecordedStep(s.gen.rows, s.pub, a.p, e); }
  }

  /**
   Once an event is recorded, no worker ever sends it again: in every run, whatever is produced, leased,
   reset, aborted or fails, each message added for it is the replayer's.
   */
  lemma {:induction false} RecordedIsNeverSentAgain(s: State, run: seq<Action>, e: string)
    requires Inv(s) && CanRun(s, run) && e in s.pub.processed
    ensures var p' := Exec(s, run).pub; e in p'.processed && Delivery.OnlyReplaysOf(s.pub.topic, p'.topic, e)
    decreases |run|
  {
    if run != [] {
      var s' := Next(s, run[0]);
      RecordedPipelineStep(s, run[0], e);
      StepKeepsInv(s, run[0]);
      RecordedIsNeverSentAgain(s', run[1..], e);
      Delivery.ReplaysOnlyOf(s.pub.topic, s'.pub.topic, Exec(s, run).pub.topic, e);
    }
  }

  predicate LeasesRecorded(s: State, a: Action) {
    a.Publish? && a.p.TakeLease? ==> Delivery.BatchRecorded(s.gen.rows, s.pub, a.p.batch)
  }

  /** Only rows that are recorded are leased. */
  predicate LeasesOnlyRecorded(s: State, run: seq<Action>)
    requires CanRun(s, run)
    decreases |run|
  {
    run == [] || (LeasesRecorded(s, run[0]) && LeasesOnlyRecorded(Next(s, run[0]), run[1..]))
  }

  lemma AbsorbPipelineStep(s: State, a: Action)
    requires Inv(s) && Enabled(s, a) && LeasesRecorded(s, a) && Delivery.OpenLeasesRecorded(s.gen.rows, s.pub)
    ensures var s' := Next(s, a);
      && s'.pub.processed == s.pub.processed && Delivery.OnlyReplays(s.pub.topic, s'.pub.topic)
      && Delivery.OpenLeasesRecorded(s'.gen.rows, s'.pub)
  {
    match a
    case Produce(g) => RowsGrow(s.gen, g);
    case Publish(p) => Delivery.AbsorbStep(s.gen.rows, s.pub, p);
    case Charge(_) =>
  }

  lemma {:induction false} AbsorbRun(s: State, run: seq<Action>)
    requires Inv(s) && CanRun(s, run) && LeasesOnlyRecorded(s, run) && Delivery.OpenLeasesRecorded(s.gen.rows, s.pub)
    ensures var p' := Exec(s, run).pub; p'.processed == s.pub.processed && Delivery.OnlyReplays(s.pub.topic, p'.topic)
    decreases |run|
  {
    if run != [] {
      var s' := Next(s, run[0]);
      AbsorbPipelineStep(s, run[0]);
      StepKeepsInv(s, run[0]);
      AbsorbRun(s', run[1..]);
      Delivery.ReplaysOnly(s.pub.topic, s'.pub.topic, Exec(s, run).pub.topic);
    }
  }

  /**
   Resets are absorbed. In every run of the pipeline processed_outbox_events only grows and workers never
   send a recorded event again; if only recorded rows are leased, workers send nothing at all and
   processed_outbox_events stays as it is, however many chunks are produced meanwhile.
   */
  lemma ResetsAreAbsorbed(s: State, run: seq<Action>)
    requires Inv(s) && CanRun(s, run)
    ensures var p' := Exec(s, run).pub;
      && s.pub.processed <= p'.processed
      && (forall e :: e in s.pub.processed ==> Delivery.OnlyReplaysOf(s.pub.topic, p'.topic, e))
      && (Delivery.OpenLeasesRecorded(s.gen.rows, s.pub) && LeasesOnlyRecorded(s, run) ==>
            p'.processed == s.pub.processed && Delivery.OnlyReplays(s.pub.topic, p'.topic))
  {
    forall e | e in s.pub.processed
      ensures e in Exec(s, run).pub.processed && Delivery.OnlyReplaysOf(s.pub.topic, Exec(s, run).pub.topic, e)
    {
      RecordedIsNeverSentAgain(s, run, e);
    }
    if Delivery.OpenLeasesRecorded(s.gen.rows, s.pub) && LeasesOnlyRecorded(s, run) { AbsorbRun(s, run); }
  }

  /** One claim per event; each was preceded by its own attempt's submission and notice. */
  lemma ClaimsAreUniqueAndServed(now: int, interval: int, run: seq<Action>, i: nat)
    requires CanRun(Start(now, interval), run)
    requires i < |Exec(Start(now, interval), run).bill.claims|
    ensures var b := Exec(Start(now, interval), run).bill;
      var c := b.claims[i];
      && (forall j :: 0 <= j < |b.claims| && b.claims[j].eventId == c.eventId ==> j == i)
      && c.attempt < |b.attempts|
      && var m := b.attempts[c.attempt].chunk;
         && c.eventId == m.eventId && c.sessionId == m.sessionId && c.sequence == m.sequence
         && c.transactionId == TransactionId.Make(m.sessionId, m.sequence)
         && (exists n :: 0 <= n < |b.submissions| && b.submissions[n].attempt == c.attempt &&
               b.submissions[n].usage.transactionId == c.transactionId)
         && (exists n :: 0 <= n < |b.notices| && b.notices[n].attempt == c.attempt &&
               b.notices[n].eventId == c.eventId && b.notices[n].sessionId == c.sessionId &&
               b.notices[n].sequence == c.sequence && b.notices[n].metronomeId == c.transactionId &&
               b.notices[n].organizationId == m.organizationId)
  {
    Reached(now, interval, run);
    var s := Exec(Start(now, interval), run);
    Bill.ClaimsAreServed(s.pub.topic, s.bill, i);
    var c := s.bill.claims[i];
    var m := s.bill.attempts[c.attempt].chunk;
    assert Bill.Served(s.bill, m, c.attempt);
    var n :| 0 <= n < |s.bill.submissions| && s.bill.submissions[n] == Bill.Submission(Bill.BuildUsage(m), c.attempt);
    var l :| 0 <= l < |s.bill.notices| && s.bill.notices[l] == Bill.NoticeFor(m, c.attempt);
    assert s.bill.submissions[n].attempt == c.attempt && s.bill.notices[l].attempt == c.attempt;
  }

  /** The outbox row behind a Metronome submission: its usage is that row's, and the row is valid. */
  lemma SubmissionHasRow(s: State, n: nat)
    requires Inv(s) && n < |s.bill.submissions|
    ensures FromRow(s.gen.rows, s.bill.submissions[n].usage)
  {
    Bill.SubmissionsCheckedFirst(s.pub.topic, s.bill, n);
    var m := s.bill.attempts[s.bill.submissions[n].attempt].chunk;
    var t :| 0 <= t < |s.pub.topic| && s.pub.topic[t].chunk == m;
    assert Pub.MessageOk(s.gen.rows, s.pub, s.pub.topic[t]);
    var i :| 0 <= i < |s.gen.rows| && m == ToMessage(s.gen.rows[i].payload);
    assert s.bill.submissions[n].usage == UsageOf(s.gen.rows[i].payload);
  }

  /**
   Whatever happens, Metronome only ever hears of usage that some committed, valid outbox chunk
   states, from attempts whose check preceded every claim of their event.
   */
  lemma OnlyCommittedChunksAreSubmitted(now: int, interval: int, run: seq<Action>, n: nat)
    requires CanRun(Start(now, interval), run)
    requires n < |Exec(Start(now, interval), run).bill.submissions|
    ensures var s := Exec(Start(now, interval), run);
      var u := s.bill.submissions[n];
      && (exists i :: 0 <= i < |s.gen.rows| && Publishable(ToMessage(s.gen.rows[i].payload)) &&
            var c := s.gen.rows[i].payload;
            && u.usage.sessionId == c.sessionId && u.usage.sequence == c.sequence
            && u.usage.from == c.from && u.usage.to == c.to && u.usage.timestamp == c.to
            && u.usage.customerId == c.organizationId && u.usage.transactionId == KeyOf(c))
      && u.attempt < |s.bill.attempts|
      && (forall i :: 0 <= i < |s.bill.claims| && s.bill.claims[i].eventId == s.bill.attempts[u.attempt].chunk.eventId ==>
            s.bill.attempts[u.attempt].checkedAt < s.bill.claims[i].committedAt)
  {
    Reached(now, interval, run);
    var s := Exec(Start(now, interval), run);
    SubmissionHasRow(s, n);
    Bill.SubmissionsCheckedFirst(s.pub.topic, s.bill, n);
    var i :| 0 <= i < |s.gen.rows| && s.bill.submissions[n].usage == UsageOf(s.gen.rows[i].payload)
      && Publishable(ToMessage(s.gen.rows[i].payload));
    assert s.gen.rows[i].payload.sessionId == s.bill.submissions[n].usage.sessionId;
  }

  lemma {:induction false} SubmissionsGrow(s: State, run: seq<Action>)
    requires CanRun(s, run)
    ensures s.bill.submissions <= Exec(s, run).bill.submissions
    decreases |run|
  {
    if run != [] { SubmissionsGrow(Next(s, run[0]), run[1..]); }
  }

  /**
   In every run of the pipeline, stale commits included, no later step changes, removes or reorders a
   ledger entry, and each entry is what the first submission of its transaction id stated.
   */
  lemma LedgerOnlyGrows(s: State, run: seq<Action>)
    requires CanRun(s, run)
    ensures var before, after := Kept(s.bill.submissions), Kept(Exec(s, run).bill.submissions);
      before <= after && forall u :: u in after <==> FirstStated(Exec(s, run).bill.submissions, u)
  {
    var subs, subs' := s.bill.submissions, Exec(s, run).bill.submissions;
    SubmissionsGrow(s, run);
    KeptGrows(subs, subs'[|subs|..]);
    assert subs' == subs + subs'[|subs|..];
    KeptOncePerTransaction(subs');
  }

  /** Whom and what a submission bills: the organization and sandbox of its session, a positive stretch of time. */
  lemma SubmissionsBillTheSession(now: int, interval: int, run: seq<Action>, n: nat)
    requires CanRun(Start(now, interval), run)
    requires n < |Exec(Start(now, interval), run).bill.submissions|
    ensures var s := Exec(Start(now, interval), run);
      var u := s.bill.submissions[n].usage;
      && u.sessionId in s.gen.sessions
      && u.customerId == s.gen.sessions[u.sessionId].organizationId
      && u.sandboxId == s.gen.sessions[u.sessionId].sandboxId
      && u.sessionId != "" && u.sandboxId != ""
      && u.from < u.to == u.timestamp
      && 1 <= u.sequence <= Gen.LargestSequence(s.gen.rows, u.sessionId)
  {
    Reached(now, interval, run);
    var s := Exec(Start(now, interval), run);
    SubmissionHasRow(s, n);
    var i: nat :| i < |s.gen.rows| && s.bill.submissions[n].usage == UsageOf(s.gen.rows[i].payload)
      && Publishable(ToMessage(s.gen.rows[i].payload));
    assert Gen.Continues(s.gen.sessions, s.gen.rows, i);
    Gen.EmittedIsPositive(s.gen, i);
    Gen.LargestIsLargest(s.gen.rows, s.gen.rows[i].sessionId, i);
  }

  // ---------- No stale commits: the atomic ledger ----------

  /** No chunk is committed from a stale row. The clock may do what it likes. */
  predicate Orderly(s: State, a: Action) {
    a.Produce? ==> Tiling.Fresh(s.gen, a.g)
  }

  predicate OrderlyRun(s: State, run: seq<Action>)
    decreases |run|
  {
    run == [] || (Enabled(s, run[0]) && Orderly(s, run[0]) && OrderlyRun(Next(s, run[0]), run[1..]))
  }

  ghost predicate OrderlyInv(s: State) {
    && Inv(s)
    && Tiling.FreshInv(s.gen)
  }

  lemma OrderlyStep(s: State, a: Action)
    requires OrderlyInv(s) && Enabled(s, a) && Orderly(s, a)
    ensures OrderlyInv(Next(s, a))
  {
    StepKeepsInv(s, a);
    if a.Produce? {
      Tiling.FreshStep(s.gen, a.g);
    }
  }

  lemma {:induction false} OrderlyRunKeeps(s: State, run: seq<Action>)
    requires OrderlyInv(s) && OrderlyRun(s, run)
    ensures CanRun(s, run) && OrderlyInv(Exec(s, run))
    decreases |run|
  {
    if run != [] {
      OrderlyStep(s, run[0]);
      OrderlyRunKeeps(Next(s, run[0]), run[1..]);
    }
  }

  /** No session has overlapping windows. */
  ghost predicate SerialRun(s: State, run: seq<Action>)
    decreases |run|
  {
    run == [] ||
    (&& Enabled(s, run[0])
     && (run[0].Produce? ==> Tiling.Serialised(s.gen, run[0].g))
     && SerialRun(Next(s, run[0]), run[1..]))
  }

  /** Serialised sessions are enough for everything below. */
  lemma {:induction false} SerialRunIsOrderly(s: State, run: seq<Action>)
    requires Tiling.SerialInv(s.gen) && SerialRun(s, run)
    ensures OrderlyRun(s, run)
    decreases |run|
  {
    if run != [] {
      if run[0].Produce? {
        Tiling.SerialIsFresh(s.gen, run[0].g);
        Tiling.SerialStep(s.gen, run[0].g);
      }
      SerialRunIsOrderly(Next(s, run[0]), run[1..]);
    }
  }

  /** What the usage service does by itself, serialised, is such a run of the pipeline. */
  lemma {:induction false} ProducedIsSerial(s: State, run: seq<Gen.Action>)
    requires Tiling.SerialRun(s.gen, run)
    ensures SerialRun(s, Produced(run))
    decreases |run|
  {
    if run != [] {
      ProducedIsSerial(Next(s, Produce(run[0])), run[1..]);
      assert ([Produce(run[0])] + Produced(run[1..]))[1..] == Produced(run[1..]);
    }
  }

  lemma SerialisedRunsAreOrderly(now: int, interval: int, run: seq<Action>)
    requires SerialRun(Start(now, interval), run)
    ensures OrderlyRun(Start(now, interval), run)
  {
    Gen.InitialInv(now, interval);
    SerialRunIsOrderly(Start(now, interval), run);
  }

  lemma StartIsOrderly(now: int, interval: int)
    ensures OrderlyInv(Start(now, interval))
  {
    Gen.InitialInv(now, interval);
    Pub.IdleInv([]);
    Bill.UnbilledInv([]);
  }

  lemma OrderlyFacts(s: State)
    requires OrderlyInv(s)
    ensures KeyedRows(s.gen.rows) && FromRows(s.gen.rows, s.bill.submissions)
  {
    forall n | 0 <= n < |s.bill.submissions| ensures FromRow(s.gen.rows, s.bill.submissions[n].usage) {
      SubmissionHasRow(s, n);
    }
  }

  /** Over all outbox rows, event ids and transaction ids determine each other. */
  lemma EventAndTransactionIdsCorrespond(now: int, interval: int, run: seq<Action>, i: nat, j: nat)
    requires OrderlyRun(Start(now, interval), run)
    ensures CanRun(Start(now, interval), run)
    ensures var rows := Exec(Start(now, interval), run).gen.rows;
      i < |rows| && j < |rows| ==>
        (rows[i].eventId == rows[j].eventId <==> KeyOf(rows[i].payload) == KeyOf(rows[j].payload))
  {
    StartIsOrderly(now, interval);
    OrderlyRunKeeps(Start(now, interval), run);
    KeysAreTransactionIds(Exec(Start(now, interval), run).gen.rows);
  }

  /** The specification: committed chunks, and which of them have been charged. */
  datatype Books = Books(chunks: seq<Chunk>, charged: set<nat>)

  ghost predicate CommitsChunk(l: Books, l': Books, c: Chunk) {
    && l' == l.(chunks := l.chunks + [c])
    && forall i :: 0 <= i < |l.chunks| ==> l.chunks[i].eventId != c.eventId && KeyOf(l.chunks[i]) != KeyOf(c)
  }

  ghost predicate ChargesChunk(l: Books, l': Books, i: nat) {
    && i < |l.chunks| && i !in l.charged && Publishable(ToMessage(l.chunks[i]))
    && l' == l.(charged := l.charged + {i})
  }

  /** One atomic step of the books: nothing, a new chunk, or the one and only charge of a valid chunk. */
  ghost predicate BooksStep(l: Books, l': Books) {
    || l' == l
    || (exists c :: CommitsChunk(l, l', c))
    || (exists i :: ChargesChunk(l, l', i))
  }

  function Payloads(rows: seq<OutboxRow>): seq<Chunk> {
    seq(|rows|, i requires 0 <= i < |rows| => rows[i].payload)
  }

  function BooksFor(rows: seq<OutboxRow>, subs: seq<Bill.Submission>): Books {
    Books(Payloads(rows), ChargedRows(rows, subs))
  }

  function BooksOf(s: State): Books {
    BooksFor(s.gen.rows, s.bill.submissions)
  }

  lemma NewRowRefines(rows: seq<OutboxRow>, r: OutboxRow, subs: seq<Bill.Submission>)
    requires Pub.RowsOk(rows + [r]) && KeyedRows(rows + [r]) && !IsCharged(subs, r.payload)
    ensures BooksStep(BooksFor(rows, subs), BooksFor(rows + [r], subs))
  {
    var rows' := rows + [r];
    var l, l' := BooksFor(rows, subs), BooksFor(rows', subs);
    KeysAreTransactionIds(rows');
    assert l'.chunks == l.chunks + [r.payload];
    assert forall i: nat :: i < |rows| ==> rows'[i] == rows[i];
    assert l'.charged == l.charged;
    forall i | 0 <= i < |rows| ensures l.chunks[i].eventId != r.payload.eventId && KeyOf(l.chunks[i]) != KeyOf(r.payload) {
      assert rows'[i].eventId != rows'[|rows|].eventId;
    }
    assert CommitsChunk(l, l', r.payload);
  }

  lemma ProduceRefines(s: State, a: Action)
    requires OrderlyInv(s) && Enabled(s, a) && Orderly(s, a) && a.Produce?
    ensures BooksStep(BooksOf(s), BooksOf(Next(s, a)))
  {
    var s' := Next(s, a);
    if a.g.CommitChunk? {
      var r := s'.gen.rows[|s.gen.rows|];
      OrderlyStep(s, a);
      OrderlyFacts(s');
      NewRowIsUncharged(s, s');
      assert s'.gen.rows == s.gen.rows + [r];
      NewRowRefines(s.gen.rows, r, s.bill.submissions);
    } else {
      assert s'.gen.rows == s.gen.rows;
    }
  }

  lemma NewRowIsUncharged(s: State, s': State)
    requires OrderlyInv(s) && OrderlyInv(s') && s'.bill == s.bill
    requires |s'.gen.rows| == |s.gen.rows| + 1 && s.gen.rows <= s'.gen.rows
    ensures !IsCharged(s.bill.submissions, s'.gen.rows[|s.gen.rows|].payload)
  {
    var rows' := s'.gen.rows;
    var r := rows'[|s.gen.rows|];
    OrderlyFacts(s);
    OrderlyFacts(s');
    KeysAreTransactionIds(rows');
    forall n | 0 <= n < |s.bill.submissions| ensures s.bill.submissions[n].usage.transactionId != KeyOf(r.payload) {
      assert FromRow(s.gen.rows, s.bill.submissions[n].usage);
      var i :| 0 <= i < |s.gen.rows| && s.bill.submissions[n].usage == UsageOf(s.gen.rows[i].payload);
      assert rows'[i] == s.gen.rows[i];
    }
  }

  lemma SubmissionRefines(rows: seq<OutboxRow>, subs: seq<Bill.Submission>, sub: Bill.Submission)
    requires KeyedRows(rows) && FromRow(rows, sub.usage)
    ensures BooksStep(BooksFor(rows, subs), BooksFor(rows, subs + [sub]))
  {
    var i: nat :| i < |rows| && sub.usage == UsageOf(rows[i].payload) && Publishable(ToMessage(rows[i].payload));
    SubmissionCharges(rows, subs, sub, i);
    var l, l' := BooksFor(rows, subs), BooksFor(rows, subs + [sub]);
    assert l'.charged == l.charged + {i} && l.chunks[i] == rows[i].payload;
    if i in l.charged {
      assert l' == l;
    } else {
      assert ChargesChunk(l, l', i);
    }
  }

  lemma ChargeRefines(s: State, a: Action)
    requires OrderlyInv(s) && Enabled(s, a) && a.Charge?
    ensures BooksStep(BooksOf(s), BooksOf(Next(s, a)))
  {
    var subs, subs' := s.bill.submissions, Next(s, a).bill.submissions;
    if a.b.Submit? {
      OrderlyFacts(s);
      StepKeepsInv(s, a);
      SubmissionHasRow(Next(s, a), |subs|);
      assert subs' == subs + [subs'[|subs|]];
      SubmissionRefines(s.gen.rows, subs, subs'[|subs|]);
    } else {
      assert subs' == subs;
    }
  }

  lemma StepRefines(s: State, a: Action)
    requires OrderlyInv(s) && Enabled(s, a) && Orderly(s, a)
    ensures BooksStep(BooksOf(s), BooksOf(Next(s, a)))
  {
    if a.Produce? {
      ProduceRefines(s, a);
    } else if a.Charge? {
      ChargeRefines(s, a);
    }
  }

  /** The books after every step of a run, the start included. */
  ghost function BooksAlong(s: State, run: seq<Action>): seq<Books>
    requires CanRun(s, run)
    decreases |run|
  {
    if run == [] then [BooksOf(s)] else [BooksOf(s)] + BooksAlong(Next(s, run[0]), run[1..])
  }

  ghost predicate IsBooksRun(history: seq<Books>) {
    forall n :: 0 <= n < |history| - 1 ==> BooksStep(history[n], history[n + 1])
  }

  lemma HistoryExtends(l: Books, rest: seq<Books>)
    requires rest != [] && IsBooksRun(rest) && BooksStep(l, rest[0])
    ensures IsBooksRun([l] + rest)
  {
  }

  /** Every orderly run of the whole pipeline is, step by step, a run of the books. */
  lemma {:induction false} RunRefines(s: State, run: seq<Action>)
    requires OrderlyInv(s) && OrderlyRun(s, run)
    ensures CanRun(s, run)
    ensures var history := BooksAlong(s, run);
      history != [] && history[0] == BooksOf(s) && IsBooksRun(history)
    decreases |run|
  {
    OrderlyRunKeeps(s, run);
    if run != [] {
      var s' := Next(s, run[0]);
      OrderlyStep(s, run[0]);
      StepRefines(s, run[0]);
      RunRefines(s', run[1..]);
      HistoryExtends(BooksOf(s), BooksAlong(s', run[1..]));
    }
  }

  /**
   Every run without stale commits, from the empty start, with any number of workers, replays,
   resets, duplicate or lost deliveries and crashes: the books start empty and take only legal steps.
   */
  lemma PipelineRefinesBooks(now: int, interval: int, run: seq<Action>)
    requires OrderlyRun(Start(now, interval), run)
    ensures CanRun(Start(now, interval), run)
    ensures var history := BooksAlong(Start(now, interval), run);
      history != [] && history[0] == Books([], {}) && IsBooksRun(history)
  {
    StartIsOrderly(now, interval);
    RunRefines(Start(now, interval), run);
  }

  /**
   The ledger and the charged chunks are the same thing: no two entries share a transaction id, each
   entry is the usage of a charged, valid chunk, and each charged chunk has its entry.
   */
  lemma LedgerIsTheCharges(now: int, interval: int, run: seq<Action>)
    requires OrderlyRun(Start(now, interval), run)
    ensures CanRun(Start(now, interval), run)
    ensures var s := Exec(Start(now, interval), run);
      var kept := Kept(s.bill.submissions);
      && DistinctEntries(kept)
      && (forall k :: 0 <= k < |kept| ==> ChargesRow(s.gen.rows, s.bill.submissions, kept[k]))
      && (forall i: nat :: i in BooksOf(s).charged ==> UsageOf(s.gen.rows[i].payload) in kept)
  {
    StartIsOrderly(now, interval);
    OrderlyRunKeeps(Start(now, interval), run);
    var s := Exec(Start(now, interval), run);
    var rows, subs := s.gen.rows, s.bill.submissions;
    OrderlyFacts(s);
    KeptOncePerTransaction(subs);
    forall k | 0 <= k < |Kept(subs)| ensures ChargesRow(rows, subs, Kept(subs)[k]) {
      EntryChargesRow(rows, subs, k);
    }
    forall i: nat | i in BooksOf(s).charged ensures UsageOf(rows[i].payload) in Kept(subs) {
      ChargedRowHasEntry(rows, subs, i);
    }
  }

  lemma SessionTotal(g: Gen.Gen, id: string)
    requires Tiling.FreshInv(g) && id in g.sessions
    ensures g.sessions[id].lastBilledAt.Some?
    ensures Tiling.TotalLength(Tiling.ChunksOf(g.rows, id)) == g.sessions[id].lastBilledAt.value - g.sessions[id].startAt
  {
    var session := g.sessions[id];
    assert session.id == id && Tiling.SessionTiled(session, g.rows);
    Tiling.TilesTotal(Tiling.ChunksOf(g.rows, id), session.startAt, session.lastBilledAt.value);
  }

  lemma LedgerAddsUpAt(s: State, id: string)
    requires OrderlyInv(s) && id in s.gen.sessions
    ensures s.gen.sessions[id].lastBilledAt.Some?
    ensures LedgerLength(Kept(s.bill.submissions), id) + UnchargedLength(s.gen.rows, s.bill.submissions, id) ==
      s.gen.sessions[id].lastBilledAt.value - s.gen.sessions[id].startAt
  {
    OrderlyFacts(s);
    LedgerMatchesRows(s.gen.rows, s.bill.submissions, id);
    ChargedAndUncharged(s.gen.rows, s.bill.submissions, id);
    SessionTotal(s.gen, id);
  }

  /**
   Conservation: what the ledger charges a session and what is not charged yet are together what was
   billed, last_billed_at - start_at. No clock is assumed.
   */
  lemma LedgerAddsUp(now: int, interval: int, run: seq<Action>, id: string)
    requires OrderlyRun(Start(now, interval), run)
    ensures CanRun(Start(now, interval), run)
    ensures var s := Exec(Start(now, interval), run);
      id in s.gen.sessions ==>
        var session := s.gen.sessions[id];
        && session.lastBilledAt.Some?
        && LedgerLength(Kept(s.bill.submissions), id) + UnchargedLength(s.gen.rows, s.bill.submissions, id) ==
             session.lastBilledAt.value - session.startAt
  {
    StartIsOrderly(now, interval);
    OrderlyRunKeeps(Start(now, interval), run);
    var s := Exec(Start(now, interval), run);
    if id in s.gen.sessions { LedgerAddsUpAt(s, id); }
  }

  /**
   No double charge, end to end: as long as no chunk of the session ends before it starts, the ledger
   charges it at most last_billed_at - start_at, and exactly that when every chunk of positive length
   has been charged.
   */
  lemma NoDoubleCharge(now: int, interval: int, run: seq<Action>, id: string)
    requires OrderlyRun(Start(now, interval), run)
    ensures CanRun(Start(now, interval), run)
    ensures var s := Exec(Start(now, interval), run);
      id in s.gen.sessions && Forward(s.gen.rows, id) ==>
        var session := s.gen.sessions[id];
        && session.lastBilledAt.Some?
        && var billed := session.lastBilledAt.value - session.startAt;
           var charged := LedgerLength(Kept(s.bill.submissions), id);
           && charged <= billed
           && (charged == billed <==> AllCharged(s.gen.rows, s.bill.submissions, id))
  {
    LedgerAddsUp(now, interval, run, id);
    var s := Exec(Start(now, interval), run);
    if Forward(s.gen.rows, id) { UnchargedIsPositive(s.gen.rows, s.bill.submissions, id); }
  }

  /** With a clock that does not run backwards every chunk is in order and named. */
  lemma TimelyIsForward(now: int, interval: nat, run: seq<Gen.Action>, id: string)
    requires Clock.TimelyRun(Gen.Initial(now, interval), run, false)
    ensures Gen.CanRun(Gen.Initial(now, interval), run)
    ensures var rows := Gen.Exec(Gen.Initial(now, interval), run).rows; Forward(rows, id) && Named(rows, id)
  {
    Gen.InitialInv(now, interval);
    Clock.TimelyRunKeeps(Gen.Initial(now, interval), run, false);
  }

  /**
   What the design intends, end to end: in every run of the pipeline whose sessions are serialised and
   whose clock does not run backwards, no session is charged more than last_billed_at - start_at, and
   exactly that when every chunk of positive length has been charged.
   */
  lemma NeverOvercharged(now: int, interval: nat, run: seq<Action>, id: string)
    requires SerialRun(Start(now, interval), run)
    requires Clock.TimelyRun(Gen.Initial(now, interval), GenOf(run), false)
    ensures CanRun(Start(now, interval), run)
    ensures var s := Exec(Start(now, interval), run);
      id in s.gen.sessions ==>
        var session := s.gen.sessions[id];
        && session.lastBilledAt.Some?
        && var billed := session.lastBilledAt.value - session.startAt;
           var charged := LedgerLength(Kept(s.bill.submissions), id);
           && charged <= billed
           && (charged == billed <==> AllCharged(s.gen.rows, s.bill.submissions, id))
  {
    SerialisedRunsAreOrderly(now, interval, run);
    NoDoubleCharge(now, interval, run, id);
    ProducedBy(Start(now, interval), run);
    TimelyIsForward(now, interval, GenOf(run), id);
  }
}
