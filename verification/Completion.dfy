/**
 What the deployed pipeline can still charge, and what is lost. With nothing under way a valid chunk
 that was not submitted can still be charged exactly when a message for it is unread or can be sent: its
 row can be leased and is not recorded yet or, with the replayer enabled, is published or can be.
 */
module Completion {
  import opened Model
  import opened Pipeline
  import opened Ledger
  import opened Starvation
  import opened Serving
  import opened Deployment
  import Gen = Generation
  import Pub = Publishing
  import Bill = Billing
  import Delivery
  import Cycle
  import Tiling

  // ---------- Every chunk that can be sent ----------

  predicate IsValid(rows: seq<OutboxRow>, i: nat) {
    i < |rows| && Publishable(ToMessage(rows[i].payload))
  }

  /** A message for the valid row i can still be put on the topic. */
  predicate Sendable(rows: seq<OutboxRow>, p: Pub.Pub, i: nat, u: Setup) {
    && IsValid(rows, i)
    && if u.replay then i in p.published || Servable(rows, i, u)
       else rows[i].eventId !in p.processed && Servable(rows, i, u)
  }

  /** The topic holds a message for the event that the consumer has not read and committed. */
  predicate Unread(s: State, v: Cursor, e: string) {
    SentSince(s.pub.topic, v.committed, e)
  }

  /** The consumer will read a message for the valid row i, or such a message can still be sent. */
  predicate Pending(s: State, v: Cursor, i: nat, u: Setup) {
    IsValid(s.gen.rows, i) && (Unread(s, v, s.gen.rows[i].eventId) || Sendable(s.gen.rows, s.pub, i, u))
  }

  /** s' differs from s in what the publisher has done, and no transaction of it is under way. */
  ghost predicate Sent(s: State, s': State) {
    && s' == s.(pub := s'.pub) && Grown(s.pub, s'.pub)
    && Cycle.NoneOpenSince(s.pub.leases, 0) && Cycle.NoneOpenSince(s'.pub.leases, 0)
  }

  lemma SentOn(s: State, s1: State, s2: State)
    requires Sent(s, s1) && Sent(s1, s2)
    ensures Sent(s, s2)
  {
    GrownOn(s.pub, s1.pub, s2.pub);
  }

  lemma PublishIt(s: State, v: Cursor, i: nat, u: Setup) returns (run: seq<Action>, s': State)
    requires Inv(s) && Cycle.NoneOpenSince(s.pub.leases, 0) && IsValid(s.gen.rows, i) && Servable(s.gen.rows, i, u)
    ensures Gets(s, v, run, s', v, u) && Sent(s, s') && Inv(s')
    ensures i in s'.pub.published && s.gen.rows[i].eventId in s'.pub.processed
  {
    var publishing, p' := PublishRow(s.gen.rows, s.pub, i, u);
    run, s' := Published(publishing), s.(pub := p');
    PublisherGets(s, v, publishing, p', u);
    GetsKeepsInv(s, v, run, s', v, u);
  }

  /** A row that can be sent, is: by a worker if it is not recorded yet, by the replayer otherwise. */
  lemma SendRow(s: State, v: Cursor, i: nat, u: Setup) returns (run: seq<Action>, s': State, v': Cursor)
    requires Inv(s) && Cycle.NoneOpenSince(s.pub.leases, 0) && Sendable(s.gen.rows, s.pub, i, u)
    ensures Gets(s, v, run, s', v', u) && SamePlace(v, v') && Sent(s, s') && Inv(s')
    ensures SentSince(s'.pub.topic, |s.pub.topic|, s.gen.rows[i].eventId)
  {
    if s.gen.rows[i].eventId !in s.pub.processed && Servable(s.gen.rows, i, u) {
      run, s' := PublishIt(s, v, i, u);
      v' := v;
    } else {
      var s1, first := s, [];
      if i !in s.pub.published { first, s1 := PublishIt(s, v, i, u); }
      var again;
      again, s', v' := Replay(s1, v, i, u);
      GetsOn(s, v, first, s1, v, again, s', v', u);
      GetsKeepsInv(s1, v, again, s', v', u);
      GrownOn(s.pub, s1.pub, s'.pub);
      run := first + again;
    }
  }

  ghost predicate AllSent(rows: seq<OutboxRow>, p: Pub.Pub, p': Pub.Pub, n: nat, u: Setup) {
    forall i: nat :: i < n && Sendable(rows, p, i, u) ==> SentSince(p'.topic, |p.topic|, rows[i].eventId)
  }

  lemma SentSinceGrows(p: Pub.Pub, p1: Pub.Pub, p2: Pub.Pub, n: nat, e: string)
    requires Grown(p, p1) && Grown(p1, p2)
    ensures SentSince(p1.topic, n, e) ==> SentSince(p2.topic, n, e)
    ensures SentSince(p2.topic, |p1.topic|, e) ==> SentSince(p2.topic, |p.topic|, e)
  {
    if SentSince(p1.topic, n, e) {
      var m :| n <= m < |p1.topic| && p1.topic[m].chunk.eventId == e;
      assert p2.topic[m] == p1.topic[m];
    }
  }

  /** What could be sent before has been sent since, or still can. */
  lemma StaysSendable(rows: seq<OutboxRow>, p: Pub.Pub, p': Pub.Pub, i: nat, u: Setup)
    requires Grown(p, p') && Sendable(rows, p, i, u)
    ensures SentSince(p'.topic, |p.topic|, rows[i].eventId) || Sendable(rows, p', i, u)
  {
  }

  lemma SendNext(s: State, v: Cursor, s1: State, i: nat, u: Setup) returns (run: seq<Action>, s': State, v': Cursor)
    requires Inv(s1) && Sent(s, s1)
    ensures Gets(s1, v, run, s', v', u) && SamePlace(v, v') && Sent(s1, s') && Inv(s')
    ensures Sendable(s.gen.rows, s.pub, i, u) ==> SentSince(s'.pub.topic, |s.pub.topic|, s.gen.rows[i].eventId)
  {
    run, s', v' := [], s1, v;
    if Sendable(s.gen.rows, s.pub, i, u) && !SentSince(s1.pub.topic, |s.pub.topic|, s.gen.rows[i].eventId) {
      StaysSendable(s.gen.rows, s.pub, s1.pub, i, u);
      run, s', v' := SendRow(s1, v, i, u);
      SentSinceGrows(s.pub, s1.pub, s'.pub, 0, s.gen.rows[i].eventId);
    }
  }

  lemma OneMoreSent(rows: seq<OutboxRow>, p: Pub.Pub, p1: Pub.Pub, p2: Pub.Pub, n: nat, u: Setup)
    requires AllSent(rows, p, p1, n, u) && Grown(p, p1) && Grown(p1, p2)
    requires Sendable(rows, p, n, u) ==> SentSince(p2.topic, |p.topic|, rows[n].eventId)
    ensures AllSent(rows, p, p2, n + 1, u)
  {
    forall i: nat | i < n && Sendable(rows, p, i, u) ensures SentSince(p2.topic, |p.topic|, rows[i].eventId) {
      SentSinceGrows(p, p1, p2, |p.topic|, rows[i].eventId);
    }
  }

  /** The first n rows have been sent, of those that could be. */
  ghost predicate HasSent(s: State, v: Cursor, run: seq<Action>, s': State, v': Cursor, n: nat, u: Setup) {
    && Gets(s, v, run, s', v', u) && SamePlace(v, v') && Sent(s, s') && Inv(s')
    && AllSent(s.gen.rows, s.pub, s'.pub, n, u)
  }

  lemma SendOneMore(s: State, v: Cursor, before: seq<Action>, s1: State, v1: Cursor, n: nat, u: Setup)
      returns (run: seq<Action>, s': State, v': Cursor)
    requires HasSent(s, v, before, s1, v1, n, u)
    ensures HasSent(s, v, run, s', v', n + 1, u)
  {
    var last;
    last, s', v' := SendNext(s, v1, s1, n, u);
    GetsOn(s, v, before, s1, v1, last, s', v', u);
    SentOn(s, s1, s');
    OneMoreSent(s.gen.rows, s.pub, s1.pub, s'.pub, n, u);
    run := before + last;
  }

  lemma {:induction false} SendAll(s: State, v: Cursor, n: nat, u: Setup) returns (run: seq<Action>, s': State, v': Cursor)
    requires Inv(s) && Cycle.NoneOpenSince(s.pub.leases, 0)
    ensures HasSent(s, v, run, s', v', n, u)
  {
    if n == 0 {
      run, s', v' := [], s, v;
    } else {
      var before, s1, v1 := SendAll(s, v, n - 1, u);
      run, s', v' := SendOneMore(s, v, before, s1, v1, n - 1, u);
    }
  }

  /** Everything that can be sent is sent, and the consumer submits what is chosen of what it reads. */
  ghost predicate ChargesChosen(s: State, v: Cursor, s': State, chosen: set<string>, u: Setup) {
    && s'.gen == s.gen && Remembers(s.bill, s'.bill)
    && (forall i: nat :: Pending(s, v, i, u) && s.gen.rows[i].eventId in chosen ==>
          Heard(s'.bill, s.gen.rows[i].eventId))
    && (forall m: nat :: |s.bill.submissions| <= m < |s'.bill.submissions| ==> ForChosen(s'.bill, m, chosen))
  }

  /** Some submission was made for event e. */
  ghost predicate Heard(b: Bill.Bill, e: string) {
    exists m: nat :: HeardAt(b, m, e)
  }

  predicate HeardAt(b: Bill.Bill, m: nat, e: string) {
    m < |b.submissions| && b.submissions[m].attempt < |b.attempts| && b.attempts[b.submissions[m].attempt].chunk.eventId == e
  }

  lemma SentIsHeard(s: State, b': Bill.Bill, from: nat, chosen: set<string>, e: string)
    requires SubmittedFrom(s, b', from, chosen) && e in chosen && SentSince(s.pub.topic, from, e)
    ensures Heard(b', e)
  {
    var n :| from <= n < |s.pub.topic| && s.pub.topic[n].chunk.eventId == e;
    var m :| IsFor(b', m, s.pub.topic[n].chunk);
    assert HeardAt(b', m, e);
  }

  /** The consumer is at the committed offset. */
  predicate AtCommitted(s: State, v: Cursor) {
    v.committed == v.next <= |s.pub.topic|
  }

  lemma PendingIsRead(s: State, v: Cursor, s1: State, i: nat, u: Setup)
    requires Sent(s, s1) && AllSent(s.gen.rows, s.pub, s1.pub, |s.gen.rows|, u)
    requires Pending(s, v, i, u) && v.committed <= |s.pub.topic|
    ensures Unread(s1, v, s.gen.rows[i].eventId)
  {
    var e := s.gen.rows[i].eventId;
    if Unread(s, v, e) {
      SentSinceGrows(s.pub, s.pub, s1.pub, v.committed, e);
    } else {
      var n :| |s.pub.topic| <= n < |s1.pub.topic| && s1.pub.topic[n].chunk.eventId == e;
    }
  }

  lemma ChargeChosen(s: State, v: Cursor, chosen: set<string>, u: Setup) returns (run: seq<Action>, s': State, v': Cursor)
    requires Inv(s) && Cycle.NoneOpenSince(s.pub.leases, 0) && AtCommitted(s, v) && NoneClaimed(s.bill, chosen)
    ensures Gets(s, v, run, s', v', u) && ChargesChosen(s, v, s', chosen, u)
  {
    var sending, s1, v1 := SendAll(s, v, |s.gen.rows|, u);
    var consuming;
    consuming, s', v' := ConsumeAll(s1, v1, chosen, u);
    GetsOn(s, v, sending, s1, v1, consuming, s', v', u);
    run := sending + consuming;
    forall i: nat | Pending(s, v, i, u) && s.gen.rows[i].eventId in chosen ensures Heard(s'.bill, s.gen.rows[i].eventId) {
      PendingIsRead(s, v, s1, i, u);
      SentIsHeard(s1, s'.bill, v.next, chosen, s.gen.rows[i].eventId);
    }
  }

  // ---------- No billing event is lost that can still be sent ----------

  /** A submission for the event of row i is a charge of row i. */
  lemma HeardIsCharged(s: State, i: nat)
    requires Inv(s) && i < |s.gen.rows| && Heard(s.bill, s.gen.rows[i].eventId)
    ensures IsCharged(s.bill.submissions, s.gen.rows[i].payload)
  {
    var m: nat :| HeardAt(s.bill, m, s.gen.rows[i].eventId);
    var j := SubmittedRow(s, m);
    assert j == i;
    assert s.bill.submissions[m].usage.transactionId == KeyOf(s.gen.rows[i].payload);
  }

  /** The row whose message submission m was made for. */
  lemma SubmittedRow(s: State, m: nat) returns (j: nat)
    requires Inv(s) && m < |s.bill.submissions|
    ensures IsValid(s.gen.rows, j) && HeardAt(s.bill, m, s.gen.rows[j].eventId)
    ensures IsFor(s.bill, m, ToMessage(s.gen.rows[j].payload))
    ensures s.bill.submissions[m].usage == UsageOf(s.gen.rows[j].payload)
  {
    Bill.SubmissionsCheckedFirst(s.pub.topic, s.bill, m);
    var c := s.bill.attempts[s.bill.submissions[m].attempt].chunk;
    var t :| 0 <= t < |s.pub.topic| && s.pub.topic[t].chunk == c;
    assert Pub.MessageOk(s.gen.rows, s.pub, s.pub.topic[t]);
    j :| 0 <= j < |s.gen.rows| && c == ToMessage(s.gen.rows[j].payload);
    assert RowMatchesPayload(s.gen.rows[j]);
  }

  /** The claim of an event was preceded by a submission for it. */
  lemma ClaimedIsHeard(s: State, e: string)
    requires Inv(s) && Bill.IsClaimed(s.bill, e)
    ensures Heard(s.bill, e)
  {
    var c: nat :| c < |s.bill.claims| && s.bill.claims[c].eventId == e;
    Bill.ClaimsAreServed(s.pub.topic, s.bill, c);
    var k := s.bill.claims[c].attempt;
    var n: nat :| n < |s.bill.submissions| && s.bill.submissions[n] == Bill.Submission(Bill.BuildUsage(s.bill.attempts[k].chunk), k);
    assert HeardAt(s.bill, n, e);
  }

  lemma StillHeard(b: Bill.Bill, b': Bill.Bill, e: string)
    requires Remembers(b, b') && Heard(b, e)
    ensures Heard(b', e)
  {
    var m: nat :| HeardAt(b, m, e);
    assert HeardAt(b', m, e);
  }

  function UnclaimedEvents(s: State): set<string> {
    set i | 0 <= i < |s.gen.rows| && !Bill.IsClaimed(s.bill, s.gen.rows[i].eventId) :: s.gen.rows[i].eventId
  }

  /** Everything pending is charged. */
  ghost predicate ChargesPending(s: State, v: Cursor, s': State, u: Setup) {
    forall i: nat :: Pending(s, v, i, u) ==> IsCharged(s'.bill.submissions, s.gen.rows[i].payload)
  }

  lemma ChargePending(s: State, v: Cursor, u: Setup) returns (run: seq<Action>, s': State, v': Cursor)
    requires Inv(s) && AtCommitted(s, v)
    ensures Gets(s, v, run, s', v', u) && s'.gen == s.gen && Remembers(s.bill, s'.bill)
    ensures ChargesPending(s, v, s', u)
  {
    var ending, s1 := EndLeases(s, v, u);
    var chosen := UnclaimedEvents(s1);
    var charging;
    charging, s', v' := ChargeChosen(s1, v, chosen, u);
    GetsOn(s, v, ending, s1, v, charging, s', v', u);
    run := ending + charging;
    GetsKeepsInv(s, v, run, s', v', u);
    forall i: nat | Pending(s, v, i, u) ensures IsCharged(s'.bill.submissions, s.gen.rows[i].payload) {
      if Bill.IsClaimed(s1.bill, s.gen.rows[i].eventId) {
        ClaimedIsHeard(s1, s.gen.rows[i].eventId);
        StillHeard(s1.bill, s'.bill, s.gen.rows[i].eventId);
      }
      HeardIsCharged(s', i);
    }
  }

  /** Fewer hopeless rows are older than any valid row than the workers can hold together. */
  ghost predicate AllServable(rows: seq<OutboxRow>, u: Setup) {
    forall i: nat :: IsValid(rows, i) ==> Servable(rows, i, u)
  }

  /**
   From every state that the deployed pipeline reaches, and from whatever offset the consumer had
   committed, it can go on so that every chunk is charged whose message is still to be read or can still
   be sent; with the replayer enabled and few hopeless rows, that is every valid chunk.
   */
  lemma NothingIsLost(now: int, interval: int, run: seq<Action>, offset: nat, u: Setup)
      returns (more: seq<Action>, s': State)
    requires DeployedRun(Start(now, interval), BEGINNING, run, u) && offset <= Later(BEGINNING, run).next
    ensures CanRun(Start(now, interval), run)
    ensures var s := Exec(Start(now, interval), run);
      && DeployedRun(s, Later(BEGINNING, run).Restarted(offset), more, u) && CanRun(s, more) && s' == Exec(s, more)
      && s'.gen == s.gen && s.bill.submissions <= s'.bill.submissions
      && ChargesPending(s, Later(BEGINNING, run).Restarted(offset), s', u)
      && (u.replay && AllServable(s.gen.rows, u) ==> Covers(s.gen.rows, s'.bill.submissions))
  {
    DeployedRunIsRun(Start(now, interval), BEGINNING, run, u);
    Reached(now, interval, run);
    CursorInRange(Start(now, interval), BEGINNING, run, u);
    var s, v := Exec(Start(now, interval), run), Later(BEGINNING, run).Restarted(offset);
    var v';
    more, s', v' := ChargePending(s, v, u);
    if u.replay && AllServable(s.gen.rows, u) {
      forall i: nat | IsValid(s.gen.rows, i) ensures IsCharged(s'.bill.submissions, s.gen.rows[i].payload) {
        assert Pending(s, v, i, u);
      }
    }
  }

  // ---------- Exactly what is lost ----------

  /** No lease, no replay and no delivery is under way; messages may still have to be read. */
  ghost predicate Quiet(s: State, v: Cursor) {
    && Cycle.NoneOpenSince(s.pub.leases, 0) && v.round == {} && AtCommitted(s, v)
    && forall k :: 0 <= k < |s.bill.attempts| ==> !MaySubmit(s.bill.attempts[k])
  }

  predicate MaySubmit(t: Bill.Attempt) {
    t.stage == Bill.Begun || t.stage == Bill.Checked
  }

  ghost predicate CanBeHeard(s: State, v: Cursor, e: string, u: Setup) {
    exists more :: IsHeardAfter(s, v, more, e, u)
  }

  ghost predicate IsHeardAfter(s: State, v: Cursor, more: seq<Action>, e: string, u: Setup) {
    DeployedRun(s, v, more, u) && CanRun(s, more) && Heard(Exec(s, more).bill, e)
  }

  /** Row i is behind too many hopeless rows to be leased, or it is recorded and there is no replayer. */
  ghost predicate OutOfReach(s: State, v: Cursor, i: nat, u: Setup) {
    && i < |s.gen.rows|
    && (|| (!u.replay && s.gen.rows[i].eventId in s.pub.processed)
        || (&& Starved(s.gen.rows, i, u) && Small(s.pub.leases, u.limit)
            && Untouched(s.pub, i) && i !in v.round))
  }

  ghost predicate NoneMaySubmit(b: Bill.Bill, e: string) {
    forall k :: 0 <= k < |b.attempts| && b.attempts[k].chunk.eventId == e ==> !MaySubmit(b.attempts[k])
  }

  ghost predicate Silenced(s: State, v: Cursor, i: nat, u: Setup) {
    && OutOfReach(s, v, i, u)
    && var e := s.gen.rows[i].eventId;
       !Unread(s, v, e) && !Heard(s.bill, e) && NoneMaySubmit(s.bill, e)
  }

  /** A worker that is about to send a message for row i holds it. */
  lemma SenderHoldsRow(rows: seq<OutboxRow>, p: Pub.Pub, k: nat, i: nat)
    requires Pub.RowsOk(rows) && Pub.Handling(rows, p, k, Pub.AtSend) && i < |rows|
    ensures Pub.RowAt(rows, p.leases[k]).payload.eventId == rows[i].eventId ==> Pub.Locked(p, i)
  {
    assert p.leases[k].batch[p.leases[k].pos] in p.leases[k].batch;
    assert RowMatchesPayload(Pub.RowAt(rows, p.leases[k]));
  }

  /** No step puts a message for a row on the topic that is out of reach. */
  lemma NotSent(s: State, v: Cursor, p: Pub.Action, i: nat, u: Setup)
    requires Inv(s) && Enabled(s, Publish(p)) && Deployed(s, v, Publish(p), u) && OutOfReach(s, v, i, u)
    ensures var t, t' := s.pub.topic, Next(s, Publish(p)).pub.topic;
      t <= t' && forall n :: |t| <= n < |t'| ==> t'[n].chunk.eventId != s.gen.rows[i].eventId
  {
    var e := s.gen.rows[i].eventId;
    if p.Send? || p.SendFail? {
      SenderHoldsRow(s.gen.rows, s.pub, p.k, i);
      if e in s.pub.processed { Delivery.RecordedStep(s.gen.rows, s.pub, p, e); }
    } else if p.ReplaySend? {
      assert RowMatchesPayload(s.gen.rows[p.i]);
    }
  }

  lemma StaysOutOfReach(s: State, v: Cursor, a: Action, i: nat, u: Setup)
    requires Inv(s) && Enabled(s, a) && Deployed(s, v, a, u) && OutOfReach(s, v, i, u)
    ensures OutOfReach(Next(s, a), After(v, a), i, u)
    ensures Next(s, a).gen.rows[i] == s.gen.rows[i]
  {
    if a.Produce? { RowsGrow(s.gen, a.g); }
    if Starved(s.gen.rows, i, u) && Small(s.pub.leases, u.limit) && Untouched(s.pub, i) && i !in v.round {
      StarvedPipelineStep(s, a, u, i);
    } else if a.Publish? {
      Delivery.RecordedStep(s.gen.rows, s.pub, a.p, s.gen.rows[i].eventId);
    }
  }

  lemma NotHeardYet(topic: seq<Bill.Message>, b: Bill.Bill, a: Bill.Action, e: string)
    requires Bill.Inv(topic, b) && Bill.Enabled(topic, b, a) && !Heard(b, e) && NoneMaySubmit(b, e)
    requires a.Deliver? ==> topic[a.n].chunk.eventId != e
    ensures var b' := Bill.Next(topic, b, a); !Heard(b', e) && NoneMaySubmit(b', e)
  {
    var b' := Bill.Next(topic, b, a);
    forall m: nat ensures !HeardAt(b', m, e) {
      if m < |b.submissions| {
        assert Bill.SubmissionOk(b, b.submissions[m]) && !HeardAt(b, m, e);
      }
    }
  }

  lemma SilencedStep(s: State, v: Cursor, a: Action, i: nat, u: Setup)
    requires Inv(s) && Enabled(s, a) && Deployed(s, v, a, u) && Silenced(s, v, i, u)
    ensures Silenced(Next(s, a), After(v, a), i, u)
  {
    StaysOutOfReach(s, v, a, i, u);
    match a
    case Produce(_) =>
    case Publish(p) => NotSent(s, v, p, i, u);
    case Charge(b) => NotHeardYet(s.pub.topic, s.bill, b, s.gen.rows[i].eventId);
  }

  lemma {:induction false} SilencedForever(s: State, v: Cursor, run: seq<Action>, i: nat, u: Setup)
    requires Inv(s) && DeployedRun(s, v, run, u) && CanRun(s, run) && Silenced(s, v, i, u)
    ensures i < |s.gen.rows| && !Heard(Exec(s, run).bill, s.gen.rows[i].eventId)
    decreases |run|
  {
    if run != [] {
      StaysOutOfReach(s, v, run[0], i, u);
      SilencedStep(s, v, run[0], i, u);
      StepKeepsInv(s, run[0]);
      SilencedForever(Next(s, run[0]), After(v, run[0]), run[1..], i, u);
    }
  }

  lemma NothingLocked(p: Pub.Pub, i: nat)
    requires Cycle.NoneOpenSince(p.leases, 0)
    ensures !Pub.Locked(p, i)
  {
  }

  /**
   For every state with nothing under way and every valid chunk that no submission was made for: the
   deployed pipeline can still charge it if and only if a message for it is still to be read or can
   still be sent.
   */
  lemma LostExactly(s: State, v: Cursor, i: nat, u: Setup)
    requires Inv(s) && Quiet(s, v) && IsValid(s.gen.rows, i) && !Heard(s.bill, s.gen.rows[i].eventId)
    ensures CanBeHeard(s, v, s.gen.rows[i].eventId, u) <==> Pending(s, v, i, u)
  {
    var e := s.gen.rows[i].eventId;
    if Pending(s, v, i, u) {
      if Bill.IsClaimed(s.bill, e) { ClaimedIsHeard(s, e); }
      var more, s', v' := ChargeChosen(s, v, {e}, u);
      assert IsHeardAfter(s, v, more, e, u);
    } else {
      NothingLocked(s.pub, i);
      assert Silenced(s, v, i, u);
      forall more | IsHeardAfter(s, v, more, e, u) ensures false {
        SilencedForever(s, v, more, i, u);
      }
    }
  }

  // ---------- Sessions billed exactly ----------

  /** Each valid chunk of the session is charged or can still be. */
  predicate Recoverable(s: State, v: Cursor, id: string, u: Setup) {
    forall i :: 0 <= i < |s.gen.rows| && s.gen.rows[i].sessionId == id && IsValid(s.gen.rows, i) ==>
      IsCharged(s.bill.submissions, s.gen.rows[i].payload) || Pending(s, v, i, u)
  }

  /** The ledger charges the session last_billed_at - start_at. */
  ghost predicate BilledExactly(s: State, id: string) {
    && id in s.gen.sessions && s.gen.sessions[id].lastBilledAt.Some?
    && LedgerLength(Kept(s.bill.submissions), id) == s.gen.sessions[id].lastBilledAt.value - s.gen.sessions[id].startAt
  }

  lemma StillCharged(subs: seq<Bill.Submission>, subs': seq<Bill.Submission>, c: Chunk)
    requires subs <= subs' && IsCharged(subs, c)
    ensures IsCharged(subs', c)
  {
    var n :| 0 <= n < |subs| && subs[n].usage.transactionId == KeyOf(c);
    assert subs'[n] == subs[n];
  }

  lemma AllRecovered(s: State, v: Cursor, s': State, id: string, u: Setup)
    requires OrderlyInv(s') && s'.gen == s.gen && id in s.gen.sessions && s.bill.submissions <= s'.bill.submissions
    requires ChargesPending(s, v, s', u) && Recoverable(s, v, id, u) && Forward(s.gen.rows, id) && Named(s.gen.rows, id)
    ensures BilledExactly(s', id)
  {
    var rows := s.gen.rows;
    forall i | 0 <= i < |rows| && rows[i].sessionId == id && rows[i].payload.from < rows[i].payload.to
      ensures IsCharged(s'.bill.submissions, rows[i].payload)
    {
      if IsCharged(s.bill.submissions, rows[i].payload) {
        StillCharged(s.bill.submissions, s'.bill.submissions, rows[i].payload);
      }
    }
    LedgerAddsUpAt(s', id);
    UnchargedIsPositive(rows, s'.bill.submissions, id);
  }

  lemma OrderlyAfter(s: State, more: seq<Action>)
    requires OrderlyInv(s) && CanRun(s, more) && Exec(s, more).gen == s.gen
    ensures OrderlyInv(Exec(s, more))
  {
    RunKeepsInv(s, more);
  }

  /**
   Without stale commits the deployed pipeline can go on, from every state it reaches, so that every
   session is charged exactly what it was billed whose chunks are in order, named, and charged already
   or still to be sent.
   */
  lemma CompletionBillsExactly(now: int, interval: int, run: seq<Action>, offset: nat, u: Setup)
      returns (more: seq<Action>, s': State)
    requires OrderlyRun(Start(now, interval), run) && DeployedRun(Start(now, interval), BEGINNING, run, u)
    requires offset <= Later(BEGINNING, run).next
    ensures CanRun(Start(now, interval), run)
    ensures var s := Exec(Start(now, interval), run);
      && DeployedRun(s, Later(BEGINNING, run).Restarted(offset), more, u) && CanRun(s, more) && s' == Exec(s, more)
      && s'.gen == s.gen
      && forall id :: (&& id in s.gen.sessions && Recoverable(s, Later(BEGINNING, run).Restarted(offset), id, u)
                       && Forward(s.gen.rows, id) && Named(s.gen.rows, id)) ==> BilledExactly(s', id)
  {
    StartIsOrderly(now, interval);
    OrderlyRunKeeps(Start(now, interval), run);
    var s, v := Exec(Start(now, interval), run), Later(BEGINNING, run).Restarted(offset);
    more, s' := NothingIsLost(now, interval, run, offset, u);
    OrderlyAfter(s, more);
    forall id | id in s.gen.sessions && Recoverable(s, v, id, u) && Forward(s.gen.rows, id) && Named(s.gen.rows, id)
      ensures BilledExactly(s', id)
    {
      AllRecovered(s, v, s', id, u);
    }
  }

  /** Without further chunks, the deployed pipeline can charge the session exactly what it was billed. */
  ghost predicate CanBillExactly(s: State, v: Cursor, id: string, u: Setup) {
    exists more :: BillsExactly(s, v, more, id, u)
  }

  ghost predicate BillsExactly(s: State, v: Cursor, more: seq<Action>, id: string, u: Setup) {
    DeployedRun(s, v, more, u) && CanRun(s, more) && Exec(s, more).gen == s.gen && BilledExactly(Exec(s, more), id)
  }

  /** With distinct keys only a submission for its own event charges a row. */
  lemma ChargedIsHeard(s: State, i: nat)
    requires OrderlyInv(s) && i < |s.gen.rows| && IsCharged(s.bill.submissions, s.gen.rows[i].payload)
    ensures Heard(s.bill, s.gen.rows[i].eventId)
  {
    var m: nat :| m < |s.bill.submissions| && s.bill.submissions[m].usage.transactionId == KeyOf(s.gen.rows[i].payload);
    var j := SubmittedRow(s, m);
    OrderlyFacts(s);
    KeysAreTransactionIds(s.gen.rows);
    assert j == i;
  }

  lemma OnlyRecoverable(s: State, v: Cursor, more: seq<Action>, id: string, i: nat, u: Setup)
    requires OrderlyInv(s) && Quiet(s, v) && BillsExactly(s, v, more, id, u) && Forward(s.gen.rows, id)
    requires IsValid(s.gen.rows, i) && s.gen.rows[i].sessionId == id
    ensures IsCharged(s.bill.submissions, s.gen.rows[i].payload) || Pending(s, v, i, u)
  {
    var s' := Exec(s, more);
    OrderlyAfter(s, more);
    LedgerAddsUpAt(s', id);
    UnchargedIsPositive(s'.gen.rows, s'.bill.submissions, id);
    ChargedIsHeard(s', i);
    if Heard(s.bill, s.gen.rows[i].eventId) {
      HeardIsCharged(s, i);
    } else {
      assert IsHeardAfter(s, v, more, s.gen.rows[i].eventId, u);
      LostExactly(s, v, i, u);
    }
  }

  /**
   For every run without stale commits that ends with nothing under way: a session whose chunks are in
   order and named can still be charged exactly what it was billed if and only if each valid chunk of
   it is charged or can still be sent.
   */
  lemma BillableExactly(now: int, interval: int, run: seq<Action>, v: Cursor, id: string, u: Setup)
    requires OrderlyRun(Start(now, interval), run)
    ensures CanRun(Start(now, interval), run)
    ensures var s := Exec(Start(now, interval), run);
      Quiet(s, v) && id in s.gen.sessions && Forward(s.gen.rows, id) && Named(s.gen.rows, id) ==>
        (CanBillExactly(s, v, id, u) <==> Recoverable(s, v, id, u))
  {
    StartIsOrderly(now, interval);
    OrderlyRunKeeps(Start(now, interval), run);
    var s := Exec(Start(now, interval), run);
    if Quiet(s, v) && id in s.gen.sessions && Forward(s.gen.rows, id) && Named(s.gen.rows, id) {
      if CanBillExactly(s, v, id, u) {
        var more :| BillsExactly(s, v, more, id, u);
        forall i | 0 <= i < |s.gen.rows| && s.gen.rows[i].sessionId == id && IsValid(s.gen.rows, i)
          ensures IsCharged(s.bill.submissions, s.gen.rows[i].payload) || Pending(s, v, i, u)
        {
          OnlyRecoverable(s, v, more, id, i, u);
        }
      }
      if Recoverable(s, v, id, u) {
        var more, s', v' := ChargePending(s, v, u);
        OrderlyAfter(s, more);
        AllRecovered(s, v, s', id, u);
        assert BillsExactly(s, v, more, id, u);
      }
    }
  }

  // ---------- A chunk that is lost ----------

  const EMPTY: Chunk := Chunk("e", "s", "b", "o", 1, 10, 10)
  const VALID: Chunk := Chunk("f", "t", "b", "o", 1, 0, 11)

  /** One session is finished in the tick of its creation, another later on. */
  function Sessions(): seq<Gen.Action> {
    ([Gen.CreateSession("s", "b", "o", None)] + Tiling.ChunkRun(Gen.Finisher, "s", "e", 10, 10)) +
    ([Gen.CreateSession("t", "b", "o", Some(0))] + Tiling.ChunkRun(Gen.Finisher, "t", "f", 11, 11))
  }

  function TwoRows(): seq<OutboxRow> {
    [Gen.RowFor(EMPTY, 10), Gen.RowFor(VALID, 11)]
  }

  /** A session created and finished with no other window open. */
  lemma CreateAndFinish(g: Gen.Gen, id: string, startAt: Option<int>, eventId: string, t: int)
    requires g.windows == map[] && id !in g.sessions && !EventIdTaken(g.rows, eventId)
    ensures var run := [Gen.CreateSession(id, "b", "o", startAt)] + Tiling.ChunkRun(Gen.Finisher, id, eventId, t, t);
      var start := if startAt.Some? then startAt.value else g.now;
      && Gen.CanRun(g, run)
      && var g' := Gen.Exec(g, run);
         && g'.windows == map[] && g'.sessions.Keys == g.sessions.Keys + {id}
         && g'.rows == g.rows + [Gen.RowFor(Chunk(eventId, id, "b", "o", 1, start, t), t)]
  {
    var a := Gen.CreateSession(id, "b", "o", startAt);
    var g1 := Gen.Next(g, a);
    Tiling.ChunkRunSerial(g1, Gen.Finisher, id, eventId, t, t);
    Gen.Prepend(g, a, Tiling.ChunkRun(Gen.Finisher, id, eventId, t, t), g1);
  }

  lemma SessionsRun()
    ensures Gen.CanRun(Gen.Initial(10, 5), Sessions())
    ensures Gen.Exec(Gen.Initial(10, 5), Sessions()).rows == TwoRows()
  {
    var first := [Gen.CreateSession("s", "b", "o", None)] + Tiling.ChunkRun(Gen.Finisher, "s", "e", 10, 10);
    var second := [Gen.CreateSession("t", "b", "o", Some(0))] + Tiling.ChunkRun(Gen.Finisher, "t", "f", 11, 11);
    CreateAndFinish(Gen.Initial(10, 5), "s", None, "e", 10);
    var g := Gen.Exec(Gen.Initial(10, 5), first);
    CreateAndFinish(g, "t", Some(0), "f", 11);
    Gen.RunsCompose(Gen.Initial(10, 5), first, second);
  }

  lemma EmptyIsOlder()
    ensures IsValid(TwoRows(), 1) && OlderHopeless(TwoRows(), 1) == {0} && TwoRows()[1].eventId == "f"
  {
  }

  /** Before the publisher and the processor start, a starved row is lost. */
  lemma StarvedIsLost(s: State, i: nat, u: Setup)
    requires Inv(s) && s.pub == Pub.IDLE && s.bill == Bill.UNBILLED
    requires IsValid(s.gen.rows, i) && !Servable(s.gen.rows, i, u)
    ensures !CanBeLeased(s, BEGINNING, i, u) && !CanBeHeard(s, BEGINNING, s.gen.rows[i].eventId, u)
  {
    LeasableExactly(s, BEGINNING, i, u);
    LostExactly(s, BEGINNING, i, u);
  }

  /** With batches of one and one worker, the second session's valid chunk is never leased and never charged. */
  lemma ValidRowStarves(u: Setup)
    requires u.limit == 1 && u.workers == 1
    ensures CanRun(Start(10, 5), Produced(Sessions()))
    ensures var s := Exec(Start(10, 5), Produced(Sessions()));
      && s.gen.rows == TwoRows() && IsValid(TwoRows(), 1)
      && !CanBeLeased(s, BEGINNING, 1, u) && !CanBeHeard(s, BEGINNING, "f", u)
  {
    SessionsRun();
    EmptyIsOlder();
    ProducedRuns(Start(10, 5), Sessions());
    Reached(10, 5, Produced(Sessions()));
    StarvedIsLost(Exec(Start(10, 5), Produced(Sessions())), 1, u);
  }
}
