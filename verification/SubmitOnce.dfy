/**
 Exactly when an event is submitted to Metronome at most once: when no attempt passes its check while
 another attempt on the same event has passed or has submitted. UNIQUE (event_id) does not see to that.
 */
module SubmitOnce {
  import opened Model
  import opened Billing
  import Pipeline

  /** The attempt has submitted, whatever became of it since, or is about to. */
  ghost predicate Live(b: Bill, k: nat) {
    AtStage(b, k, Checked) || SubmittedBy(b, k)
  }

  predicate SameEvent(b: Bill, j: nat, k: nat) {
    j < |b.attempts| && k < |b.attempts| && b.attempts[j].chunk.eventId == b.attempts[k].chunk.eventId
  }

  /** No other attempt on the event of attempt k is live. */
  ghost predicate Unrivalled(b: Bill, k: nat) {
    forall j: nat {:trigger SameEvent(b, j, k)} :: j != k && SameEvent(b, j, k) ==> !Live(b, j)
  }

  ghost predicate OneLive(b: Bill) {
    forall k: nat {:trigger Live(b, k)} :: k < |b.attempts| && Live(b, k) ==> Unrivalled(b, k)
  }

  ghost predicate Guarded(b: Bill, a: Action) {
    a.CheckMiss? ==> Unrivalled(b, a.k)
  }

  /** No two submissions are for the same event. */
  ghost predicate SubmittedOnce(b: Bill) {
    forall i, j :: 0 <= i < j < |b.submissions| ==> !SameEvent(b, b.submissions[i].attempt, b.submissions[j].attempt)
  }

  lemma LiveBefore(topic: seq<Message>, b: Bill, a: Action, j: nat)
    requires Inv(topic, b) && Enabled(topic, b, a) && Live(Next(topic, b, a), j)
    requires !(a.CheckMiss? && a.k == j)
    ensures Live(b, j)
  {
    var b' := Next(topic, b, a);
    if SubmittedBy(b', j) {
      var i :| 0 <= i < |b'.submissions| && b'.submissions[i].attempt == j;
      if i < |b.submissions| { assert b.submissions[i].attempt == j; }
    }
  }

  lemma LiveAfter(topic: seq<Message>, b: Bill, a: Action, j: nat)
    requires Enabled(topic, b, a) && Live(b, j)
    ensures a.Die? || Live(Next(topic, b, a), j)
  {
    var b' := Next(topic, b, a);
    StillSubmitted(b, b', j);
    if a.Submit? && a.k == j { assert b'.submissions[|b.submissions|].attempt == j; }
  }

  lemma LiveHasStarted(topic: seq<Message>, b: Bill, j: nat)
    requires Inv(topic, b) && Live(b, j)
    ensures j < |b.attempts|
  {
    if SubmittedBy(b, j) {
      var i :| 0 <= i < |b.submissions| && b.submissions[i].attempt == j;
      assert SubmissionOk(b, b.submissions[i]);
    }
  }

  lemma NoRival(topic: seq<Message>, b: Bill, a: Action, k: nat, j: nat)
    requires Inv(topic, b) && OneLive(b) && Enabled(topic, b, a) && Guarded(b, a)
    requires Live(Next(topic, b, a), k) && j != k && SameEvent(Next(topic, b, a), j, k)
    ensures !Live(Next(topic, b, a), j)
  {
    if Live(Next(topic, b, a), j) {
      if !(a.CheckMiss? && a.k == k) {
        LiveBefore(topic, b, a, k);
        LiveHasStarted(topic, b, k);
      }
      if !(a.CheckMiss? && a.k == j) {
        LiveBefore(topic, b, a, j);
        LiveHasStarted(topic, b, j);
      }
      EventsAreSymmetric(b, j, k);
    }
  }

  lemma EventsAreSymmetric(b: Bill, j: nat, k: nat)
    ensures SameEvent(b, j, k) <==> SameEvent(b, k, j)
  {
  }

  /** A guarded step leaves at most one live attempt per event. */
  lemma GuardedStep(topic: seq<Message>, b: Bill, a: Action)
    requires Inv(topic, b) && OneLive(b) && Enabled(topic, b, a) && Guarded(b, a)
    ensures OneLive(Next(topic, b, a))
  {
    var b' := Next(topic, b, a);
    forall k: nat, j: nat | k < |b'.attempts| && Live(b', k) && j != k && SameEvent(b', j, k) ensures !Live(b', j) {
      NoRival(topic, b, a, k, j);
    }
  }

  lemma OneLiveSubmitsOnce(topic: seq<Message>, b: Bill)
    requires Inv(topic, b) && OneLive(b)
    ensures SubmittedOnce(b)
  {
    forall i, j | 0 <= i < j < |b.submissions| ensures !SameEvent(b, b.submissions[i].attempt, b.submissions[j].attempt) {
      var x, y := b.submissions[i].attempt, b.submissions[j].attempt;
      assert SubmittedBy(b, x) && SubmittedBy(b, y) && x != y;
      assert Live(b, x) && Live(b, y);
      LiveHasStarted(topic, b, y);
    }
  }

  // ---------- Runs of the whole pipeline ----------

  ghost predicate GuardedRun(s: Pipeline.State, run: seq<Pipeline.Action>)
    requires Pipeline.CanRun(s, run)
    decreases |run|
  {
    run == [] ||
    ((run[0].Charge? ==> Guarded(s.bill, run[0].b)) && GuardedRun(Pipeline.Next(s, run[0]), run[1..]))
  }

  lemma {:induction false} GuardedRunKeeps(s: Pipeline.State, run: seq<Pipeline.Action>)
    requires Pipeline.Inv(s) && OneLive(s.bill) && Pipeline.CanRun(s, run) && GuardedRun(s, run)
    ensures Pipeline.Inv(Pipeline.Exec(s, run)) && OneLive(Pipeline.Exec(s, run).bill)
    decreases |run|
  {
    if run != [] {
      if run[0].Charge? { GuardedStep(s.pub.topic, s.bill, run[0].b); }
      Pipeline.StepKeepsInv(s, run[0]);
      GuardedRunKeeps(Pipeline.Next(s, run[0]), run[1..]);
    }
  }

  /** Every run of the pipeline whose checks are all guarded submits each event at most once. */
  lemma GuardedRunsSubmitOnce(now: int, interval: int, run: seq<Pipeline.Action>)
    requires Pipeline.CanRun(Pipeline.Start(now, interval), run) && GuardedRun(Pipeline.Start(now, interval), run)
    ensures SubmittedOnce(Pipeline.Exec(Pipeline.Start(now, interval), run).bill)
  {
    Pipeline.StartIsOrderly(now, interval);
    GuardedRunKeeps(Pipeline.Start(now, interval), run);
    var s := Pipeline.Exec(Pipeline.Start(now, interval), run);
    OneLiveSubmitsOnce(s.pub.topic, s.bill);
  }

  // ---------- The converse ----------

  /** A live attempt has submitted or can do so at once, and stays what it is. */
  lemma FinishSubmitting(topic: seq<Message>, b: Bill, k: nat) returns (run: seq<Action>)
    requires Inv(topic, b) && Live(b, k)
    ensures CanRun(topic, b, run) && NoChecks(run)
    ensures var b' := Exec(topic, b, run);
      && Inv(topic, b') && SubmittedBy(b', k)
      && (forall j :: Live(b, j) ==> Live(b', j))
      && |b'.attempts| == |b.attempts| && forall j :: 0 <= j < |b.attempts| ==> b'.attempts[j].chunk == b.attempts[j].chunk
  {
    if SubmittedBy(b, k) {
      run := [];
    } else {
      var a := Submit(k, true);
      var b' := Next(topic, b, a);
      run := [a];
      Prepend(topic, b, a, [], b');
      assert [a] + [] == [a];
      StepKeepsInv(topic, b, a);
      assert b'.submissions[|b.submissions|].attempt == k;
      forall j | Live(b, j) ensures Live(b', j) { LiveAfter(topic, b, a, j); }
    }
  }

  predicate NoChecks(run: seq<Action>) {
    forall i :: 0 <= i < |run| ==> !run[i].CheckMiss?
  }

  /** Two live attempts on one event: both can submit, without any further check. */
  lemma RivalsSubmitTwice(topic: seq<Message>, b: Bill, j: nat, k: nat) returns (run: seq<Action>)
    requires Inv(topic, b) && j != k && SameEvent(b, j, k) && Live(b, j) && Live(b, k)
    ensures CanRun(topic, b, run) && NoChecks(run) && !SubmittedOnce(Exec(topic, b, run))
  {
    var first := FinishSubmitting(topic, b, j);
    var b1 := Exec(topic, b, first);
    var second := FinishSubmitting(topic, b1, k);
    var b2 := Exec(topic, b1, second);
    RunsCompose(topic, b, first, second);
    run := first + second;
    SubmissionsGrow(topic, b1, second);
    StillSubmitted(b1, b2, j);
  }

  lemma {:induction false} SubmissionsGrow(topic: seq<Message>, b: Bill, run: seq<Action>)
    requires CanRun(topic, b, run)
    ensures b.submissions <= Exec(topic, b, run).submissions
    decreases |run|
  {
    if run != [] { SubmissionsGrow(topic, Next(topic, b, run[0]), run[1..]); }
  }

  // ---------- Both directions ----------

  predicate Unchecked(run: seq<Pipeline.Action>) {
    forall i :: 0 <= i < |run| && run[i].Charge? ==> !run[i].b.CheckMiss?
  }

  /** Some event could be submitted a second time without another check. */
  ghost predicate CanSubmitTwice(s: Pipeline.State) {
    exists more :: SubmitsTwice(s, more)
  }

  ghost predicate SubmitsTwice(s: Pipeline.State, more: seq<Pipeline.Action>) {
    Pipeline.CanRun(s, more) && Unchecked(more) && !SubmittedOnce(Pipeline.Exec(s, more).bill)
  }

  lemma {:induction false} UncheckedIsGuarded(s: Pipeline.State, run: seq<Pipeline.Action>)
    requires Pipeline.CanRun(s, run) && Unchecked(run)
    ensures GuardedRun(s, run)
    decreases |run|
  {
    if run != [] {
      assert Unchecked(run[1..]);
      UncheckedIsGuarded(Pipeline.Next(s, run[0]), run[1..]);
    }
  }

  lemma {:induction false} ChargedIsUnchecked(run: seq<Action>)
    requires NoChecks(run)
    ensures Unchecked(Pipeline.Charged(run))
    decreases |run|
  {
    if run != [] {
      assert NoChecks(run[1..]);
      ChargedIsUnchecked(run[1..]);
    }
  }

  lemma OneLiveExactly(s: Pipeline.State)
    requires Pipeline.Inv(s)
    ensures OneLive(s.bill) <==> !CanSubmitTwice(s)
  {
    if OneLive(s.bill) {
      forall more | SubmitsTwice(s, more) ensures false {
        UncheckedIsGuarded(s, more);
        GuardedRunKeeps(s, more);
        var s' := Pipeline.Exec(s, more);
        OneLiveSubmitsOnce(s'.pub.topic, s'.bill);
      }
    } else {
      var k: nat :| k < |s.bill.attempts| && Live(s.bill, k) && !Unrivalled(s.bill, k);
      var j: nat :| j != k && SameEvent(s.bill, j, k) && Live(s.bill, j);
      var more := RivalsSubmitTwice(s.pub.topic, s.bill, j, k);
      ChargedIsUnchecked(more);
      Pipeline.ChargedRuns(s, more);
      assert SubmitsTwice(s, Pipeline.Charged(more));
    }
  }

  /** From every state with the invariant: a check taken against a rival can be followed by a second submission. */
  lemma UnguardedCheckSubmitsTwice(s: Pipeline.State, k: nat)
    requires Pipeline.Inv(s) && Enabled(s.pub.topic, s.bill, CheckMiss(k)) && !Guarded(s.bill, CheckMiss(k))
    ensures CanSubmitTwice(Pipeline.Next(s, Pipeline.Charge(CheckMiss(k))))
  {
    var s' := Pipeline.Next(s, Pipeline.Charge(CheckMiss(k)));
    var j: nat :| j != k && SameEvent(s.bill, j, k) && Live(s.bill, j);
    Pipeline.StepKeepsInv(s, Pipeline.Charge(CheckMiss(k)));
    LiveAfter(s.pub.topic, s.bill, CheckMiss(k), j);
    assert Live(s'.bill, k) && SameEvent(s'.bill, j, k);
    OneLiveExactly(s');
  }

  ghost predicate SafeThroughout(s: Pipeline.State, run: seq<Pipeline.Action>)
    requires Pipeline.CanRun(s, run)
    decreases |run|
  {
    !CanSubmitTwice(s) && (run == [] || SafeThroughout(Pipeline.Next(s, run[0]), run[1..]))
  }

  lemma {:induction false} SafeThroughoutExactly(s: Pipeline.State, run: seq<Pipeline.Action>)
    requires Pipeline.Inv(s) && OneLive(s.bill) && Pipeline.CanRun(s, run)
    ensures SafeThroughout(s, run) <==> GuardedRun(s, run)
    decreases |run|
  {
    OneLiveExactly(s);
    if run != [] {
      var s' := Pipeline.Next(s, run[0]);
      Pipeline.StepKeepsInv(s, run[0]);
      OneLiveExactly(s');
      if run[0].Charge? ==> Guarded(s.bill, run[0].b) {
        if run[0].Charge? { GuardedStep(s.pub.topic, s.bill, run[0].b); }
        SafeThroughoutExactly(s', run[1..]);
      } else {
        UnguardedCheckSubmitsTwice(s, run[0].b.k);
      }
    }
  }

  /** For every run of the pipeline: it is never on its way to a second submission exactly when all its checks are guarded. */
  lemma SubmittedOnceExactly(now: int, interval: int, run: seq<Pipeline.Action>)
    requires Pipeline.CanRun(Pipeline.Start(now, interval), run)
    ensures SafeThroughout(Pipeline.Start(now, interval), run) <==> GuardedRun(Pipeline.Start(now, interval), run)
  {
    Pipeline.StartIsOrderly(now, interval);
    SafeThroughoutExactly(Pipeline.Start(now, interval), run);
  }

  // ---------- Two runs that submit twice ----------

  /**
   Two deliveries that both check before either claims: the same usage reaches Metronome twice. Messages
   are keyed by sandbox, so that one consumer reads all of an event's; the deliveries overlap when its
   partition passes to another consumer meanwhile.
   */
  function RacingDeliveries(): seq<Action> {
    [Deliver(0), Deliver(0), CheckMiss(0), CheckMiss(1), Submit(0, true), Submit(1, true)]
  }

  lemma RaceSubmitsTwice(m: Message)
    ensures CanRun([m], UNBILLED, RacingDeliveries())
    ensures var subs := Exec([m], UNBILLED, RacingDeliveries()).submissions;
      subs == [Submission(BuildUsage(m.chunk), 0), Submission(BuildUsage(m.chunk), 1)]
  {
  }

  /** One delivery after the other is no help: the first dies after submitting, the second submits again. */
  function DyingDelivery(): seq<Action> {
    [Deliver(0), CheckMiss(0), Submit(0, true), Die(0), Deliver(0), CheckMiss(1), Submit(1, true)]
  }

  lemma DyingDeliverySubmitsTwice(m: Message)
    ensures CanRun([m], UNBILLED, DyingDelivery())
    ensures Exec([m], UNBILLED, DyingDelivery()).submissions == [Submission(BuildUsage(m.chunk), 0), Submission(BuildUsage(m.chunk), 1)]
  {
  }
}
