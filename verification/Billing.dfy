/**
 The billing processor as a state machine. Deliveries of topic messages are arbitrary: any message
 may be delivered any number of times, concurrently, or never. An attempt checks, submits to
 Metronome, announces, claims under UNIQUE (event_id) and commits; it may die at any point.
 `clock` counts steps, so that "before" can be said.
 */
module Billing {
  import opened Model
  import Publishing
  import TransactionId

  type Message = Publishing.Message

  datatype Stage = Begun | Checked | Submitted | Announced | Claiming | Claimed | Ended

  /** One run of ProcessBillingChunk; checkedAt is the step of its idempotency check. */
  datatype Attempt = Attempt(chunk: ChunkMessage, stage: Stage, checkedAt: nat)

  /** A row of processed_billing_events, with the attempt and the step that committed it. */
  datatype Claim = Claim(
    eventId: string, sessionId: string, sequence: int, transactionId: string,
    attempt: nat, committedAt: nat)

  /** What Metronome receives. */
  datatype Usage = Usage(
    transactionId: string, customerId: string, timestamp: int,
    sessionId: string, sandboxId: string, sequence: int, from: int, to: int)
  {
    function Length(): int { to - from }
  }

  datatype Submission = Submission(usage: Usage, attempt: nat)

  /** A message on the billing-processed topic. */
  datatype Notice = Notice(
    eventId: string, sessionId: string, sequence: int, metronomeId: string, organizationId: string,
    attempt: nat)

  datatype Bill = Bill(
    clock: nat, attempts: seq<Attempt>, claims: seq<Claim>,
    submissions: seq<Submission>, notices: seq<Notice>)

  datatype Action =
    | Deliver(n: nat)
    | CheckHit(k: nat)
    | CheckMiss(k: nat)
    | Submit(k: nat, acknowledged: bool)
    | Announce(k: nat, acknowledged: bool)
    | Insert(k: nat)
    | InsertConflict(k: nat)
    | Commit(k: nat)
    | Die(k: nat)

  const UNBILLED: Bill := Bill(0, [], [], [], [])

  function BuildUsage(m: ChunkMessage): Usage {
    Usage(TransactionId.Make(m.sessionId, m.sequence), m.organizationId, m.to,
          m.sessionId, m.sandboxId, m.sequence, m.from, m.to)
  }

  function NoticeFor(m: ChunkMessage, k: nat): Notice {
    Notice(m.eventId, m.sessionId, m.sequence, BuildUsage(m).transactionId, m.organizationId, k)
  }

  function ClaimFor(m: ChunkMessage, k: nat, at: nat): Claim {
    Claim(m.eventId, m.sessionId, m.sequence, TransactionId.Make(m.sessionId, m.sequence), k, at)
  }

  predicate IsClaimed(b: Bill, e: string) {
    exists i :: 0 <= i < |b.claims| && b.claims[i].eventId == e
  }

  predicate AtStage(b: Bill, k: nat, stage: Stage) {
    k < |b.attempts| && b.attempts[k].stage == stage
  }

  /** Another open transaction has inserted the same event id: the insert must wait. */
  predicate ClaimingElsewhere(b: Bill, k: nat, e: string) {
    exists j :: 0 <= j < |b.attempts| && j != k && b.attempts[j].stage == Claiming && b.attempts[j].chunk.eventId == e
  }

  predicate Enabled(topic: seq<Message>, b: Bill, a: Action) {
    match a
    case Deliver(n) => n < |topic|
    case CheckHit(k) => AtStage(b, k, Begun) && IsClaimed(b, b.attempts[k].chunk.eventId)
    case CheckMiss(k) => AtStage(b, k, Begun) && !IsClaimed(b, b.attempts[k].chunk.eventId)
    case Submit(k, _) => AtStage(b, k, Checked)
    case Announce(k, _) => AtStage(b, k, Submitted)
    case Insert(k) =>
      && AtStage(b, k, Announced)
      && !IsClaimed(b, b.attempts[k].chunk.eventId)
      && !ClaimingElsewhere(b, k, b.attempts[k].chunk.eventId)
    case InsertConflict(k) => AtStage(b, k, Announced) && IsClaimed(b, b.attempts[k].chunk.eventId)
    case Commit(k) => AtStage(b, k, Claiming)
    case Die(k) => k < |b.attempts| && b.attempts[k].stage != Claimed && b.attempts[k].stage != Ended
  }

  function SetStage(b: Bill, k: nat, stage: Stage): Bill
    requires k < |b.attempts|
  {
    b.(clock := b.clock + 1, attempts := b.attempts[k := b.attempts[k].(stage := stage)])
  }

  function Next(topic: seq<Message>, b: Bill, a: Action): Bill
    requires Enabled(topic, b, a)
  {
    match a
    case Deliver(n) =>
      b.(clock := b.clock + 1, attempts := b.attempts + [Attempt(topic[n].chunk, Begun, 0)])
    case CheckHit(k) => SetStage(b, k, Ended)
    case CheckMiss(k) =>
      b.(clock := b.clock + 1,
         attempts := b.attempts[k := b.attempts[k].(stage := Checked, checkedAt := b.clock)])
    case Submit(k, acknowledged) =>
      SetStage(b, k, if acknowledged then Submitted else Ended).(
        submissions := b.submissions + [Submission(BuildUsage(b.attempts[k].chunk), k)])
    case Announce(k, acknowledged) =>
      SetStage(b, k, if acknowledged then Announced else Ended).(
        notices := b.notices + [NoticeFor(b.attempts[k].chunk, k)])
    case Insert(k) => SetStage(b, k, Claiming)
    case InsertConflict(k) => SetStage(b, k, Ended)
    case Commit(k) =>
      SetStage(b, k, Claimed).(claims := b.claims + [ClaimFor(b.attempts[k].chunk, k, b.clock)])
    case Die(k) => SetStage(b, k, Ended)
  }

  predicate CanRun(topic: seq<Message>, b: Bill, run: seq<Action>)
    decreases |run|
  {
    run == [] || (Enabled(topic, b, run[0]) && CanRun(topic, Next(topic, b, run[0]), run[1..]))
  }

  function Exec(topic: seq<Message>, b: Bill, run: seq<Action>): Bill
    requires CanRun(topic, b, run)
    decreases |run|
  {
    if run == [] then b else Exec(topic, Next(topic, b, run[0]), run[1..])
  }

  lemma Prepend(topic: seq<Message>, b: Bill, a: Action, rest: seq<Action>, b': Bill)
    requires Enabled(topic, b, a) && Next(topic, b, a) == b' && CanRun(topic, b', rest)
    ensures CanRun(topic, b, [a] + rest) && Exec(topic, b, [a] + rest) == Exec(topic, b', rest)
  {
  }

  lemma {:induction false} RunsCompose(topic: seq<Message>, b: Bill, first: seq<Action>, second: seq<Action>)
    requires CanRun(topic, b, first) && CanRun(topic, Exec(topic, b, first), second)
    ensures CanRun(topic, b, first + second)
    ensures Exec(topic, b, first + second) == Exec(topic, Exec(topic, b, first), second)
    decreases |first|
  {
    if first == [] {
      assert first + second == second;
    } else {
      SplitFirst(first, second);
      RunsCompose(topic, Next(topic, b, first[0]), first[1..], second);
    }
  }

  lemma RunAppend(topic: seq<Message>, b: Bill, run: seq<Action>, a: Action)
    requires CanRun(topic, b, run) && Enabled(topic, Exec(topic, b, run), a)
    ensures CanRun(topic, b, run + [a])
    ensures Exec(topic, b, run + [a]) == Next(topic, Exec(topic, b, run), a)
  {
    var s := Exec(topic, b, run);
    Prepend(topic, s, a, [], Next(topic, s, a));
    assert [a] + [] == [a];
    RunsCompose(topic, b, run, [a]);
  }

  // ---------- The invariant ----------

  predicate HasSubmitted(s: Stage) { s == Submitted || s == Announced || s == Claiming || s == Claimed }

  predicate HasAnnounced(s: Stage) { s == Announced || s == Claiming || s == Claimed }

  ghost predicate FromTopic(topic: seq<Message>, m: ChunkMessage) {
    exists n :: 0 <= n < |topic| && topic[n].chunk == m
  }

  ghost predicate SubmittedBy(b: Bill, k: nat) {
    exists i :: 0 <= i < |b.submissions| && b.submissions[i].attempt == k
  }

  ghost predicate AnnouncedBy(b: Bill, k: nat) {
    exists i :: 0 <= i < |b.notices| && b.notices[i].attempt == k
  }

  ghost predicate AttemptOk(topic: seq<Message>, b: Bill, k: nat)
    requires k < |b.attempts|
  {
    var t := b.attempts[k];
    && FromTopic(topic, t.chunk)
    && t.checkedAt < b.clock
    && (HasSubmitted(t.stage) ==> SubmittedBy(b, k))
    && (HasAnnounced(t.stage) ==> AnnouncedBy(b, k))
  }

  ghost predicate ClaimOk(b: Bill, c: Claim) {
    && c.attempt < |b.attempts|
    && b.attempts[c.attempt].stage == Claimed
    && c == ClaimFor(b.attempts[c.attempt].chunk, c.attempt, c.committedAt)
    && c.committedAt < b.clock
  }

  ghost predicate SubmissionOk(b: Bill, s: Submission) {
    && s.attempt < |b.attempts|
    && b.attempts[s.attempt].stage != Begun && b.attempts[s.attempt].stage != Checked
    && s.usage == BuildUsage(b.attempts[s.attempt].chunk)
  }

  /** Attempt k passed its check before any claim of its event was committed. */
  ghost predicate CheckedFirst(b: Bill, k: nat)
    requires k < |b.attempts|
  {
    forall i :: 0 <= i < |b.claims| && b.claims[i].eventId == b.attempts[k].chunk.eventId ==>
      b.attempts[k].checkedAt < b.claims[i].committedAt
  }

  ghost predicate SubmissionChecked(b: Bill, i: nat)
    requires i < |b.submissions|
  {
    b.submissions[i].attempt < |b.attempts| && CheckedFirst(b, b.submissions[i].attempt)
  }

  predicate PassedCheck(s: Stage) { s == Checked || HasSubmitted(s) }

  /** UNIQUE (event_id) on processed_billing_events, committed and pending inserts together. */
  ghost predicate ClaimsUnique(b: Bill) {
    && (forall i, j :: 0 <= i < j < |b.claims| ==> b.claims[i].eventId != b.claims[j].eventId)
    && (forall k, i :: 0 <= k < |b.attempts| && 0 <= i < |b.claims| && b.attempts[k].stage == Claiming ==>
          b.claims[i].eventId != b.attempts[k].chunk.eventId)
    && (forall j, k :: 0 <= j < k < |b.attempts| && b.attempts[j].stage == Claiming && b.attempts[k].stage == Claiming ==>
          b.attempts[j].chunk.eventId != b.attempts[k].chunk.eventId)
  }

  ghost predicate NoticeOk(b: Bill, n: Notice) {
    n.attempt < |b.attempts| && n == NoticeFor(b.attempts[n.attempt].chunk, n.attempt)
  }

  ghost predicate Inv(topic: seq<Message>, b: Bill) {
    && (forall k {:trigger AttemptOk(topic, b, k)} :: 0 <= k < |b.attempts| ==> AttemptOk(topic, b, k))
    && (forall i {:trigger ClaimOk(b, b.claims[i])} :: 0 <= i < |b.claims| ==> ClaimOk(b, b.claims[i]))
    && (forall i {:trigger SubmissionOk(b, b.submissions[i])} :: 0 <= i < |b.submissions| ==>
          SubmissionOk(b, b.submissions[i]))
    && (forall i {:trigger NoticeOk(b, b.notices[i])} :: 0 <= i < |b.notices| ==> NoticeOk(b, b.notices[i]))
    && (forall i, j :: 0 <= i < j < |b.submissions| ==> b.submissions[i].attempt != b.submissions[j].attempt)
    && (forall k {:trigger CheckedFirst(b, k)} :: 0 <= k < |b.attempts| && PassedCheck(b.attempts[k].stage) ==>
          CheckedFirst(b, k))
    && (forall i {:trigger SubmissionChecked(b, i)} :: 0 <= i < |b.submissions| ==> SubmissionChecked(b, i))
    && ClaimsUnique(b)
  }

  lemma UnbilledInv(topic: seq<Message>)
    ensures Inv(topic, UNBILLED)
  {
  }

  /** Attempt j is none of the acting one: nothing it relies on is lost. */
  lemma AttemptStays(topic: seq<Message>, b: Bill, b': Bill, j: nat)
    requires j < |b.attempts| <= |b'.attempts| && b'.attempts[j] == b.attempts[j]
    requires AttemptOk(topic, b, j) && b.clock <= b'.clock
    requires b.submissions <= b'.submissions && b.notices <= b'.notices
    ensures AttemptOk(topic, b', j)
  {
  }

  lemma StillSubmitted(b: Bill, b': Bill, j: nat)
    requires b.submissions <= b'.submissions
    ensures SubmittedBy(b, j) ==> SubmittedBy(b', j)
  {
  }

  lemma AttemptStep(topic: seq<Message>, b: Bill, a: Action, j: nat)
    requires Inv(topic, b) && Enabled(topic, b, a) && j < |Next(topic, b, a).attempts|
    ensures AttemptOk(topic, Next(topic, b, a), j)
  {
    var b' := Next(topic, b, a);
    if j < |b.attempts| {
      assert AttemptOk(topic, b, j);
      if a.Deliver? || a.k != j {
        AttemptStays(topic, b, b', j);
      } else {
        StillSubmitted(b, b', j);
        if a.Submit? { assert b'.submissions[|b.submissions|].attempt == j; }
        if a.Announce? { assert b'.notices[|b.notices|].attempt == j; }
      }
    }
  }

  lemma ClaimStep(topic: seq<Message>, b: Bill, a: Action, i: nat)
    requires Inv(topic, b) && Enabled(topic, b, a) && i < |Next(topic, b, a).claims|
    ensures ClaimOk(Next(topic, b, a), Next(topic, b, a).claims[i])
  {
    if i < |b.claims| { assert ClaimOk(b, b.claims[i]); }
  }

  lemma SubmissionStep(topic: seq<Message>, b: Bill, a: Action, i: nat)
    requires Inv(topic, b) && Enabled(topic, b, a) && i < |Next(topic, b, a).submissions|
    ensures SubmissionOk(Next(topic, b, a), Next(topic, b, a).submissions[i])
  {
    if i < |b.submissions| { assert SubmissionOk(b, b.submissions[i]); }
  }

  lemma NoticeStep(topic: seq<Message>, b: Bill, a: Action, i: nat)
    requires Inv(topic, b) && Enabled(topic, b, a) && i < |Next(topic, b, a).notices|
    ensures NoticeOk(Next(topic, b, a), Next(topic, b, a).notices[i])
  {
    if i < |b.notices| { assert NoticeOk(b, b.notices[i]); }
  }

  lemma CheckedFirstStep(topic: seq<Message>, b: Bill, a: Action, j: nat)
    requires Inv(topic, b) && Enabled(topic, b, a) && j < |b.attempts|
    requires CheckedFirst(b, j) && !(a.CheckMiss? && a.k == j)
    ensures CheckedFirst(Next(topic, b, a), j)
  {
    assert AttemptOk(topic, b, j);
    if a.Commit? {
      assert Next(topic, b, a).claims[|b.claims|].committedAt == b.clock;
    }
  }

  lemma PassedCheckStep(topic: seq<Message>, b: Bill, a: Action, j: nat)
    requires Inv(topic, b) && Enabled(topic, b, a) && j < |Next(topic, b, a).attempts|
    requires PassedCheck(Next(topic, b, a).attempts[j].stage)
    ensures CheckedFirst(Next(topic, b, a), j)
  {
    if !(a.CheckMiss? && a.k == j) {
      assert CheckedFirst(b, j);
      CheckedFirstStep(topic, b, a, j);
    }
  }

  lemma SubmissionCheckedStep(topic: seq<Message>, b: Bill, a: Action, i: nat)
    requires Inv(topic, b) && Enabled(topic, b, a) && i < |Next(topic, b, a).submissions|
    ensures SubmissionChecked(Next(topic, b, a), i)
  {
    if i < |b.submissions| {
      assert SubmissionOk(b, b.submissions[i]) && SubmissionChecked(b, i);
      CheckedFirstStep(topic, b, a, b.submissions[i].attempt);
    } else {
      assert CheckedFirst(b, a.k);
      CheckedFirstStep(topic, b, a, a.k);
    }
  }

  lemma CommitIsUnique(topic: seq<Message>, b: Bill, k: nat)
    requires ClaimsUnique(b) && Enabled(topic, b, Commit(k))
    ensures ClaimsUnique(Next(topic, b, Commit(k)))
  {
  }

  lemma UniqueStep(topic: seq<Message>, b: Bill, a: Action)
    requires ClaimsUnique(b) && Enabled(topic, b, a)
    ensures ClaimsUnique(Next(topic, b, a))
  {
    if a.Insert? {
    } else if a.Commit? {
      CommitIsUnique(topic, b, a.k);
    }
  }

  lemma StepKeepsInv(topic: seq<Message>, b: Bill, a: Action)
    requires Inv(topic, b) && Enabled(topic, b, a)
    ensures Inv(topic, Next(topic, b, a))
  {
    var b' := Next(topic, b, a);
    forall j | 0 <= j < |b'.attempts| ensures AttemptOk(topic, b', j) { AttemptStep(topic, b, a, j); }
    forall i | 0 <= i < |b'.claims| ensures ClaimOk(b', b'.claims[i]) { ClaimStep(topic, b, a, i); }
    forall i | 0 <= i < |b'.submissions| ensures SubmissionOk(b', b'.submissions[i]) { SubmissionStep(topic, b, a, i); }
    forall i | 0 <= i < |b'.notices| ensures NoticeOk(b', b'.notices[i]) { NoticeStep(topic, b, a, i); }
    forall j | 0 <= j < |b'.attempts| && PassedCheck(b'.attempts[j].stage) ensures CheckedFirst(b', j) {
      PassedCheckStep(topic, b, a, j);
    }
    forall i | 0 <= i < |b'.submissions| ensures SubmissionChecked(b', i) { SubmissionCheckedStep(topic, b, a, i); }
    if a.Submit? {
      forall i | 0 <= i < |b.submissions| ensures b.submissions[i].attempt != a.k {
        assert SubmissionOk(b, b.submissions[i]);
      }
    }
    UniqueStep(topic, b, a);
  }

  lemma {:induction false} RunKeepsInv(topic: seq<Message>, b: Bill, run: seq<Action>)
    requires Inv(topic, b) && CanRun(topic, b, run)
    ensures Inv(topic, Exec(topic, b, run))
    decreases |run|
  {
    if run != [] {
      StepKeepsInv(topic, b, run[0]);
      RunKeepsInv(topic, Next(topic, b, run[0]), run[1..]);
    }
  }

  /** New messages on the topic disturb nothing here. */
  lemma MoreMessagesKeepInv(topic: seq<Message>, topic': seq<Message>, b: Bill)
    requires Inv(topic, b) && topic <= topic'
    ensures Inv(topic', b)
  {
    forall k | 0 <= k < |b.attempts| ensures AttemptOk(topic', b, k) {
      assert AttemptOk(topic, b, k);
      var n :| 0 <= n < |topic| && topic[n].chunk == b.attempts[k].chunk;
      assert topic'[n] == topic[n];
    }
  }

  // ---------- The claim protocol ----------

  /** Metronome got the usage of event e, and the billing-processed topic its notice. */
  ghost predicate Served(b: Bill, m: ChunkMessage, k: nat) {
    && (exists i :: 0 <= i < |b.submissions| && b.submissions[i] == Submission(BuildUsage(m), k))
    && (exists i :: 0 <= i < |b.notices| && b.notices[i] == NoticeFor(m, k))
  }

  /** Before a claim commits, its attempt has already submitted and announced. */
  lemma CommitIsServed(topic: seq<Message>, b: Bill, k: nat)
    requires Inv(topic, b) && Enabled(topic, b, Commit(k))
    ensures Served(b, b.attempts[k].chunk, k)
  {
    assert AttemptOk(topic, b, k);
    var i :| 0 <= i < |b.submissions| && b.submissions[i].attempt == k;
    assert SubmissionOk(b, b.submissions[i]);
    var n :| 0 <= n < |b.notices| && b.notices[n].attempt == k;
    assert NoticeOk(b, b.notices[n]);
  }

  /** Claims are unique per event and each was served by its own attempt. */
  lemma ClaimsAreServed(topic: seq<Message>, b: Bill, i: nat)
    requires Inv(topic, b) && i < |b.claims|
    ensures var c := b.claims[i];
      && (forall j :: 0 <= j < |b.claims| && b.claims[j].eventId == c.eventId ==> j == i)
      && c.attempt < |b.attempts|
      && var m := b.attempts[c.attempt].chunk;
         FromTopic(topic, m) && c == ClaimFor(m, c.attempt, c.committedAt) && Served(b, m, c.attempt)
  {
    var c := b.claims[i];
    forall j | 0 <= j < |b.claims| && j != i ensures b.claims[j].eventId != c.eventId {
      if j < i { assert b.claims[j].eventId != b.claims[i].eventId; }
    }
    assert ClaimOk(b, c) && AttemptOk(topic, b, c.attempt);
    var n :| 0 <= n < |b.submissions| && b.submissions[n].attempt == c.attempt;
    assert SubmissionOk(b, b.submissions[n]);
    var l :| 0 <= l < |b.notices| && b.notices[l].attempt == c.attempt;
    assert NoticeOk(b, b.notices[l]);
  }

  /**
   Every Metronome submission is the usage of a topic message, each attempt makes at most one, and
   its attempt's check came before the commit of any claim of the same event.
   */
  lemma SubmissionsCheckedFirst(topic: seq<Message>, b: Bill, i: nat)
    requires Inv(topic, b) && i < |b.submissions|
    ensures var s := b.submissions[i];
      && s.attempt < |b.attempts|
      && FromTopic(topic, b.attempts[s.attempt].chunk)
      && s.usage == BuildUsage(b.attempts[s.attempt].chunk)
      && (forall j :: 0 <= j < |b.submissions| && b.submissions[j].attempt == s.attempt ==> j == i)
      && (forall c :: 0 <= c < |b.claims| && b.claims[c].eventId == b.attempts[s.attempt].chunk.eventId ==>
            b.attempts[s.attempt].checkedAt < b.claims[c].committedAt)
  {
    assert SubmissionOk(b, b.submissions[i]);
    assert AttemptOk(topic, b, b.submissions[i].attempt);
    assert SubmissionChecked(b, i);
  }
}
