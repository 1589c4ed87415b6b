/**
 The billing consumer's handling of deliveries one after the other. Each call is shown to perform a
 run of the billing machine, in which deliveries may also overlap.
 */
module BillingProcessor {
  import opened Model
  import opened Billing
  import opened Faults

  /** No transaction holds an uncommitted claim, as between two sequential calls. */
  predicate NoneClaiming(b: Bill) {
    forall k :: 0 <= k < |b.attempts| ==> b.attempts[k].stage != Claiming
  }

  /** Attempt k submitted, announced and claimed m, each exactly once. */
  ghost predicate Settled(m: ChunkMessage, k: nat, b: Bill, b': Bill) {
    && b'.submissions == b.submissions + [Submission(BuildUsage(m), k)]
    && b'.notices == b.notices + [NoticeFor(m, k)]
    && exists at :: b'.claims == b.claims + [ClaimFor(m, k, at)]
  }

  /** Every submission since b0 comes with the claim of the same attempt, in the same order. */
  ghost predicate Paired(b0: Bill, b: Bill) {
    && b0.claims <= b.claims && b0.submissions <= b.submissions
    && |b.submissions| - |b0.submissions| == |b.claims| - |b0.claims|
    && forall i :: |b0.submissions| <= i < |b.submissions| ==>
         b.submissions[i].attempt == b.claims[i - |b0.submissions| + |b0.claims|].attempt
  }

  /** The events of the first n deliveries are claimed. */
  ghost predicate AllClaimed(topic: seq<Message>, b: Bill, deliveries: seq<nat>, n: nat) {
    n <= |deliveries| &&
    forall d :: 0 <= d < n && deliveries[d] < |topic| ==> IsClaimed(b, topic[deliveries[d]].chunk.eventId)
  }

  /** The numbers of the submissions since b0 that bill event e. */
  function NewSubmissions(b0: Bill, b: Bill, e: string): set<nat> {
    set i: nat | |b0.submissions| <= i < |b.submissions| && b.submissions[i].attempt < |b.attempts|
      && b.attempts[b.submissions[i].attempt].chunk.eventId == e
  }

  /**
   What the handling of one message leaves: one more attempt, for that message. If its event was claimed
   nothing else; otherwise a call without an error settles it, and a failed one claims nothing and has
   submitted at most once.
   */
  ghost predicate Delivered(m: ChunkMessage, b: Bill, b': Bill, err: bool) {
    && SameChunks(b, b') && |b'.attempts| == |b.attempts| + 1 && b'.attempts[|b.attempts|].chunk == m
    && (err ==> b'.claims == b.claims)
    && (IsClaimed(b, m.eventId) ==> b'.submissions == b.submissions && b'.notices == b.notices && b'.claims == b.claims)
    && (b'.submissions == b.submissions || b'.submissions == b.submissions + [Submission(BuildUsage(m), |b.attempts|)])
    && (!err && !IsClaimed(b, m.eventId) ==> Settled(m, |b.attempts|, b, b'))
  }

  /** Claims and submissions are only added, at most one submission per delivery. */
  ghost predicate Grown(b0: Bill, b: Bill, deliveries: nat) {
    && b0.claims <= b.claims && b0.submissions <= b.submissions
    && |b.submissions| <= |b0.submissions| + deliveries
  }

  /**
   After n deliveries: each was attempted, claims and submissions were only added, and no more of them
   than failed have an event that is not claimed; if none failed, submissions come with claims.
   */
  ghost predicate Consumed(topic: seq<Message>, b0: Bill, b: Bill, deliveries: seq<nat>, n: nat, failures: nat) {
    && Attempted(topic, b0, b, deliveries, n) && Grown(b0, b, n)
    && |StillUnclaimed(topic, b, deliveries, n)| <= failures
    && (failures == 0 ==> Paired(b0, b) && AllClaimed(topic, b, deliveries, n))
  }

  /** The deliveries among the first n whose event is not claimed. */
  function StillUnclaimed(topic: seq<Message>, b: Bill, deliveries: seq<nat>, n: nat): set<nat>
    requires n <= |deliveries|
  {
    set d: nat | d < n && deliveries[d] < |topic| && !IsClaimed(b, topic[deliveries[d]].chunk.eventId)
  }

  /** Attempts are only added, and each keeps its message. */
  ghost predicate SameChunks(b: Bill, b': Bill) {
    |b.attempts| <= |b'.attempts| && forall k :: 0 <= k < |b.attempts| ==> b'.attempts[k].chunk == b.attempts[k].chunk
  }

  /** One attempt for each of the first n deliveries, in order and each for its message, after those there were. */
  ghost predicate Attempted(topic: seq<Message>, b0: Bill, b: Bill, deliveries: seq<nat>, n: nat) {
    && n <= |deliveries| && |b.attempts| == |b0.attempts| + n && SameChunks(b0, b)
    && (forall d :: 0 <= d < n && deliveries[d] < |topic| ==>
          b.attempts[|b0.attempts| + d].chunk == topic[deliveries[d]].chunk)
  }

  lemma OneMoreAttempt(topic: seq<Message>, b0: Bill, b: Bill, b': Bill, deliveries: seq<nat>, n: nat)
    requires Attempted(topic, b0, b, deliveries, n) && n < |deliveries| && deliveries[n] < |topic|
    requires SameChunks(b, b') && |b'.attempts| == |b.attempts| + 1
    requires b'.attempts[|b.attempts|].chunk == topic[deliveries[n]].chunk
    ensures Attempted(topic, b0, b', deliveries, n + 1)
  {
  }

  lemma {:induction false} ChunksStay(topic: seq<Message>, b: Bill, run: seq<Action>)
    requires CanRun(topic, b, run)
    ensures SameChunks(b, Exec(topic, b, run))
    decreases |run|
  {
    if run != [] { ChunksStay(topic, Next(topic, b, run[0]), run[1..]); }
  }

  /** One more delivery leaves one more unclaimed event at most, and only if it failed. */
  lemma OneMoreUnclaimed(topic: seq<Message>, b: Bill, b': Bill, deliveries: seq<nat>, n: nat, err: bool)
    requires n < |deliveries| && deliveries[n] < |topic| && b.claims <= b'.claims
    requires Delivered(topic[deliveries[n]].chunk, b, b', err)
    ensures |StillUnclaimed(topic, b', deliveries, n + 1)| <=
      |StillUnclaimed(topic, b, deliveries, n)| + if err then 1 else 0
  {
    var before, after := StillUnclaimed(topic, b, deliveries, n), StillUnclaimed(topic, b', deliveries, n + 1);
    var e := topic[deliveries[n]].chunk.eventId;
    if IsClaimed(b, e) { StillClaimed(b, b', e); }
    if !err && !IsClaimed(b, e) { assert b'.claims[|b.claims|].eventId == e; }
    forall d | d in after ensures d in before + {n} {
      if IsClaimed(b, topic[deliveries[d]].chunk.eventId) { StillClaimed(b, b', topic[deliveries[d]].chunk.eventId); }
    }
    if err {
      SubsetCount(after, before + {n});
    } else {
      SubsetCount(after, before);
    }
  }

  lemma OneMoreConsumed(topic: seq<Message>, b0: Bill, b: Bill, b': Bill, deliveries: seq<nat>, n: nat, failures: nat, err: bool)
    requires Consumed(topic, b0, b, deliveries, n, failures) && n < |deliveries| && deliveries[n] < |topic|
    requires Delivered(topic[deliveries[n]].chunk, b, b', err)
    ensures Consumed(topic, b0, b', deliveries, n + 1, if err then failures + 1 else failures)
  {
    OneMoreUnclaimed(topic, b, b', deliveries, n, err);
    OneMoreAttempt(topic, b0, b, b', deliveries, n);
    if failures == 0 && !err { DeliveryHandled(topic, b0, b, b', deliveries, n); }
  }

  lemma SubsetCount(a: set<nat>, b: set<nat>)
    requires a <= b
    ensures |a| <= |b|
  {
    assert b == a + (b - a) && |b| == |a| + |b - a|;
  }

  lemma StillClaimed(b: Bill, b': Bill, e: string)
    requires b.claims <= b'.claims && IsClaimed(b, e)
    ensures IsClaimed(b', e)
  {
  }

  lemma DeliveryHandled(topic: seq<Message>, start: Bill, b: Bill, b': Bill, deliveries: seq<nat>, d: nat)
    requires d < |deliveries| && deliveries[d] < |topic|
    requires Paired(start, b) && AllClaimed(topic, b, deliveries, d)
    requires var m := topic[deliveries[d]].chunk;
      if IsClaimed(b, m.eventId) then b'.claims == b.claims && b'.submissions == b.submissions
      else Settled(m, |b.attempts|, b, b')
    ensures Paired(start, b') && AllClaimed(topic, b', deliveries, d + 1)
  {
    var m := topic[deliveries[d]].chunk;
    if !IsClaimed(b, m.eventId) {
      assert b'.claims[|b.claims|].eventId == m.eventId;
    }
    forall c | 0 <= c < d + 1 && deliveries[c] < |topic| ensures IsClaimed(b', topic[deliveries[c]].chunk.eventId) {
      if c < d || IsClaimed(b, m.eventId) { StillClaimed(b, b', topic[deliveries[c]].chunk.eventId); }
    }
  }

  /** A submission for e made since b0 was paired with the claim of e. */
  lemma PairedWithClaim(b0: Bill, b: Bill, e: string, c: nat, i: nat)
    requires Paired(b0, b) && |b0.submissions| <= i < |b.submissions|
    requires c < |b.claims| && b.claims[c].eventId == e && ClaimsUnique(b)
    requires ClaimOk(b, b.claims[i - |b0.submissions| + |b0.claims|])
    ensures i in NewSubmissions(b0, b, e) <==> i - |b0.submissions| + |b0.claims| == c
  {
  }

  /** With submissions paired to claims, a claim of e made since b0 means exactly one submission for e. */
  lemma OneSubmissionPerEvent(topic: seq<Message>, b0: Bill, b: Bill, e: string)
    requires Inv(topic, b) && Paired(b0, b) && IsClaimed(b, e)
    ensures IsClaimed(b0, e) ==> NewSubmissions(b0, b, e) == {}
    ensures !IsClaimed(b0, e) ==> |NewSubmissions(b0, b, e)| == 1
  {
    var c: nat :| c < |b.claims| && b.claims[c].eventId == e;
    forall i: nat | |b0.submissions| <= i < |b.submissions|
      ensures i in NewSubmissions(b0, b, e) <==> i - |b0.submissions| + |b0.claims| == c
    {
      assert ClaimOk(b, b.claims[i - |b0.submissions| + |b0.claims|]);
      PairedWithClaim(b0, b, e, c, i);
    }
    ClaimIsOldOrNew(b0, b, e, c);
    if c >= |b0.claims| {
      assert NewSubmissions(b0, b, e) == {c - |b0.claims| + |b0.submissions|};
    }
  }

  /** Since b0 each newly claimed event was submitted exactly once, and no event claimed before. */
  ghost predicate NewlyClaimedOnce(b0: Bill, b: Bill) {
    forall e {:trigger IsClaimed(b, e)} :: IsClaimed(b, e) ==>
      |NewSubmissions(b0, b, e)| == if IsClaimed(b0, e) then 0 else 1
  }

  lemma EachOnce(topic: seq<Message>, b0: Bill, b: Bill)
    requires Inv(topic, b) && Paired(b0, b)
    ensures NewlyClaimedOnce(b0, b)
  {
    forall e | IsClaimed(b, e) ensures |NewSubmissions(b0, b, e)| == if IsClaimed(b0, e) then 0 else 1 {
      OneSubmissionPerEvent(topic, b0, b, e);
    }
  }

  lemma ClaimIsOldOrNew(b0: Bill, b: Bill, e: string, c: nat)
    requires b0.claims <= b.claims && c < |b.claims| && b.claims[c].eventId == e && ClaimsUnique(b)
    ensures IsClaimed(b0, e) <==> c < |b0.claims|
  {
  }

  class Processor {
    var clock: nat
    var attempts: seq<Attempt>
    var claims: seq<Claim>
    var submissions: seq<Submission>
    var notices: seq<Notice>
    const env: Environment

    constructor (env: Environment)
      ensures this.env == env && View() == UNBILLED
    {
      clock, attempts, claims, submissions, notices := 0, [], [], [], [];
      this.env := env;
    }

    function View(): Bill
      reads this
    {
      Bill(clock, attempts, claims, submissions, notices)
    }

    method SetStage(k: nat, stage: Stage)
      requires k < |attempts|
      modifies this`clock, this`attempts
      ensures clock == old(clock) + 1
      ensures attempts == old(attempts)[k := old(attempts)[k].(stage := stage)]
    {
      attempts := attempts[k := attempts[k].(stage := stage)];
      clock := clock + 1;
    }

    method CheckIdempotency(topic: seq<Message>, k: nat) returns (found: bool, err: bool, ghost a: Action)
      requires AtStage(View(), k, Begun)
      modifies this`clock, this`attempts, env
      ensures env.budget == if err then old(env.budget) - 1 else old(env.budget)
      ensures found == IsClaimed(old(View()), old(attempts)[k].chunk.eventId)
      ensures a == if err then Die(k) else if found then CheckHit(k) else CheckMiss(k)
      ensures Enabled(topic, old(View()), a) && View() == Next(topic, old(View()), a)
    {
      found := IsClaimed(View(), attempts[k].chunk.eventId);
      err := env.Fails(LookUp);
      if err || found {
        SetStage(k, Ended);
        return found, err, if err then Die(k) else CheckHit(k);
      }
      attempts := attempts[k := attempts[k].(stage := Checked, checkedAt := clock)];
      clock := clock + 1;
      a := CheckMiss(k);
    }

    /** An error may mean that the submission arrived all the same. */
    method SendToMetronome(topic: seq<Message>, k: nat) returns (err: bool, ghost a: Action)
      requires AtStage(View(), k, Checked)
      modifies this`clock, this`attempts, this`submissions, env
      ensures env.budget == if err then old(env.budget) - 1 else old(env.budget)
      ensures a == Submit(k, !err) || (err && a == Die(k))
      ensures Enabled(topic, old(View()), a) && View() == Next(topic, old(View()), a)
    {
      err := env.Fails(MetronomeSend);
      var arrived := true;
      if err { arrived := *; }
      if arrived { submissions := submissions + [Submission(BuildUsage(attempts[k].chunk), k)]; }
      SetStage(k, if err then Ended else Submitted);
      a := if arrived then Submit(k, !err) else Die(k);
    }

    method PublishBillingProcessed(topic: seq<Message>, k: nat) returns (err: bool, ghost a: Action)
      requires AtStage(View(), k, Submitted)
      modifies this`clock, this`attempts, this`notices, env
      ensures env.budget == if err then old(env.budget) - 1 else old(env.budget)
      ensures a == Announce(k, !err) || (err && a == Die(k))
      ensures Enabled(topic, old(View()), a) && View() == Next(topic, old(View()), a)
    {
      err := env.Fails(KafkaSend);
      var arrived := true;
      if err { arrived := *; }
      if arrived { notices := notices + [NoticeFor(attempts[k].chunk, k)]; }
      SetStage(k, if err then Ended else Announced);
      a := if arrived then Announce(k, !err) else Die(k);
    }

    /** INSERT under UNIQUE (event_id); a conflict is told apart from other errors. */
    method InsertProcessedBillingEventTx(topic: seq<Message>, k: nat) returns (conflict: bool, err: bool, ghost a: Action)
      requires AtStage(View(), k, Announced) && NoneClaiming(View())
      modifies this`clock, this`attempts, env
      ensures env.budget == if err then old(env.budget) - 1 else old(env.budget)
      ensures conflict == IsClaimed(old(View()), old(attempts)[k].chunk.eventId)
      ensures a == if err then Die(k) else if conflict then InsertConflict(k) else Insert(k)
      ensures Enabled(topic, old(View()), a) && View() == Next(topic, old(View()), a)
    {
      conflict := IsClaimed(View(), attempts[k].chunk.eventId);
      err := env.Fails(WriteRows);
      SetStage(k, if err || conflict then Ended else Claiming);
      a := if err then Die(k) else if conflict then InsertConflict(k) else Insert(k);
    }

    method CommitClaim(topic: seq<Message>, k: nat) returns (err: bool, ghost a: Action)
      requires AtStage(View(), k, Claiming)
      modifies this`clock, this`attempts, this`claims, env
      ensures env.budget == if err then old(env.budget) - 1 else old(env.budget)
      ensures a == if err then Die(k) else Commit(k)
      ensures Enabled(topic, old(View()), a) && View() == Next(topic, old(View()), a)
    {
      err := env.Fails(CommitTx);
      if !err { claims := claims + [ClaimFor(attempts[k].chunk, k, clock)]; }
      SetStage(k, if err then Ended else Claimed);
      a := if err then Die(k) else Commit(k);
    }

    /** Submit to Metronome, then announce on the billing-processed topic. */
    method SubmitAndAnnounce(topic: seq<Message>, k: nat) returns (err: bool, ghost run: seq<Action>)
      requires AtStage(View(), k, Checked) && NoneClaiming(View())
      modifies this`clock, this`attempts, this`submissions, this`notices, env
      ensures CanRun(topic, old(View()), run) && Exec(topic, old(View()), run) == View()
      ensures NoneClaiming(View()) && |attempts| == |old(attempts)|
      ensures attempts[k].chunk == old(attempts)[k].chunk
      ensures env.budget <= old(env.budget) && (err <==> env.budget < old(env.budget))
      ensures submissions == old(submissions) ||
        submissions == old(submissions) + [Submission(BuildUsage(old(attempts)[k].chunk), k)]
      ensures !err ==>
        && AtStage(View(), k, Announced)
        && submissions == old(submissions) + [Submission(BuildUsage(old(attempts)[k].chunk), k)]
        && notices == old(notices) + [NoticeFor(old(attempts)[k].chunk, k)]
    {
      ghost var start := View();
      run := [];
      ghost var a;
      err, a := SendToMetronome(topic, k);
      RunAppend(topic, start, run, a);
      run := run + [a];
      if err {
        return;
      }
      err, a := PublishBillingProcessed(topic, k);
      RunAppend(topic, start, run, a);
      run := run + [a];
    }

    /** Insert the claim and commit; meeting another delivery's claim is no error. */
    method ClaimEvent(topic: seq<Message>, k: nat) returns (err: bool, ghost run: seq<Action>)
      requires AtStage(View(), k, Announced) && NoneClaiming(View())
      modifies this`clock, this`attempts, this`claims, env
      ensures CanRun(topic, old(View()), run) && Exec(topic, old(View()), run) == View()
      ensures NoneClaiming(View()) && |attempts| == |old(attempts)| && attempts[k].chunk == old(attempts)[k].chunk
      ensures env.budget <= old(env.budget) && (err <==> env.budget < old(env.budget))
      ensures err || IsClaimed(old(View()), old(attempts)[k].chunk.eventId) ==> claims == old(claims)
      ensures !err && !IsClaimed(old(View()), old(attempts)[k].chunk.eventId) ==>
        exists at :: claims == old(claims) + [ClaimFor(old(attempts)[k].chunk, k, at)]
    {
      ghost var start := View();
      var conflict; ghost var a;
      conflict, err, a := InsertProcessedBillingEventTx(topic, k);
      RunAppend(topic, start, [], a);
      run := [] + [a];
      if err || conflict {
        return;
      }
      err, a := CommitClaim(topic, k);
      RunAppend(topic, start, run, a);
      run := run + [a];
    }

    /** A new attempt begins its transaction and checks; `live` says that there is something to do. */
    method Admit(topic: seq<Message>, n: nat) returns (live: bool, err: bool, ghost run: seq<Action>)
      requires n < |topic| && NoneClaiming(View())
      modifies this`clock, this`attempts, env
      ensures CanRun(topic, old(View()), run) && Exec(topic, old(View()), run) == View()
      ensures NoneClaiming(View()) && |attempts| == |old(attempts)| + 1
      ensures attempts[|old(attempts)|].chunk == topic[n].chunk
      ensures env.budget <= old(env.budget) && (err <==> env.budget < old(env.budget))
      ensures live <==> !err && !IsClaimed(View(), topic[n].chunk.eventId)
      ensures live ==> attempts[|old(attempts)|].stage == Checked
    {
      ghost var start := View();
      var k := |attempts|;
      live := false;
      RunAppend(topic, start, [], Deliver(n));
      attempts := attempts + [Attempt(topic[n].chunk, Begun, 0)];
      clock := clock + 1;
      run := [] + [Deliver(n)];
      err := env.Fails(BeginTx);
      if err {
        RunAppend(topic, start, run, Die(k));
        SetStage(k, Ended);
        run := run + [Die(k)];
        return;
      }
      var processed; ghost var a;
      processed, err, a := CheckIdempotency(topic, k);
      RunAppend(topic, start, run, a);
      run := run + [a];
      live := !err && !processed;
    }

    /**
     Handles one delivery. An event already claimed is left alone; otherwise a call without failures
     submits, announces and claims it once, and a failed call claims nothing and has submitted at
     most once.
     */
    method ProcessBillingChunk(topic: seq<Message>, n: nat) returns (err: bool, ghost run: seq<Action>)
      requires n < |topic| && Inv(topic, View()) && NoneClaiming(View())
      modifies this`clock, this`attempts, this`claims, this`submissions, this`notices, env
      ensures CanRun(topic, old(View()), run) && Exec(topic, old(View()), run) == View()
      ensures Inv(topic, View()) && NoneClaiming(View())
      ensures env.budget <= old(env.budget) && (err <==> env.budget < old(env.budget))
      ensures Delivered(topic[n].chunk, old(View()), View(), err)
    {
      ghost var start := View();
      var k := |attempts|;
      var live;
      live, err, run := Admit(topic, n);
      if live {
        ghost var r;
        err, r := SubmitAndAnnounce(topic, k);
        RunsCompose(topic, start, run, r);
        run := run + r;
        if !err {
          err, r := ClaimEvent(topic, k);
          RunsCompose(topic, start, run, r);
          run := run + r;
        }
      }
      ChunksStay(topic, start, run);
      RunKeepsInv(topic, start, run);
    }

    /**
     The consume loop over any deliveries, repeats included; an error only moves on to the next one.
     Every delivery is attempted, and at most as many end with their event unclaimed as failed. Without
     failures each event not claimed before is submitted exactly once however often it was delivered.
     */
    method StartConsumer(topic: seq<Message>, deliveries: seq<nat>) returns (failures: nat, ghost run: seq<Action>)
      requires forall d :: 0 <= d < |deliveries| ==> deliveries[d] < |topic|
      requires Inv(topic, View()) && NoneClaiming(View())
      modifies this`clock, this`attempts, this`claims, this`submissions, this`notices, env
      ensures CanRun(topic, old(View()), run) && Exec(topic, old(View()), run) == View()
      ensures Inv(topic, View()) && NoneClaiming(View())
      ensures failures <= old(env.budget) - env.budget
      ensures Consumed(topic, old(View()), View(), deliveries, |deliveries|, failures)
      ensures failures == 0 ==> NewlyClaimedOnce(old(View()), View())
    {
      ghost var start, b := View(), View();
      failures, run := 0, [];
      for d := 0 to |deliveries|
        invariant b == View() && Inv(topic, b) && NoneClaiming(b)
        invariant CanRun(topic, start, run) && Exec(topic, start, run) == b
        invariant failures <= old(env.budget) - env.budget
        invariant Consumed(topic, start, b, deliveries, d, failures)
      {
        var err; ghost var r;
        err, r := ProcessBillingChunk(topic, deliveries[d]);
        RunsCompose(topic, start, run, r);
        run := run + r;
        ghost var b' := View();
        OneMoreConsumed(topic, start, b, b', deliveries, d, failures, err);
        if err { failures := failures + 1; }
        b := b';
      }
      if failures == 0 { EachOnce(topic, start, b); }
    }
  }
}
