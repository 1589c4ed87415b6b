/**
 The leasing publisher as a state machine: any number of workers, each inside one transaction
 (lease, check, send, record, mark, commit), with the duplicate injector and the replayer beside
 them. A send cannot be taken back; everything else a transaction wrote vanishes when it aborts.

 The outbox rows themselves never change; only published_at does, kept here as the set of row
 numbers whose published_at is set.
 */
module Publishing {
  import opened Model

  /** Which sender put a message on the topic; LostAck: the send was reported as failed but arrived. */
  datatype Origin = Worker(lease: nat) | LostAck(lease: nat) | Replayer

  datatype Message = Message(chunk: ChunkMessage, origin: Origin)

  datatype Phase = AtCheck | AtSend | AtRecord

  datatype Status = Open | Committed | Aborted

  /**
   A lease transaction. `batch` holds the locked rows, `pos` the event being handled, `recorded`
   the uncommitted inserts into processed_outbox_events, `marks` the ids to mark published.
   A failed statement poisons the transaction.
   */
  datatype Lease = Lease(
    batch: seq<nat>, pos: nat, phase: Phase, recorded: set<string>, marks: seq<nat>,
    poisoned: bool, status: Status)

  datatype Pub = Pub(
    published: set<nat>, processed: set<string>, leases: seq<Lease>,
    fetched: set<nat>, topic: seq<Message>)

  datatype Action =
    | TakeLease(batch: seq<nat>)
    | CheckHit(k: nat)
    | CheckMiss(k: nat)
    | CheckFail(k: nat)
    | SkipInvalid(k: nat)
    | Send(k: nat)
    | SendFail(k: nat, arrived: bool)
    | Record(k: nat)
    | Commit(k: nat)
    | Abort(k: nat)
    | Reset(ids: set<nat>)
    | ReplayFetch(ids: set<nat>)
    | ReplaySend(i: nat)

  const IDLE: Pub := Pub({}, {}, [], {}, [])

  /** Selected by the lease query: unpublished, of the billing type, and not locked by an open lease. */
  predicate Leasable(rows: seq<OutboxRow>, p: Pub, i: nat) {
    && i < |rows| && i !in p.published && rows[i].eventType == BILLING_CHUNK_CREATED
    && !Locked(p, i)
  }

  predicate Locked(p: Pub, i: nat) {
    exists k :: 0 <= k < |p.leases| && p.leases[k].status == Open && i in p.leases[k].batch
  }

  predicate Distinct(s: seq<nat>) {
    forall i, j :: 0 <= i < j < |s| ==> s[i] != s[j]
  }

  function ToSet(s: seq<nat>): set<nat> {
    set i | i in s
  }

  predicate IsOpen(p: Pub, k: nat) {
    k < |p.leases| && p.leases[k].status == Open
  }

  /** The transaction k is inside its loop, at a row of its batch. */
  predicate Handling(rows: seq<OutboxRow>, p: Pub, k: nat, phase: Phase) {
    && IsOpen(p, k)
    && p.leases[k].phase == phase
    && p.leases[k].pos < |p.leases[k].batch|
    && p.leases[k].batch[p.leases[k].pos] < |rows|
  }

  function RowAt(rows: seq<OutboxRow>, l: Lease): OutboxRow
    requires l.pos < |l.batch| && l.batch[l.pos] < |rows|
  {
    rows[l.batch[l.pos]]
  }

  /** Another open transaction holds an uncommitted insert of the same event id. */
  predicate InsertedElsewhere(p: Pub, k: nat, e: string) {
    exists j :: 0 <= j < |p.leases| && j != k && p.leases[j].status == Open && e in p.leases[j].recorded
  }

  predicate Enabled(rows: seq<OutboxRow>, p: Pub, a: Action) {
    match a
    case TakeLease(batch) => Distinct(batch) && forall i :: i in batch ==> Leasable(rows, p, i)
    case CheckHit(k) =>
      && Handling(rows, p, k, AtCheck) && !p.leases[k].poisoned
      && RowAt(rows, p.leases[k]).eventId in p.processed + p.leases[k].recorded
    case CheckMiss(k) =>
      && Handling(rows, p, k, AtCheck) && !p.leases[k].poisoned
      && RowAt(rows, p.leases[k]).eventId !in p.processed + p.leases[k].recorded
    case CheckFail(k) => Handling(rows, p, k, AtCheck)
    case SkipInvalid(k) =>
      Handling(rows, p, k, AtSend) && !Publishable(ToMessage(RowAt(rows, p.leases[k]).payload))
    case Send(k) =>
      Handling(rows, p, k, AtSend) && Publishable(ToMessage(RowAt(rows, p.leases[k]).payload))
    case SendFail(k, _) =>
      Handling(rows, p, k, AtSend) && Publishable(ToMessage(RowAt(rows, p.leases[k]).payload))
    case Record(k) =>
      && Handling(rows, p, k, AtRecord) && !p.leases[k].poisoned
      && RowAt(rows, p.leases[k]).eventId !in p.processed + p.leases[k].recorded
      && !InsertedElsewhere(p, k, RowAt(rows, p.leases[k]).eventId)
    case Commit(k) =>
      && IsOpen(p, k) && p.leases[k].phase == AtCheck && !p.leases[k].poisoned
      && p.leases[k].pos == |p.leases[k].batch|
    case Abort(k) => IsOpen(p, k)
    case Reset(ids) => forall i :: i in ids ==> Replayable(rows, p, i)
    case ReplayFetch(ids) => forall i :: i in ids ==> Replayable(rows, p, i)
    case ReplaySend(i) => i in p.fetched && i < |rows| && Publishable(ToMessage(rows[i].payload))
  }

  /** Selected by the injector's and the replayer's queries. */
  predicate Replayable(rows: seq<OutboxRow>, p: Pub, i: nat) {
    i in p.published && i < |rows| && rows[i].eventType == BILLING_CHUNK_CREATED
  }

  function Moved(l: Lease): Lease {
    l.(pos := l.pos + 1, phase := AtCheck)
  }

  function SetLease(p: Pub, k: nat, l: Lease): Pub
    requires k < |p.leases|
  {
    p.(leases := p.leases[k := l])
  }

  function Append(p: Pub, c: Chunk, origin: Origin): Pub {
    p.(topic := p.topic + [Message(ToMessage(c), origin)])
  }

  function Next(rows: seq<OutboxRow>, p: Pub, a: Action): Pub
    requires Enabled(rows, p, a)
  {
    match a
    case TakeLease(batch) =>
      p.(leases := p.leases + [Lease(batch, 0, AtCheck, {}, [], false, Open)])
    case CheckHit(k) =>
      var l := p.leases[k];
      SetLease(p, k, Moved(l).(marks := l.marks + [l.batch[l.pos]]))
    case CheckMiss(k) => SetLease(p, k, p.leases[k].(phase := AtSend))
    case CheckFail(k) => SetLease(p, k, Moved(p.leases[k]).(poisoned := true))
    case SkipInvalid(k) => SetLease(p, k, Moved(p.leases[k]))
    case Send(k) =>
      Append(SetLease(p, k, p.leases[k].(phase := AtRecord)), RowAt(rows, p.leases[k]).payload, Worker(k))
    case SendFail(k, arrived) =>
      var p' := SetLease(p, k, Moved(p.leases[k]));
      if arrived then Append(p', RowAt(rows, p.leases[k]).payload, LostAck(k)) else p'
    case Record(k) =>
      var l := p.leases[k];
      SetLease(p, k, Moved(l).(recorded := l.recorded + {RowAt(rows, l).eventId}, marks := l.marks + [l.batch[l.pos]]))
    case Commit(k) =>
      var l := p.leases[k];
      SetLease(p, k, l.(status := Committed)).(
        published := p.published + ToSet(l.marks),
        processed := p.processed + l.recorded)
    case Abort(k) => SetLease(p, k, p.leases[k].(status := Aborted))
    case Reset(ids) => p.(published := p.published - ids)
    case ReplayFetch(ids) => p.(fetched := p.fetched + ids)
    case ReplaySend(i) => Append(p, rows[i].payload, Replayer)
  }

  predicate CanRun(rows: seq<OutboxRow>, p: Pub, run: seq<Action>)
    decreases |run|
  {
    run == [] || (Enabled(rows, p, run[0]) && CanRun(rows, Next(rows, p, run[0]), run[1..]))
  }

  function Exec(rows: seq<OutboxRow>, p: Pub, run: seq<Action>): Pub
    requires CanRun(rows, p, run)
    decreases |run|
  {
    if run == [] then p else Exec(rows, Next(rows, p, run[0]), run[1..])
  }

  lemma Prepend(rows: seq<OutboxRow>, p: Pub, a: Action, rest: seq<Action>, p': Pub)
    requires Enabled(rows, p, a) && Next(rows, p, a) == p' && CanRun(rows, p', rest)
    ensures CanRun(rows, p, [a] + rest) && Exec(rows, p, [a] + rest) == Exec(rows, p', rest)
  {
  }

  lemma {:induction false} RunsCompose(rows: seq<OutboxRow>, p: Pub, first: seq<Action>, second: seq<Action>)
    requires CanRun(rows, p, first) && CanRun(rows, Exec(rows, p, first), second)
    ensures CanRun(rows, p, first + second)
    ensures Exec(rows, p, first + second) == Exec(rows, Exec(rows, p, first), second)
    decreases |first|
  {
    if first == [] {
      assert first + second == second;
    } else {
      SplitFirst(first, second);
      RunsCompose(rows, Next(rows, p, first[0]), first[1..], second);
    }
  }

  lemma RunAppend(rows: seq<OutboxRow>, p: Pub, run: seq<Action>, a: Action)
    requires CanRun(rows, p, run) && Enabled(rows, Exec(rows, p, run), a)
    ensures CanRun(rows, p, run + [a])
    ensures Exec(rows, p, run + [a]) == Next(rows, Exec(rows, p, run), a)
  {
    var s := Exec(rows, p, run);
    assert [a][1..] == [];
    assert CanRun(rows, Next(rows, s, a), []);
    assert CanRun(rows, s, [a]) && Exec(rows, s, [a]) == Next(rows, s, a);
    RunsCompose(rows, p, run, [a]);
  }

  // ---------- Counting messages ----------

  /** Whose send put the message on the topic, judged by how the sender's transaction ended. */
  datatype Category = FromCommitted | FromOpen | FromAborted | FromLostAck | FromReplayer

  function CategoryOf(leases: seq<Lease>, o: Origin): Category {
    match o
    case Replayer => FromReplayer
    case LostAck(_) => FromLostAck
    case Worker(k) =>
      if k >= |leases| then FromOpen
      else match leases[k].status
        case Open => FromOpen
        case Committed => FromCommitted
        case Aborted => FromAborted
  }

  /** Messages on the topic that carry event e. */
  function CountAll(topic: seq<Message>, e: string): nat {
    if topic == [] then 0
    else
      var m := topic[|topic| - 1];
      CountAll(topic[..|topic| - 1], e) + if m.chunk.eventId == e then 1 else 0
  }

  function CountIn(topic: seq<Message>, leases: seq<Lease>, e: string, c: Category): nat {
    if topic == [] then 0
    else
      var m := topic[|topic| - 1];
      CountIn(topic[..|topic| - 1], leases, e, c) +
      if m.chunk.eventId == e && CategoryOf(leases, m.origin) == c then 1 else 0
  }

  /** Messages carrying event e that lease k sent and saw acknowledged. */
  function CountBy(topic: seq<Message>, e: string, k: nat): nat {
    if topic == [] then 0
    else
      var m := topic[|topic| - 1];
      CountBy(topic[..|topic| - 1], e, k) + if m.chunk.eventId == e && m.origin == Worker(k) then 1 else 0
  }

  lemma {:induction false} CategoriesAddUp(topic: seq<Message>, leases: seq<Lease>, e: string)
    ensures CountAll(topic, e) ==
      CountIn(topic, leases, e, FromCommitted) + CountIn(topic, leases, e, FromOpen) +
      CountIn(topic, leases, e, FromAborted) + CountIn(topic, leases, e, FromLostAck) +
      CountIn(topic, leases, e, FromReplayer)
  {
    if topic != [] { CategoriesAddUp(topic[..|topic| - 1], leases, e); }
  }

  /** Only commits change which messages come from committed leases. */
  lemma {:induction false} CommittedCountStable(topic: seq<Message>, leases: seq<Lease>, leases': seq<Lease>, e: string)
    requires |leases| <= |leases'|
    requires forall k :: 0 <= k < |leases| ==> (leases'[k].status == Committed <==> leases[k].status == Committed)
    requires forall k :: |leases| <= k < |leases'| ==> leases'[k].status != Committed
    ensures CountIn(topic, leases', e, FromCommitted) == CountIn(topic, leases, e, FromCommitted)
  {
    if topic != [] { CommittedCountStable(topic[..|topic| - 1], leases, leases', e); }
  }

  /** Committing lease k moves exactly its acknowledged sends into the committed category. */
  lemma {:induction false} CommitMovesCount(topic: seq<Message>, leases: seq<Lease>, k: nat, e: string)
    requires k < |leases| && leases[k].status == Open
    ensures CountIn(topic, leases[k := leases[k].(status := Committed)], e, FromCommitted) ==
      CountIn(topic, leases, e, FromCommitted) + CountBy(topic, e, k)
  {
    if topic != [] { CommitMovesCount(topic[..|topic| - 1], leases, k, e); }
  }

  lemma {:induction false} NoneBy(topic: seq<Message>, e: string, k: nat)
    requires forall i :: 0 <= i < |topic| ==> topic[i].origin != Worker(k)
    ensures CountBy(topic, e, k) == 0
  {
    if topic != [] { NoneBy(topic[..|topic| - 1], e, k); }
  }

  lemma {:induction false} CountedMessage(topic: seq<Message>, leases: seq<Lease>, e: string, c: Category) returns (i: nat)
    requires CountIn(topic, leases, e, c) > 0
    ensures i < |topic| && topic[i].chunk.eventId == e && CategoryOf(leases, topic[i].origin) == c
  {
    var n := |topic| - 1;
    if topic[n].chunk.eventId == e && CategoryOf(leases, topic[n].origin) == c {
      i := n;
    } else {
      i := CountedMessage(topic[..n], leases, e, c);
    }
  }

  // ---------- The invariant ----------

  ghost predicate RowsOk(rows: seq<OutboxRow>) {
    DistinctEventIds(rows) && forall i :: 0 <= i < |rows| ==> RowMatchesPayload(rows[i])
  }

  /** The row the lease is handling has been checked and found unprocessed. */
  predicate InFlight(rows: seq<OutboxRow>, l: Lease, e: string) {
    l.phase != AtCheck && l.pos < |l.batch| && l.batch[l.pos] < |rows| && RowAt(rows, l).eventId == e
  }

  /** How many acknowledged messages for e the lease must have sent. */
  function Sent(rows: seq<OutboxRow>, l: Lease, e: string): nat {
    (if e in l.recorded then 1 else 0) + (if l.phase == AtRecord && InFlight(rows, l, e) then 1 else 0)
  }

  ghost predicate BatchOk(rows: seq<OutboxRow>, p: Pub, l: Lease) {
    && Distinct(l.batch)
    && (forall j :: 0 <= j < |l.batch| ==> l.batch[j] < |rows| && rows[l.batch[j]].eventType == BILLING_CHUNK_CREATED)
    && l.pos <= |l.batch|
    && (l.phase != AtCheck ==> l.pos < |l.batch| && !l.poisoned)
    && (l.phase == AtRecord ==> Publishable(ToMessage(RowAt(rows, l).payload)))
    && (forall m :: m in l.marks ==> m in l.batch[..l.pos])
    && Distinct(l.marks)
    && (forall e :: e in l.recorded ==> exists j :: 0 <= j < l.pos && l.batch[j] < |rows| && rows[l.batch[j]].eventId == e)
  }

  /** What an open transaction may rely on: its rows are its own. */
  ghost predicate OpenOk(rows: seq<OutboxRow>, p: Pub, l: Lease) {
    && (forall i :: i in l.batch ==> i !in p.published)
    && l.recorded !! p.processed
    && (forall e :: InFlight(rows, l, e) ==> e !in p.processed && e !in l.recorded)
    && (forall m :: m in l.marks && m < |rows| ==> rows[m].eventId in p.processed + l.recorded)
  }

  ghost predicate LeaseOk(rows: seq<OutboxRow>, p: Pub, k: nat)
    requires k < |p.leases|
  {
    var l := p.leases[k];
    && BatchOk(rows, p, l)
    && (l.status == Open ==> OpenOk(rows, p, l))
    && (l.status == Committed ==> l.phase == AtCheck)
    && (l.status != Aborted ==> forall e :: CountBy(p.topic, e, k) == Sent(rows, l, e))
  }

  /** Open leases of different workers hold disjoint rows. */
  ghost predicate LeasesDisjoint(p: Pub) {
    forall j: nat, k: nat, i :: j != k && IsOpen(p, j) && IsOpen(p, k) && i in p.leases[j].batch ==>
      i !in p.leases[k].batch
  }

  ghost predicate MessageOk(rows: seq<OutboxRow>, p: Pub, m: Message) {
    && (m.origin.Worker? || m.origin.LostAck? ==> m.origin.lease < |p.leases|)
    && Publishable(m.chunk)
    && exists i :: 0 <= i < |rows| && m.chunk == ToMessage(rows[i].payload)
  }

  ghost predicate Inv(rows: seq<OutboxRow>, p: Pub) {
    && RowsOk(rows)
    && (forall k {:trigger LeaseOk(rows, p, k)} :: 0 <= k < |p.leases| ==> LeaseOk(rows, p, k))
    && LeasesDisjoint(p)
    && (forall n {:trigger MessageOk(rows, p, p.topic[n])} :: 0 <= n < |p.topic| ==> MessageOk(rows, p, p.topic[n]))
    && (forall i :: i in p.published ==> i < |rows| && rows[i].eventId in p.processed)
    && (forall i :: i in p.fetched ==> i < |rows|)
    && (forall e :: CountIn(p.topic, p.leases, e, FromCommitted) == if e in p.processed then 1 else 0)
  }

  lemma IdleInv(rows: seq<OutboxRow>)
    requires RowsOk(rows)
    ensures Inv(rows, IDLE)
  {
  }

  lemma MarksGrow(l: Lease)
    requires l.pos < |l.batch| && Distinct(l.batch) && Distinct(l.marks)
    requires forall m :: m in l.marks ==> m in l.batch[..l.pos]
    ensures var marks := l.marks + [l.batch[l.pos]];
      Distinct(marks) && forall m :: m in marks ==> m in l.batch[..l.pos + 1]
  {
    assert l.batch[..l.pos + 1] == l.batch[..l.pos] + [l.batch[l.pos]];
    assert l.batch[l.pos] !in l.batch[..l.pos];
  }

  /** The steps of a transaction that touch neither the topic nor the committed tables. */
  predicate Private(a: Action) {
    a.CheckHit? || a.CheckMiss? || a.CheckFail? || a.SkipInvalid? || a.Record? || a.Abort? || (a.SendFail? && !a.arrived)
  }

  lemma MarkingBatch(rows: seq<OutboxRow>, p: Pub, a: Action)
    requires Enabled(rows, p, a) && (a.CheckHit? || a.Record?) && BatchOk(rows, p, p.leases[a.k])
    ensures BatchOk(rows, Next(rows, p, a), Next(rows, p, a).leases[a.k])
  {
    MarksGrow(p.leases[a.k]);
  }

  lemma PrivateBatch(rows: seq<OutboxRow>, p: Pub, a: Action)
    requires Inv(rows, p) && Enabled(rows, p, a) && Private(a)
    ensures a.k < |p.leases| && BatchOk(rows, Next(rows, p, a), Next(rows, p, a).leases[a.k])
  {
    assert LeaseOk(rows, p, a.k);
    if a.CheckHit? || a.Record? {
      MarkingBatch(rows, p, a);
    } else {
    }
  }

  lemma PrivateOpen(rows: seq<OutboxRow>, p: Pub, a: Action)
    requires Inv(rows, p) && Enabled(rows, p, a) && Private(a) && !a.Abort?
    ensures a.k < |p.leases| && OpenOk(rows, Next(rows, p, a), Next(rows, p, a).leases[a.k])
  {
    assert LeaseOk(rows, p, a.k);
  }

  lemma PrivateLease(rows: seq<OutboxRow>, p: Pub, a: Action)
    requires Inv(rows, p) && Enabled(rows, p, a) && Private(a)
    ensures a.k < |p.leases| && LeaseOk(rows, Next(rows, p, a), a.k)
  {
    var p' := Next(rows, p, a);
    assert LeaseOk(rows, p, a.k);
    PrivateBatch(rows, p, a);
    if !a.Abort? {
      PrivateOpen(rows, p, a);
      var l, l' := p.leases[a.k], p'.leases[a.k];
      forall e ensures Sent(rows, l', e) == Sent(rows, l, e) {
      }
    }
  }

  lemma PrivateLeavesOthers(rows: seq<OutboxRow>, p: Pub, a: Action, k: nat)
    requires Inv(rows, p) && Enabled(rows, p, a) && Private(a) && k < |p.leases| && k != a.k
    ensures LeaseOk(rows, Next(rows, p, a), k)
  {
    assert LeaseOk(rows, p, k);
  }

  lemma PrivateTopic(rows: seq<OutboxRow>, p: Pub, a: Action)
    requires Inv(rows, p) && Enabled(rows, p, a) && Private(a)
    ensures var p' := Next(rows, p, a);
      && (forall n :: 0 <= n < |p'.topic| ==> MessageOk(rows, p', p'.topic[n]))
      && (forall e :: CountIn(p'.topic, p'.leases, e, FromCommitted) == if e in p'.processed then 1 else 0)
  {
    var p' := Next(rows, p, a);
    forall n | 0 <= n < |p'.topic| ensures MessageOk(rows, p', p'.topic[n]) {
      assert MessageOk(rows, p, p.topic[n]);
    }
    forall e ensures CountIn(p'.topic, p'.leases, e, FromCommitted) == if e in p'.processed then 1 else 0 {
      CommittedCountStable(p.topic, p.leases, p'.leases, e);
    }
  }

  lemma StillDisjoint(p: Pub, p': Pub)
    requires LeasesDisjoint(p) && |p'.leases| == |p.leases|
    requires forall k :: 0 <= k < |p.leases| ==> p'.leases[k].batch == p.leases[k].batch
    requires forall k: nat :: IsOpen(p', k) ==> IsOpen(p, k)
    ensures LeasesDisjoint(p')
  {
  }

  lemma PrivateLeases(rows: seq<OutboxRow>, p: Pub, a: Action, k: nat)
    requires Inv(rows, p) && Enabled(rows, p, a) && Private(a) && k < |p.leases|
    ensures LeaseOk(rows, Next(rows, p, a), k)
  {
    if k == a.k {
      PrivateLease(rows, p, a);
    } else {
      PrivateLeavesOthers(rows, p, a, k);
    }
  }

  lemma PrivateKeepsInv(rows: seq<OutboxRow>, p: Pub, a: Action)
    requires Inv(rows, p) && Enabled(rows, p, a) && Private(a)
    ensures Inv(rows, Next(rows, p, a))
  {
    var p' := Next(rows, p, a);
    forall k | 0 <= k < |p'.leases| ensures LeaseOk(rows, p', k) { PrivateLeases(rows, p, a, k); }
    PrivateTopic(rows, p, a);
    StillDisjoint(p, p');
  }

  predicate Sends(a: Action) {
    a.Send? || (a.SendFail? && a.arrived) || a.ReplaySend?
  }

  lemma SendCountBy(rows: seq<OutboxRow>, p: Pub, a: Action, k: nat, e: string)
    requires Enabled(rows, p, a) && Sends(a)
    ensures var m := Next(rows, p, a).topic[|p.topic|];
      CountBy(Next(rows, p, a).topic, e, k) ==
        CountBy(p.topic, e, k) + if m.chunk.eventId == e && m.origin == Worker(k) then 1 else 0
  {
  }

  lemma SendLeavesOthers(rows: seq<OutboxRow>, p: Pub, a: Action, k: nat)
    requires Inv(rows, p) && Enabled(rows, p, a) && Sends(a)
    requires k < |p.leases| && (a.ReplaySend? || a.k != k)
    ensures LeaseOk(rows, Next(rows, p, a), k)
  {
    assert LeaseOk(rows, p, k);
    forall e ensures CountBy(Next(rows, p, a).topic, e, k) == CountBy(p.topic, e, k) {
      SendCountBy(rows, p, a, k, e);
    }
  }

  lemma SenderStaysOk(rows: seq<OutboxRow>, p: Pub, a: Action)
    requires Inv(rows, p) && Enabled(rows, p, a) && Sends(a) && !a.ReplaySend?
    ensures a.k < |p.leases| && LeaseOk(rows, Next(rows, p, a), a.k)
  {
    var p' := Next(rows, p, a);
    var l, l' := p.leases[a.k], p'.leases[a.k];
    assert LeaseOk(rows, p, a.k);
    forall e ensures CountBy(p'.topic, e, a.k) == Sent(rows, l', e) {
      SendCountBy(rows, p, a, a.k, e);
      assert CountBy(p.topic, e, a.k) == Sent(rows, l, e);
    }
  }

  lemma SendLease(rows: seq<OutboxRow>, p: Pub, a: Action, k: nat)
    requires Inv(rows, p) && Enabled(rows, p, a) && Sends(a) && k < |p.leases|
    ensures LeaseOk(rows, Next(rows, p, a), k)
  {
    if a.ReplaySend? || a.k != k {
      SendLeavesOthers(rows, p, a, k);
    } else {
      SenderStaysOk(rows, p, a);
    }
  }

  lemma SendMessage(rows: seq<OutboxRow>, p: Pub, a: Action, n: nat)
    requires Inv(rows, p) && Enabled(rows, p, a) && Sends(a)
    requires n < |Next(rows, p, a).topic|
    ensures MessageOk(rows, Next(rows, p, a), Next(rows, p, a).topic[n])
  {
    if n < |p.topic| { assert MessageOk(rows, p, p.topic[n]); }
  }

  lemma SendCount(rows: seq<OutboxRow>, p: Pub, a: Action, e: string)
    requires Inv(rows, p) && Enabled(rows, p, a) && Sends(a)
    ensures var p' := Next(rows, p, a);
      CountIn(p'.topic, p'.leases, e, FromCommitted) == if e in p'.processed then 1 else 0
  {
    var p' := Next(rows, p, a);
    CommittedCountStable(p.topic, p.leases, p'.leases, e);
  }

  lemma SendKeepsInv(rows: seq<OutboxRow>, p: Pub, a: Action)
    requires Inv(rows, p) && Enabled(rows, p, a) && Sends(a)
    ensures Inv(rows, Next(rows, p, a))
  {
    var p' := Next(rows, p, a);
    forall k | 0 <= k < |p'.leases| ensures LeaseOk(rows, p', k) {
      SendLease(rows, p, a, k);
    }
    forall n | 0 <= n < |p'.topic| ensures MessageOk(rows, p', p'.topic[n]) {
      SendMessage(rows, p, a, n);
    }
    forall e ensures CountIn(p'.topic, p'.leases, e, FromCommitted) == if e in p'.processed then 1 else 0 {
      SendCount(rows, p, a, e);
    }
    assert forall j :: IsOpen(p', j) <==> IsOpen(p, j);
  }

  lemma LeaseKeepsInv(rows: seq<OutboxRow>, p: Pub, a: Action)
    requires Inv(rows, p) && Enabled(rows, p, a) && a.TakeLease?
    ensures Inv(rows, Next(rows, p, a))
  {
    var p' := Next(rows, p, a);
    var n := |p.leases|;
    forall i | 0 <= i < |p.topic| ensures MessageOk(rows, p', p'.topic[i]) && p.topic[i].origin != Worker(n) {
      assert MessageOk(rows, p, p.topic[i]);
    }
    forall k | 0 <= k < |p'.leases| ensures LeaseOk(rows, p', k) {
      if k < n {
        assert LeaseOk(rows, p, k);
      } else {
        forall e ensures CountBy(p.topic, e, n) == 0 { NoneBy(p.topic, e, n); }
        forall j | 0 <= j < |a.batch| ensures a.batch[j] < |rows| && rows[a.batch[j]].eventType == BILLING_CHUNK_CREATED {
          assert Leasable(rows, p, a.batch[j]);
        }
      }
    }
    forall j: nat, k: nat, i | j != k && IsOpen(p', j) && IsOpen(p', k) && i in p'.leases[j].batch
      ensures i !in p'.leases[k].batch
    {
      if j < n && k < n {
        assert IsOpen(p, j) && IsOpen(p, k);
      } else if k == n {
        assert IsOpen(p, j) && Locked(p, i);
        assert i in a.batch ==> Leasable(rows, p, i);
      } else {
        assert Leasable(rows, p, i);
      }
    }
    forall e ensures CountIn(p'.topic, p'.leases, e, FromCommitted) == if e in p'.processed then 1 else 0 {
      CommittedCountStable(p.topic, p.leases, p'.leases, e);
    }
  }

  /** Rows of a committing lease are locked, so what it records and publishes is no other lease's. */
  lemma CommitLeavesOthers(rows: seq<OutboxRow>, p: Pub, k: nat, j: nat)
    requires Inv(rows, p) && Enabled(rows, p, Commit(k)) && j < |p.leases| && j != k
    ensures LeaseOk(rows, Next(rows, p, Commit(k)), j)
  {
    var p' := Next(rows, p, Commit(k));
    var l, m := p.leases[k], p.leases[j];
    assert LeaseOk(rows, p, k) && LeaseOk(rows, p, j);
    if m.status == Open {
      assert IsOpen(p, j) && IsOpen(p, k);
      forall x, y | 0 <= x < |l.batch| && 0 <= y < |m.batch|
        ensures l.batch[x] != m.batch[y] && rows[l.batch[x]].eventId != rows[m.batch[y]].eventId
      {
        assert l.batch[x] in l.batch && m.batch[y] in m.batch;
      }
      forall i | i in l.marks ensures i in l.batch {
        assert i in l.batch[..l.pos];
      }
      forall i | i in m.batch ensures i !in p'.published {
        var y :| 0 <= y < |m.batch| && m.batch[y] == i;
      }
      forall e | e in m.recorded ensures e !in p'.processed {
        var y :| 0 <= y < m.pos && m.batch[y] < |rows| && rows[m.batch[y]].eventId == e;
      }
    }
  }

  lemma CommitKeepsInv(rows: seq<OutboxRow>, p: Pub, a: Action)
    requires Inv(rows, p) && Enabled(rows, p, a) && a.Commit?
    ensures Inv(rows, Next(rows, p, a))
  {
    var p' := Next(rows, p, a);
    var l := p.leases[a.k];
    assert LeaseOk(rows, p, a.k);
    forall k | 0 <= k < |p'.leases| ensures LeaseOk(rows, p', k) {
      if k != a.k { CommitLeavesOthers(rows, p, a.k, k); }
    }
    forall n | 0 <= n < |p'.topic| ensures MessageOk(rows, p', p'.topic[n]) {
      assert MessageOk(rows, p, p.topic[n]);
    }
    forall i | i in p'.published ensures i < |rows| && rows[i].eventId in p'.processed {
      if i in l.marks { assert i in l.batch[..l.pos]; }
    }
    forall e ensures CountIn(p'.topic, p'.leases, e, FromCommitted) == if e in p'.processed then 1 else 0 {
      CommitMovesCount(p.topic, p.leases, a.k, e);
      assert CountBy(p.topic, e, a.k) == Sent(rows, l, e);
    }
  }

  lemma StepKeepsInv(rows: seq<OutboxRow>, p: Pub, a: Action)
    requires Inv(rows, p) && Enabled(rows, p, a)
    ensures Inv(rows, Next(rows, p, a))
  {
    if Private(a) {
      PrivateKeepsInv(rows, p, a);
    } else if a.TakeLease? {
      LeaseKeepsInv(rows, p, a);
    } else if a.Commit? {
      CommitKeepsInv(rows, p, a);
    } else if a.Reset? || a.ReplayFetch? {
      var p' := Next(rows, p, a);
      forall k | 0 <= k < |p'.leases| ensures LeaseOk(rows, p', k) { assert LeaseOk(rows, p, k); }
      forall n | 0 <= n < |p'.topic| ensures MessageOk(rows, p', p'.topic[n]) { assert MessageOk(rows, p, p.topic[n]); }
      assert forall j :: IsOpen(p', j) <==> IsOpen(p, j);
    } else {
      SendKeepsInv(rows, p, a);
    }
  }

  lemma {:induction false} RunKeepsInv(rows: seq<OutboxRow>, p: Pub, run: seq<Action>)
    requires Inv(rows, p) && CanRun(rows, p, run)
    ensures Inv(rows, Exec(rows, p, run))
    decreases |run|
  {
    if run != [] {
      StepKeepsInv(rows, p, run[0]);
      RunKeepsInv(rows, Next(rows, p, run[0]), run[1..]);
    }
  }

  /** New outbox rows, appended by the usage service, disturb nothing here. */
  lemma MoreRowsKeepInv(rows: seq<OutboxRow>, rows': seq<OutboxRow>, p: Pub)
    requires Inv(rows, p) && rows <= rows' && RowsOk(rows')
    ensures Inv(rows', p)
  {
    forall k | 0 <= k < |p.leases| ensures LeaseOk(rows', p, k) {
      var l := p.leases[k];
      assert LeaseOk(rows, p, k);
      forall e ensures InFlight(rows', l, e) == InFlight(rows, l, e) {
      }
      forall e ensures Sent(rows', l, e) == Sent(rows, l, e) {
      }
      forall m | m in l.marks ensures m < |rows| { assert m in l.batch[..l.pos]; }
      forall e | e in l.recorded
        ensures exists j :: 0 <= j < l.pos && l.batch[j] < |rows'| && rows'[l.batch[j]].eventId == e
      {
        var j :| 0 <= j < l.pos && l.batch[j] < |rows| && rows[l.batch[j]].eventId == e;
        assert rows'[l.batch[j]] == rows[l.batch[j]];
      }
    }
    forall n | 0 <= n < |p.topic| ensures MessageOk(rows', p, p.topic[n]) {
      assert MessageOk(rows, p, p.topic[n]);
      var i :| 0 <= i < |rows| && p.topic[n].chunk == ToMessage(rows[i].payload);
      assert rows'[i] == rows[i];
    }
  }
}
