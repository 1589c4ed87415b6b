/**
 What the publisher's worker cycle is supposed to do: the rows it sends and marks, how far it has got
 after each row, and when a worker may go idle.
 */
module Cycle {
  import opened Model
  import opened Publishing
  import opened Delivery

  // ---------- What a cycle without failures does ----------

  predicate Sendable(rows: seq<OutboxRow>, processed: set<string>, i: nat) {
    i < |rows| && rows[i].eventId !in processed && Publishable(ToMessage(rows[i].payload))
  }

  /** The rows of the batch that get sent: valid and not yet recorded, in batch order. */
  function ToSend(rows: seq<OutboxRow>, processed: set<string>, batch: seq<nat>): seq<nat> {
    if batch == [] then []
    else
      var last := batch[|batch| - 1];
      ToSend(rows, processed, batch[..|batch| - 1]) + if Sendable(rows, processed, last) then [last] else []
  }

  /** The rows of the batch that end up published: sent now or recorded before. */
  function ToMark(rows: seq<OutboxRow>, processed: set<string>, batch: seq<nat>): seq<nat> {
    if batch == [] then []
    else
      var last := batch[|batch| - 1];
      ToMark(rows, processed, batch[..|batch| - 1]) +
      if last < |rows| && (rows[last].eventId in processed || Publishable(ToMessage(rows[last].payload))) then [last] else []
  }

  function MessagesFor(rows: seq<OutboxRow>, ids: seq<nat>, origin: Origin): seq<Message> {
    if ids == [] then []
    else
      var last := ids[|ids| - 1];
      MessagesFor(rows, ids[..|ids| - 1], origin) +
      if last < |rows| then [Message(ToMessage(rows[last].payload), origin)] else []
  }

  function EventsOf(rows: seq<OutboxRow>, ids: seq<nat>): set<string> {
    set j | 0 <= j < |ids| && ids[j] < |rows| :: rows[ids[j]].eventId
  }

  lemma BatchGrows(rows: seq<OutboxRow>, processed: set<string>, batch: seq<nat>, j: nat)
    requires j < |batch| && batch[j] < |rows|
    ensures ToSend(rows, processed, batch[..j + 1]) ==
      ToSend(rows, processed, batch[..j]) + if Sendable(rows, processed, batch[j]) then [batch[j]] else []
    ensures ToMark(rows, processed, batch[..j + 1]) == ToMark(rows, processed, batch[..j]) +
      if rows[batch[j]].eventId in processed || Publishable(ToMessage(rows[batch[j]].payload)) then [batch[j]] else []
  {
    assert batch[..j + 1][..j] == batch[..j];
  }

  lemma MessagesGrow(rows: seq<OutboxRow>, ids: seq<nat>, i: nat, origin: Origin)
    requires i < |rows|
    ensures MessagesFor(rows, ids + [i], origin) == MessagesFor(rows, ids, origin) + [Message(ToMessage(rows[i].payload), origin)]
  {
  }

  lemma EventsGrow(rows: seq<OutboxRow>, ids: seq<nat>, i: nat)
    requires i < |rows|
    ensures EventsOf(rows, ids + [i]) == EventsOf(rows, ids) + {rows[i].eventId}
  {
    forall e | e in EventsOf(rows, ids) + {rows[i].eventId} ensures e in EventsOf(rows, ids + [i]) {
      if e in EventsOf(rows, ids) {
        var j :| 0 <= j < |ids| && ids[j] < |rows| && rows[ids[j]].eventId == e;
        assert (ids + [i])[j] == ids[j];
      } else {
        assert (ids + [i])[|ids|] == i;
      }
    }
  }

  /** Sent: the valid rows not yet recorded. Marked: those, and the rows recorded before. Each row once. */
  lemma {:induction false} CycleHandlesExactly(rows: seq<OutboxRow>, processed: set<string>, batch: seq<nat>)
    requires Distinct(batch)
    ensures Distinct(ToSend(rows, processed, batch)) && Distinct(ToMark(rows, processed, batch))
    ensures forall i :: i in ToSend(rows, processed, batch) <==> i in batch && Sendable(rows, processed, i)
    ensures forall i :: i in ToMark(rows, processed, batch) <==>
      i in batch && i < |rows| && (rows[i].eventId in processed || Publishable(ToMessage(rows[i].payload)))
  {
    if batch != [] {
      var front, last := batch[..|batch| - 1], batch[|batch| - 1];
      assert batch == front + [last] && last !in front;
      CycleHandlesExactly(rows, processed, front);
    }
  }

  lemma CountAllAppend(topic: seq<Message>, m: Message, e: string)
    ensures CountAll(topic + [m], e) == CountAll(topic, e) + if m.chunk.eventId == e then 1 else 0
  {
  }

  lemma NextIsNoneOf(rows: seq<OutboxRow>, ids: seq<nat>, i: nat)
    requires RowsOk(rows) && Exist(rows, ids) && i < |rows| && i !in ids
    ensures rows[i].eventId !in EventsOf(rows, ids)
  {
  }

  lemma OneMoreMessage(rows: seq<OutboxRow>, topic: seq<Message>, front: seq<nat>, last: nat, origin: Origin, e: string)
    requires RowsOk(rows) && Exist(rows, front) && last < |rows| && last !in front
    requires CountAll(topic + MessagesFor(rows, front, origin), e) ==
      CountAll(topic, e) + if e in EventsOf(rows, front) then 1 else 0
    ensures CountAll(topic + MessagesFor(rows, front + [last], origin), e) ==
      CountAll(topic, e) + if e in EventsOf(rows, front + [last]) then 1 else 0
  {
    var m, sent := Message(ToMessage(rows[last].payload), origin), MessagesFor(rows, front, origin);
    MessagesGrow(rows, front, last, origin);
    EventsGrow(rows, front, last);
    NextIsNoneOf(rows, front, last);
    assert RowMatchesPayload(rows[last]);
    assert topic + (sent + [m]) == (topic + sent) + [m];
    CountAllAppend(topic + sent, m, e);
  }

  /** Sending distinct rows adds exactly one message for each of their events and none for any other. */
  lemma {:induction false} OneMessageEach(rows: seq<OutboxRow>, topic: seq<Message>, ids: seq<nat>, origin: Origin, e: string)
    requires RowsOk(rows) && Distinct(ids) && Exist(rows, ids)
    ensures CountAll(topic + MessagesFor(rows, ids, origin), e) ==
      CountAll(topic, e) + if e in EventsOf(rows, ids) then 1 else 0
  {
    if ids == [] {
      assert topic + MessagesFor(rows, ids, origin) == topic;
    } else {
      var front, last := ids[..|ids| - 1], ids[|ids| - 1];
      OneMessageEach(rows, topic, front, origin, e);
      OneMoreMessage(rows, topic, front, last, origin, e);
      assert ids == front + [last];
    }
  }

  lemma {:induction false} SentAreOfTheBatch(rows: seq<OutboxRow>, processed: set<string>, batch: seq<nat>)
    ensures forall i :: i in ToSend(rows, processed, batch) ==> i in batch
  {
    if batch != [] { SentAreOfTheBatch(rows, processed, batch[..|batch| - 1]); }
  }

  /** The event of the next row is none of those sent earlier in the batch. */
  lemma NextIsNew(rows: seq<OutboxRow>, processed: set<string>, batch: seq<nat>, j: nat)
    requires RowsOk(rows) && Distinct(batch) && j < |batch| && batch[j] < |rows|
    ensures rows[batch[j]].eventId !in EventsOf(rows, ToSend(rows, processed, batch[..j]))
  {
    var sent := ToSend(rows, processed, batch[..j]);
    SentAreOfTheBatch(rows, processed, batch[..j]);
    forall k | 0 <= k < |sent| && sent[k] < |rows| ensures rows[sent[k]].eventId != rows[batch[j]].eventId {
      assert sent[k] in batch[..j];
    }
  }

  /** Where the cycle stands after j rows when nothing has failed. */
  ghost predicate Progress(rows: seq<OutboxRow>, start: Pub, p: Pub, k: nat, batch: seq<nat>, j: nat) {
    && k < |p.leases| && j <= |batch|
    && var sent := ToSend(rows, start.processed, batch[..j]);
    && !p.leases[k].poisoned
    && p.leases[k].marks == ToMark(rows, start.processed, batch[..j])
    && p.leases[k].recorded == EventsOf(rows, sent)
    && p.topic == start.topic + MessagesFor(rows, sent, Worker(k))
  }

  /** What one fault-free turn of the loop does for the row at hand. */
  ghost predicate Turn(rows: seq<OutboxRow>, p: Pub, p': Pub, k: nat) {
    && Handling(rows, p, k, AtCheck) && k < |p'.leases|
    && var l, row := p.leases[k], RowAt(rows, p.leases[k]);
    var hit := row.eventId in p.processed + l.recorded;
    var sent := !hit && Publishable(ToMessage(row.payload));
    && !p'.leases[k].poisoned
    && p'.leases[k].marks == l.marks + (if hit || sent then [l.batch[l.pos]] else [])
    && p'.leases[k].recorded == l.recorded + (if sent then {row.eventId} else {})
    && p'.topic == p.topic + (if sent then [Message(ToMessage(row.payload), Worker(k))] else [])
  }

  /** The next row is sent exactly when it is sendable, and nothing earlier in the batch recorded its event. */
  lemma NextTurn(rows: seq<OutboxRow>, start: Pub, p: Pub, k: nat, j: nat)
    requires RowsOk(rows) && p.processed == start.processed
    requires Handling(rows, p, k, AtCheck) && p.leases[k].pos == j && Distinct(p.leases[k].batch)
    requires p.leases[k].recorded == EventsOf(rows, ToSend(rows, start.processed, p.leases[k].batch[..j]))
    ensures RowAt(rows, p.leases[k]).eventId in p.processed + p.leases[k].recorded <==>
      RowAt(rows, p.leases[k]).eventId in start.processed
  {
    NextIsNew(rows, start.processed, p.leases[k].batch, j);
  }

  lemma SendingTurn(rows: seq<OutboxRow>, start: Pub, p: Pub, p': Pub, k: nat, j: nat)
    requires p.processed == start.processed
    requires Handling(rows, p, k, AtCheck) && k < |p'.leases| && p.leases[k].pos == j
    requires Progress(rows, start, p, k, p.leases[k].batch, j) && Turn(rows, p, p', k)
    requires RowAt(rows, p.leases[k]).eventId !in p.processed + p.leases[k].recorded
    requires Publishable(ToMessage(RowAt(rows, p.leases[k]).payload))
    ensures Progress(rows, start, p', k, p.leases[k].batch, j + 1)
  {
    var batch, i := p.leases[k].batch, p.leases[k].batch[j];
    var sent := ToSend(rows, start.processed, batch[..j]);
    BatchGrows(rows, start.processed, batch, j);
    assert ToSend(rows, start.processed, batch[..j + 1]) == sent + [i];
    EventsGrow(rows, sent, i);
    assert p'.topic == start.topic + (MessagesFor(rows, sent, Worker(k)) + [Message(ToMessage(rows[i].payload), Worker(k))]);
  }

  lemma SilentTurn(rows: seq<OutboxRow>, start: Pub, p: Pub, p': Pub, k: nat, j: nat)
    requires p.processed == start.processed
    requires Handling(rows, p, k, AtCheck) && k < |p'.leases| && p.leases[k].pos == j
    requires Progress(rows, start, p, k, p.leases[k].batch, j) && Turn(rows, p, p', k)
    requires RowAt(rows, p.leases[k]).eventId in p.processed + p.leases[k].recorded <==>
      RowAt(rows, p.leases[k]).eventId in start.processed
    requires RowAt(rows, p.leases[k]).eventId in p.processed + p.leases[k].recorded ||
      !Publishable(ToMessage(RowAt(rows, p.leases[k]).payload))
    ensures Progress(rows, start, p', k, p.leases[k].batch, j + 1)
  {
    var batch := p.leases[k].batch;
    var sent := ToSend(rows, start.processed, batch[..j]);
    BatchGrows(rows, start.processed, batch, j);
    assert ToSend(rows, start.processed, batch[..j + 1]) == sent;
  }

  lemma TurnMakesProgress(rows: seq<OutboxRow>, start: Pub, p: Pub, p': Pub, k: nat)
    requires Inv(rows, p) && p.processed == start.processed
    requires Turn(rows, p, p', k) && Progress(rows, start, p, k, p.leases[k].batch, p.leases[k].pos)
    ensures Progress(rows, start, p', k, p.leases[k].batch, p.leases[k].pos + 1)
  {
    var l, row, j := p.leases[k], RowAt(rows, p.leases[k]), p.leases[k].pos;
    ReadyForTurn(rows, p, k);
    NextTurn(rows, start, p, k, j);
    if row.eventId !in p.processed + l.recorded && Publishable(ToMessage(row.payload)) {
      SendingTurn(rows, start, p, p', k, j);
    } else {
      SilentTurn(rows, start, p, p', k, j);
    }
  }

  // ---------- What a cycle does when sends fail ----------

  /** The events that lease k has sent, acknowledged, since the topic had n messages. */
  function Acked(topic: seq<Message>, n: nat, k: nat): set<string> {
    set m | n <= m < |topic| && topic[m].origin == Worker(k) :: topic[m].chunk.eventId
  }

  /** The rows of the batch with a known event, in batch order. */
  function WithEvents(rows: seq<OutboxRow>, known: set<string>, batch: seq<nat>): seq<nat> {
    if batch == [] then []
    else
      var last := batch[|batch| - 1];
      WithEvents(rows, known, batch[..|batch| - 1]) + if last < |rows| && rows[last].eventId in known then [last] else []
  }

  lemma {:induction false} WithEventsExactly(rows: seq<OutboxRow>, known: set<string>, batch: seq<nat>)
    requires Distinct(batch)
    ensures Distinct(WithEvents(rows, known, batch))
    ensures forall i :: i in WithEvents(rows, known, batch) <==> i in batch && i < |rows| && rows[i].eventId in known
  {
    if batch != [] {
      var front, last := batch[..|batch| - 1], batch[|batch| - 1];
      assert batch == front + [last] && last !in front;
      WithEventsExactly(rows, known, front);
    }
  }

  /** An event of none of the rows makes no difference. */
  lemma {:induction false} WithAnotherEvent(rows: seq<OutboxRow>, known: set<string>, e: string, batch: seq<nat>)
    requires forall i :: i in batch && i < |rows| ==> rows[i].eventId != e
    ensures WithEvents(rows, known + {e}, batch) == WithEvents(rows, known, batch)
  {
    if batch != [] { WithAnotherEvent(rows, known, e, batch[..|batch| - 1]); }
  }

  lemma WithEventsGrows(rows: seq<OutboxRow>, known: set<string>, batch: seq<nat>, j: nat)
    requires j < |batch| && batch[j] < |rows|
    ensures WithEvents(rows, known, batch[..j + 1]) ==
      WithEvents(rows, known, batch[..j]) + if rows[batch[j]].eventId in known then [batch[j]] else []
  {
    assert batch[..j + 1][..j] == batch[..j];
  }

  /** Every message since n is lease k's, acknowledged or not, for one of these rows. */
  ghost predicate OnlyFor(rows: seq<OutboxRow>, topic: seq<Message>, n: nat, k: nat, ids: seq<nat>) {
    forall m :: n <= m < |topic| ==> IsFor(rows, topic[m], k, ids)
  }

  ghost predicate IsFor(rows: seq<OutboxRow>, m: Message, k: nat, ids: seq<nat>) {
    && (m.origin == Worker(k) || m.origin == LostAck(k))
    && exists i :: i in ids && i < |rows| && m.chunk == ToMessage(rows[i].payload)
  }

  /**
   Where the cycle stands after j rows when nothing but `lost` sends has failed: recorded are the events
   whose send was acknowledged, marked their rows and those recorded before.
   */
  ghost predicate LossyProgress(rows: seq<OutboxRow>, start: Pub, p: Pub, k: nat, batch: seq<nat>, j: nat, lost: nat) {
    && k < |p.leases| && j <= |batch| && !p.leases[k].poisoned && start.topic <= p.topic
    && var l, sent := p.leases[k], ToSend(rows, start.processed, batch[..j]);
       && l.recorded == Acked(p.topic, |start.topic|, k)
       && l.recorded <= EventsOf(rows, sent) && |l.recorded| + lost == |sent|
       && l.marks == WithEvents(rows, start.processed + l.recorded, batch[..j])
       && OnlyFor(rows, p.topic, |start.topic|, k, sent)
  }

  /** A turn whose send failed: the row is passed over, whether or not the message arrived. */
  ghost predicate LostTurn(rows: seq<OutboxRow>, p: Pub, p': Pub, k: nat) {
    && Handling(rows, p, k, AtCheck) && k < |p'.leases|
    && var l, row := p.leases[k], RowAt(rows, p.leases[k]);
       && row.eventId !in p.processed + l.recorded && Publishable(ToMessage(row.payload))
       && !p'.leases[k].poisoned && p'.leases[k].marks == l.marks && p'.leases[k].recorded == l.recorded
       && (p'.topic == p.topic || p'.topic == p.topic + [Message(ToMessage(row.payload), LostAck(k))])
  }

  /** One turn in which nothing has failed but, `lost` times, a send. */
  ghost predicate TurnOrLoss(rows: seq<OutboxRow>, p: Pub, p': Pub, k: nat, lost: int) {
    (lost == 0 && Turn(rows, p, p', k)) || (lost == 1 && LostTurn(rows, p, p', k))
  }

  /** Nothing has failed but `lost` sends; if there are none, every row so far has had its turn. */
  ghost predicate AllProgress(rows: seq<OutboxRow>, start: Pub, p: Pub, k: nat, j: nat, lost: int) {
    && k < |p.leases| && lost >= 0 && LossyProgress(rows, start, p, k, p.leases[k].batch, j, lost)
    && (lost == 0 ==> Progress(rows, start, p, k, p.leases[k].batch, j))
  }

  lemma AckedAppend(topic: seq<Message>, m: Message, n: nat, k: nat)
    requires n <= |topic|
    ensures Acked(topic + [m], n, k) == Acked(topic, n, k) + if m.origin == Worker(k) then {m.chunk.eventId} else {}
  {
    var all := topic + [m];
    forall e | e in Acked(topic, n, k) ensures e in Acked(all, n, k) {
      var x :| n <= x < |topic| && topic[x].origin == Worker(k) && topic[x].chunk.eventId == e;
      assert all[x] == topic[x];
    }
    if m.origin == Worker(k) { assert all[|topic|] == m; }
  }

  lemma OnlyForMore(rows: seq<OutboxRow>, topic: seq<Message>, topic': seq<Message>, n: nat, k: nat, ids: seq<nat>, i: nat)
    requires OnlyFor(rows, topic, n, k, ids) && n <= |topic| && i < |rows|
    requires || topic' == topic
             || topic' == topic + [Message(ToMessage(rows[i].payload), Worker(k))]
             || topic' == topic + [Message(ToMessage(rows[i].payload), LostAck(k))]
    ensures OnlyFor(rows, topic', n, k, ids + [i])
  {
    forall m | n <= m < |topic'| ensures IsFor(rows, topic'[m], k, ids + [i]) {
      if m < |topic| {
        assert IsFor(rows, topic[m], k, ids);
        var x :| x in ids && x < |rows| && topic[m].chunk == ToMessage(rows[x].payload);
        assert x in ids + [i];
      } else {
        assert i in ids + [i];
      }
    }
  }

  /** What both kinds of sending turns add to the sent rows and to the topic. */
  lemma LossyGrows(rows: seq<OutboxRow>, start: Pub, p: Pub, p': Pub, k: nat, j: nat, lost: nat, failed: bool)
    requires p.processed == start.processed && Handling(rows, p, k, AtCheck) && p.leases[k].pos == j
    requires LossyProgress(rows, start, p, k, p.leases[k].batch, j, lost)
    requires RowAt(rows, p.leases[k]).eventId !in p.processed + p.leases[k].recorded
    requires Publishable(ToMessage(RowAt(rows, p.leases[k]).payload))
    requires if failed then LostTurn(rows, p, p', k) else Turn(rows, p, p', k)
    ensures var batch, i := p.leases[k].batch, p.leases[k].batch[j];
      var sent := ToSend(rows, start.processed, batch[..j]);
      && ToSend(rows, start.processed, batch[..j + 1]) == sent + [i]
      && EventsOf(rows, sent + [i]) == EventsOf(rows, sent) + {rows[i].eventId}
      && OnlyFor(rows, p'.topic, |start.topic|, k, sent + [i])
  {
    var batch, i := p.leases[k].batch, p.leases[k].batch[j];
    var sent := ToSend(rows, start.processed, batch[..j]);
    BatchGrows(rows, start.processed, batch, j);
    EventsGrow(rows, sent, i);
    OnlyForMore(rows, p.topic, p'.topic, |start.topic|, k, sent, i);
  }

  /** The send of the row at hand fails. */
  lemma LossyLoss(rows: seq<OutboxRow>, start: Pub, p: Pub, p': Pub, k: nat, j: nat, lost: nat)
    requires p.processed == start.processed && Handling(rows, p, k, AtCheck) && p.leases[k].pos == j
    requires LossyProgress(rows, start, p, k, p.leases[k].batch, j, lost) && LostTurn(rows, p, p', k)
    ensures LossyProgress(rows, start, p', k, p.leases[k].batch, j + 1, lost + 1)
  {
    LossyGrows(rows, start, p, p', k, j, lost, true);
    if p'.topic != p.topic { AckedAppend(p.topic, p'.topic[|p.topic|], |start.topic|, k); }
    WithEventsGrows(rows, start.processed + p.leases[k].recorded, p.leases[k].batch, j);
  }

  /** The row at hand is sent and recorded. */
  lemma LossyAck(rows: seq<OutboxRow>, start: Pub, p: Pub, p': Pub, k: nat, j: nat, lost: nat)
    requires RowsOk(rows) && p.processed == start.processed && Handling(rows, p, k, AtCheck) && p.leases[k].pos == j
    requires Distinct(p.leases[k].batch)
    requires LossyProgress(rows, start, p, k, p.leases[k].batch, j, lost) && Turn(rows, p, p', k)
    requires RowAt(rows, p.leases[k]).eventId !in p.processed + p.leases[k].recorded
    requires Publishable(ToMessage(RowAt(rows, p.leases[k]).payload))
    ensures LossyProgress(rows, start, p', k, p.leases[k].batch, j + 1, lost)
  {
    var l, batch, i := p.leases[k], p.leases[k].batch, p.leases[k].batch[j];
    var e, known := rows[i].eventId, start.processed + p'.leases[k].recorded;
    assert RowMatchesPayload(rows[i]);
    LossyGrows(rows, start, p, p', k, j, lost, false);
    AckedAppend(p.topic, p'.topic[|p.topic|], |start.topic|, k);
    WithEventsGrows(rows, known, batch, j);
    forall x | x in batch[..j] && x < |rows| ensures rows[x].eventId != e {
      var y :| 0 <= y < j && batch[y] == x;
    }
    WithAnotherEvent(rows, start.processed + l.recorded, e, batch[..j]);
    assert known == start.processed + l.recorded + {e};
  }

  lemma LossySilence(rows: seq<OutboxRow>, start: Pub, p: Pub, p': Pub, k: nat, j: nat, lost: nat)
    requires RowsOk(rows) && p.processed == start.processed && Handling(rows, p, k, AtCheck) && p.leases[k].pos == j
    requires Distinct(p.leases[k].batch)
    requires LossyProgress(rows, start, p, k, p.leases[k].batch, j, lost) && Turn(rows, p, p', k)
    requires var row := RowAt(rows, p.leases[k]);
      row.eventId in p.processed + p.leases[k].recorded || !Publishable(ToMessage(row.payload))
    ensures LossyProgress(rows, start, p', k, p.leases[k].batch, j + 1, lost)
  {
    var batch := p.leases[k].batch;
    NextIsNew(rows, start.processed, batch, j);
    BatchGrows(rows, start.processed, batch, j);
    WithEventsGrows(rows, start.processed + p.leases[k].recorded, batch, j);
    assert ToSend(rows, start.processed, batch[..j + 1]) == ToSend(rows, start.processed, batch[..j]);
    assert p'.topic == p.topic && p'.leases[k].recorded == p.leases[k].recorded;
  }

  /** One turn, in which at most the send has failed. */
  lemma LossyTurn(rows: seq<OutboxRow>, start: Pub, p: Pub, p': Pub, k: nat, lost: nat, failed: bool)
    requires RowsOk(rows) && p.processed == start.processed && Handling(rows, p, k, AtCheck) && Distinct(p.leases[k].batch)
    requires LossyProgress(rows, start, p, k, p.leases[k].batch, p.leases[k].pos, lost)
    requires if failed then LostTurn(rows, p, p', k) else Turn(rows, p, p', k)
    ensures LossyProgress(rows, start, p', k, p.leases[k].batch, p.leases[k].pos + 1, if failed then lost + 1 else lost)
  {
    var l, row, j := p.leases[k], RowAt(rows, p.leases[k]), p.leases[k].pos;
    if failed {
      LossyLoss(rows, start, p, p', k, j, lost);
    } else if row.eventId !in p.processed + l.recorded && Publishable(ToMessage(row.payload)) {
      LossyAck(rows, start, p, p', k, j, lost);
    } else {
      LossySilence(rows, start, p, p', k, j, lost);
    }
  }

  lemma TurnGoesOn(rows: seq<OutboxRow>, start: Pub, p: Pub, p': Pub, k: nat, lost: nat, more: int)
    requires Inv(rows, p) && p.processed == start.processed && k < |p.leases| && k < |p'.leases|
    requires AllProgress(rows, start, p, k, p.leases[k].pos, lost) && TurnOrLoss(rows, p, p', k, more)
    requires p'.leases[k].batch == p.leases[k].batch
    ensures AllProgress(rows, start, p', k, p.leases[k].pos + 1, lost + more)
  {
    ReadyForTurn(rows, p, k);
    LossyTurn(rows, start, p, p', k, lost, more == 1);
    if lost + more == 0 { TurnMakesProgress(rows, start, p, p', k); }
  }

  /**
   What a cycle leaves in which nothing but `lost` sends has failed: the acknowledged events are recorded,
   the rows of the batch that are recorded now or were before are published, and nothing else is.
   */
  ghost predicate LossyOutcome(rows: seq<OutboxRow>, p: Pub, p': Pub, k: nat, batch: seq<nat>, count: nat, lost: nat) {
    var acked, sent := Acked(p'.topic, |p.topic|, k), ToSend(rows, p.processed, batch);
    var marked := WithEvents(rows, p.processed + acked, batch);
    && p.topic <= p'.topic && OnlyFor(rows, p'.topic, |p.topic|, k, sent)
    && acked <= EventsOf(rows, sent) && |acked| + lost == |sent|
    && p'.processed == p.processed + acked
    && p'.published == p.published + ToSet(marked) && count == |marked|
  }

  /** Published are, besides what was, exactly the rows of the batch that are recorded now. */
  lemma LossyPublishes(rows: seq<OutboxRow>, p: Pub, p': Pub, k: nat, batch: seq<nat>, count: nat, lost: nat)
    requires Distinct(batch) && LossyOutcome(rows, p, p', k, batch, count, lost)
    ensures forall i :: i in p'.published <==>
      i in p.published || (i in batch && i < |rows| && rows[i].eventId in p'.processed)
  {
    WithEventsExactly(rows, p'.processed, batch);
  }

  lemma DifferenceCount(a: set<string>, b: set<string>)
    requires b <= a
    ensures |a - b| == |a| - |b|
  {
    assert a == b + (a - b) && |a| == |b| + |a - b|;
  }

  /** As many of the valid rows that were not recorded before are not recorded now as sends were lost. */
  lemma LossyLeavesLost(rows: seq<OutboxRow>, p: Pub, p': Pub, k: nat, batch: seq<nat>, count: nat, lost: nat)
    requires RowsOk(rows) && Distinct(batch) && LossyOutcome(rows, p, p', k, batch, count, lost)
    ensures |EventsOf(rows, ToSend(rows, p.processed, batch)) - p'.processed| == lost
  {
    var sent, acked := ToSend(rows, p.processed, batch), Acked(p'.topic, |p.topic|, k);
    var events := EventsOf(rows, sent);
    CycleHandlesExactly(rows, p.processed, batch);
    forall j | 0 <= j < |sent| ensures Sendable(rows, p.processed, sent[j]) { assert sent[j] in sent; }
    EventsOfDistinct(rows, sent);
    DifferenceCount(events, acked);
    assert events - p'.processed == events - acked;
  }

  lemma {:induction false} EventsOfDistinct(rows: seq<OutboxRow>, ids: seq<nat>)
    requires RowsOk(rows) && Distinct(ids) && forall j :: 0 <= j < |ids| ==> ids[j] < |rows|
    ensures |EventsOf(rows, ids)| == |ids|
  {
    if ids != [] {
      var front, last := ids[..|ids| - 1], ids[|ids| - 1];
      assert ids == front + [last] && last !in front;
      EventsOfDistinct(rows, front);
      EventsGrow(rows, front, last);
      NextIsNoneOf(rows, front, last);
    } else {
      assert EventsOf(rows, ids) == {};
    }
  }

  /** The same, and without failures the messages in batch order. */
  ghost predicate Outcome(rows: seq<OutboxRow>, p: Pub, p': Pub, k: nat, batch: seq<nat>, count: nat, lost: int) {
    && lost >= 0 && LossyOutcome(rows, p, p', k, batch, count, lost)
    && (lost == 0 ==> CleanOutcome(rows, p, p', k, batch, count))
  }

  lemma CycleOutcome(rows: seq<OutboxRow>, start: Pub, q: Pub, p': Pub, k: nat, count: nat, lost: int)
    requires k < |q.leases| && q.published == start.published && q.processed == start.processed
    requires AllProgress(rows, start, q, k, |q.leases[k].batch|, lost)
    requires p'.published == q.published + ToSet(q.leases[k].marks) && p'.processed == q.processed + q.leases[k].recorded
    requires p'.topic == q.topic && count == |q.leases[k].marks|
    ensures Outcome(rows, start, p', k, q.leases[k].batch, count, lost)
  {
    LossyCycle(rows, start, q, p', k, count, lost);
    if lost == 0 { CleanCycle(rows, start, q, p', k, count); }
  }

  lemma LossyCycle(rows: seq<OutboxRow>, start: Pub, q: Pub, p': Pub, k: nat, count: nat, lost: nat)
    requires k < |q.leases| && q.published == start.published && q.processed == start.processed
    requires LossyProgress(rows, start, q, k, q.leases[k].batch, |q.leases[k].batch|, lost)
    requires p'.published == q.published + ToSet(q.leases[k].marks) && p'.processed == q.processed + q.leases[k].recorded
    requires p'.topic == q.topic && count == |q.leases[k].marks|
    ensures LossyOutcome(rows, start, p', k, q.leases[k].batch, count, lost)
  {
    assert q.leases[k].batch[..|q.leases[k].batch|] == q.leases[k].batch;
  }

  /** Lease k is inside its loop: the committed tables and the other leases are as they were. */
  ghost predicate InLoop(rows: seq<OutboxRow>, start: Pub, p: Pub, k: nat, run: seq<Action>) {
    && Inv(rows, p) && CanRun(rows, start, run) && Exec(rows, start, run) == p
    && p.published == start.published && p.processed == start.processed && p.fetched == start.fetched
    && IsOpen(p, k) && OthersKept(start.leases, p.leases, k)
    && p.leases[k].batch == start.leases[k].batch && p.leases[k].pos <= |p.leases[k].batch|
  }

  lemma LoopGoesOn(rows: seq<OutboxRow>, start: Pub, p: Pub, p': Pub, k: nat, run: seq<Action>, r: seq<Action>)
    requires InLoop(rows, start, p, k, run) && InLoop(rows, p, p', k, r)
    ensures InLoop(rows, start, p', k, run + r)
  {
    RunsCompose(rows, start, run, r);
  }

  lemma NoProgressYet(rows: seq<OutboxRow>, p: Pub, k: nat)
    requires k < |p.leases| && p.leases[k] == Lease(p.leases[k].batch, 0, AtCheck, {}, [], false, Open)
    ensures Progress(rows, p, p, k, p.leases[k].batch, 0)
  {
  }

  lemma NothingLostYet(rows: seq<OutboxRow>, p: Pub, k: nat)
    requires k < |p.leases| && p.leases[k] == Lease(p.leases[k].batch, 0, AtCheck, {}, [], false, Open)
    ensures AllProgress(rows, p, p, k, 0, 0)
  {
    NoProgressYet(rows, p, k);
    assert ToSend(rows, p.processed, []) == [] && Acked(p.topic, |p.topic|, k) == {};
  }

  lemma ReadyForTurn(rows: seq<OutboxRow>, p: Pub, k: nat)
    requires Inv(rows, p) && IsOpen(p, k) && p.leases[k].phase == AtCheck
    requires p.leases[k].pos < |p.leases[k].batch|
    ensures RowsOk(rows) && Handling(rows, p, k, AtCheck) && Distinct(p.leases[k].batch)
    ensures !InsertedElsewhere(p, k, RowAt(rows, p.leases[k]).eventId)
  {
    RowIsNobodyElses(rows, p, k);
    assert LeaseOk(rows, p, k);
  }

  lemma TurnRuns(rows: seq<OutboxRow>, start: Pub, p: Pub, run: seq<Action>, r: seq<Action>)
    requires Inv(rows, p) && CanRun(rows, start, run) && Exec(rows, start, run) == p && CanRun(rows, p, r)
    ensures CanRun(rows, start, run + r) && Exec(rows, start, run + r) == Exec(rows, p, r)
    ensures Inv(rows, Exec(rows, p, r))
  {
    RunsCompose(rows, start, run, r);
    RunKeepsInv(rows, p, r);
  }

  /** What a cycle without failures leaves: valid new rows sent and recorded, those and the recorded ones published. */
  ghost predicate CleanOutcome(rows: seq<OutboxRow>, p: Pub, p': Pub, k: nat, batch: seq<nat>, count: nat) {
    var sent, marked := ToSend(rows, p.processed, batch), ToMark(rows, p.processed, batch);
    && count == |marked|
    && p'.published == p.published + ToSet(marked)
    && p'.processed == p.processed + EventsOf(rows, sent)
    && p'.topic == p.topic + MessagesFor(rows, sent, Worker(k))
  }

  lemma CleanCycle(rows: seq<OutboxRow>, start: Pub, q: Pub, p': Pub, k: nat, count: nat)
    requires k < |q.leases| && q.published == start.published && q.processed == start.processed
    requires Progress(rows, start, q, k, q.leases[k].batch, |q.leases[k].batch|)
    requires p'.published == q.published + ToSet(q.leases[k].marks) && p'.processed == q.processed + q.leases[k].recorded
    requires p'.topic == q.topic && count == |q.leases[k].marks|
    ensures CleanOutcome(rows, start, p', k, q.leases[k].batch, count)
  {
    assert q.leases[k].batch[..|q.leases[k].batch|] == q.leases[k].batch;
  }

  /** The lease is over; an error has changed neither table, and a success that handled rows is progress. */
  ghost predicate EndOfLease(rows: seq<OutboxRow>, p: Pub, p': Pub, k: nat, count: nat, err: bool) {
    && k < |p'.leases| && OthersKept(p.leases, p'.leases, k) && p'.leases[k].status != Open
    && (err ==> p'.published == p.published && p'.processed == p.processed)
    && (!err && count > 0 ==> |Unpublished(rows, p'.published)| < |Unpublished(rows, p.published)|)
  }

  ghost predicate CycleEnds(rows: seq<OutboxRow>, p: Pub, p': Pub, count: nat, err: bool) {
    && p.leases <= p'.leases && NoneOpenSince(p'.leases, |p.leases|)
    && (err ==> p'.published == p.published && p'.processed == p.processed)
    && (!err && count > 0 ==> |Unpublished(rows, p'.published)| < |Unpublished(rows, p.published)|)
  }

  /** Taking the lease first makes no difference to the tables and the topic. */
  lemma CycleIsLease(rows: seq<OutboxRow>, start: Pub, p: Pub, p': Pub, batch: seq<nat>, count: nat, err: bool)
    requires Enabled(rows, start, TakeLease(batch)) && p == Next(rows, start, TakeLease(batch))
    requires EndOfLease(rows, p, p', |start.leases|, count, err)
    ensures CycleEnds(rows, start, p', count, err)
    ensures forall lost {:trigger Outcome(rows, p, p', |start.leases|, batch, count, lost)} ::
      Outcome(rows, p, p', |start.leases|, batch, count, lost) ==> Outcome(rows, start, p', |start.leases|, batch, count, lost)
    ensures |p'.leases| == |start.leases| + 1
  {
  }

  /** What an abandoned lease reports as handled: the marks that are lost with it, if an insert failed. */
  function GivenUp(leases: seq<Lease>, k: nat): nat {
    if k < |leases| && leases[k].phase == AtRecord then |leases[k].marks| else 0
  }

  /** The publisher was idle at some point of the run. */
  ghost predicate WasIdle(rows: seq<OutboxRow>, p: Pub, run: seq<Action>, limit: nat) {
    exists n :: 0 <= n <= |run| && CanRun(rows, p, run[..n]) && Idle(rows, Exec(rows, p, run[..n]), limit)
  }

  lemma StillWasIdle(rows: seq<OutboxRow>, p: Pub, run: seq<Action>, r: seq<Action>, limit: nat)
    requires WasIdle(rows, p, run, limit)
    ensures WasIdle(rows, p, run + r, limit)
  {
    var n :| 0 <= n <= |run| && CanRun(rows, p, run[..n]) && Idle(rows, Exec(rows, p, run[..n]), limit);
    assert (run + r)[..n] == run[..n];
  }

  lemma IsIdleNow(rows: seq<OutboxRow>, p: Pub, run: seq<Action>, limit: nat)
    requires CanRun(rows, p, run) && Idle(rows, Exec(rows, p, run), limit)
    ensures WasIdle(rows, p, run, limit)
  {
    assert run[..|run|] == run;
  }

  lemma PublishedOnlyGrows(rows: seq<OutboxRow>, published: set<nat>, published': set<nat>)
    requires published <= published'
    ensures |Unpublished(rows, published')| <= |Unpublished(rows, published)|
  {
    SubsetCount(Unpublished(rows, published'), Unpublished(rows, published));
  }

  lemma LeaseRuns(rows: seq<OutboxRow>, p: Pub, batch: seq<nat>)
    requires Inv(rows, p) && Enabled(rows, p, TakeLease(batch))
    ensures CanRun(rows, p, [TakeLease(batch)])
    ensures Exec(rows, p, [TakeLease(batch)]) == Next(rows, p, TakeLease(batch))
    ensures Inv(rows, Next(rows, p, TakeLease(batch)))
  {
    RunAppend(rows, p, [], TakeLease(batch));
    assert [] + [TakeLease(batch)] == [TakeLease(batch)];
    StepKeepsInv(rows, p, TakeLease(batch));
  }

  lemma LastStepRuns(rows: seq<OutboxRow>, start: Pub, p: Pub, run: seq<Action>, a: Action)
    requires Inv(rows, p) && CanRun(rows, start, run) && Exec(rows, start, run) == p && Enabled(rows, p, a)
    ensures CanRun(rows, start, run + [a]) && Exec(rows, start, run + [a]) == Next(rows, p, a)
    ensures Inv(rows, Next(rows, p, a))
  {
    RunAppend(rows, start, run, a);
    StepKeepsInv(rows, p, a);
  }

  /** The first j rows have been sent again, in order. */
  ghost predicate Replayed(rows: seq<OutboxRow>, start: Pub, p: Pub, events: seq<nat>, j: nat) {
    j <= |events| && p.topic == start.topic + MessagesFor(rows, events[..j], Replayer)
  }

  lemma ReplayGrows(rows: seq<OutboxRow>, start: Pub, p: Pub, p': Pub, events: seq<nat>, j: nat)
    requires j < |events| && events[j] < |rows| && Replayed(rows, start, p, events, j)
    requires p'.topic == p.topic + [Message(ToMessage(rows[events[j]].payload), Replayer)]
    ensures Replayed(rows, start, p', events, j + 1)
  {
    assert events[..j + 1] == events[..j] + [events[j]];
  }

  lemma AllReplayed(rows: seq<OutboxRow>, start: Pub, p: Pub, events: seq<nat>)
    requires Replayed(rows, start, p, events, |events|)
    ensures p.topic == start.topic + MessagesFor(rows, events, Replayer)
  {
    assert events[..|events|] == events;
  }

  predicate NoneOpenSince(leases: seq<Lease>, n: nat) {
    forall k :: n <= k < |leases| ==> leases[k].status != Open
  }

  predicate OthersKept(before: seq<Lease>, after: seq<Lease>, k: nat) {
    |after| == |before| && forall j :: 0 <= j < |before| && j != k ==> after[j] == before[j]
  }

  function Unpublished(rows: seq<OutboxRow>, published: set<nat>): set<nat> {
    set i: nat | i < |rows| && i !in published
  }

  /** What a lease collected was not published before, so marking it is progress. */
  lemma MarksAreNew(rows: seq<OutboxRow>, p: Pub, k: nat)
    requires Inv(rows, p) && IsOpen(p, k) && p.leases[k].marks != []
    ensures |Unpublished(rows, p.published + ToSet(p.leases[k].marks))| < |Unpublished(rows, p.published)|
  {
    var l, m := p.leases[k], p.leases[k].marks[0];
    assert LeaseOk(rows, p, k);
    assert m in l.batch[..l.pos] && m in l.batch;
    var j :| 0 <= j < |l.batch| && l.batch[j] == m;
    var before, after := Unpublished(rows, p.published), Unpublished(rows, p.published + ToSet(l.marks));
    assert m in before && m !in after && after <= before;
    SubsetCount(after, before);
  }

  ghost predicate ByAge(rows: seq<OutboxRow>, batch: seq<nat>) {
    && Exist(rows, batch)
    && forall j, k :: 0 <= j < k < |batch| ==> rows[batch[j]].createdAt <= rows[batch[k]].createdAt
  }

  /** Nothing in the batch is younger than row i. */
  ghost predicate NoneYounger(rows: seq<OutboxRow>, batch: seq<nat>, i: nat) {
    i < |rows| && Exist(rows, batch) && forall j :: 0 <= j < |batch| ==> rows[batch[j]].createdAt <= rows[i].createdAt
  }

  /** The first `limit` leasable rows by created_at, ties in any order. */
  ghost predicate IsLeaseBatch(rows: seq<OutboxRow>, p: Pub, limit: nat, batch: seq<nat>) {
    && |batch| <= limit && Distinct(batch) && ByAge(rows, batch)
    && (forall j :: 0 <= j < |batch| ==> Leasable(rows, p, batch[j]))
    && (forall i: nat :: Leasable(rows, p, i) && i !in batch ==> |batch| == limit && NoneYounger(rows, batch, i))
  }

  /**
   After a reset each of its rows can be leased at once, published rows being never locked: the page that
   the query returns holds it, to be marked without being sent, or is full of rows none of them younger.
   */
  lemma ResetRowsComeBack(rows: seq<OutboxRow>, p: Pub, ids: set<nat>, limit: nat, batch: seq<nat>, i: nat)
    requires Inv(rows, p) && Enabled(rows, p, Reset(ids)) && i in ids
    requires IsLeaseBatch(rows, Next(rows, p, Reset(ids)), limit, batch)
    ensures Leasable(rows, Next(rows, p, Reset(ids)), i) && rows[i].eventId in p.processed
    ensures (i in ToMark(rows, p.processed, batch) && i !in ToSend(rows, p.processed, batch)) ||
      (|batch| == limit && NoneYounger(rows, batch, i))
  {
    assert Replayable(rows, p, i);
    forall k | 0 <= k < |p.leases| && p.leases[k].status == Open ensures i !in p.leases[k].batch {
      assert LeaseOk(rows, p, k);
    }
    CycleHandlesExactly(rows, p.processed, batch);
  }

  /** A leasable row that the gate refuses and no earlier cycle has recorded. */
  predicate Refused(rows: seq<OutboxRow>, p: Pub, i: nat) {
    Leasable(rows, p, i) && rows[i].eventId !in p.processed && !Publishable(ToMessage(rows[i].payload))
  }

  /** Every leasable row is refused, or stands behind `limit` older rows that are. */
  ghost predicate Idle(rows: seq<OutboxRow>, p: Pub, limit: nat) {
    forall i: nat :: Leasable(rows, p, i) ==> Refused(rows, p, i) || BehindRefused(rows, p, limit, i)
  }

  ghost predicate BehindRefused(rows: seq<OutboxRow>, p: Pub, limit: nat, i: nat)
    requires i < |rows|
  {
    exists batch: seq<nat> :: |batch| == limit && Distinct(batch) &&
      forall j :: 0 <= j < |batch| ==> Refused(rows, p, batch[j]) && rows[batch[j]].createdAt <= rows[i].createdAt
  }

  function AllRefused(rows: seq<OutboxRow>, p: Pub): set<nat> {
    set i: nat | i < |rows| && Refused(rows, p, i)
  }

  /** With fewer refused rows than a batch holds, an idle worker has left only those behind. */
  lemma IdleMeansDrained(rows: seq<OutboxRow>, p: Pub, limit: nat, i: nat)
    requires Idle(rows, p, limit) && |AllRefused(rows, p)| < limit && Leasable(rows, p, i)
    ensures Refused(rows, p, i)
  {
    if BehindRefused(rows, p, limit, i) {
      var batch: seq<nat> :| |batch| == limit && Distinct(batch) &&
        forall j :: 0 <= j < |batch| ==> Refused(rows, p, batch[j]) && rows[batch[j]].createdAt <= rows[i].createdAt;
      DistinctCount(batch);
      assert ToSet(batch) <= AllRefused(rows, p);
      SubsetCount(ToSet(batch), AllRefused(rows, p));
      assert false;
    }
  }

  lemma SomeMember(s: seq<nat>)
    requires s != []
    ensures exists i :: i in s
  {
    assert s[0] in s;
  }

  lemma BatchIsRefused(rows: seq<OutboxRow>, p: Pub, limit: nat, batch: seq<nat>)
    requires IsLeaseBatch(rows, p, limit, batch) && ToMark(rows, p.processed, batch) == []
    ensures ToSend(rows, p.processed, batch) == []
    ensures forall j :: 0 <= j < |batch| ==> Refused(rows, p, batch[j])
  {
    var sent := ToSend(rows, p.processed, batch);
    CycleHandlesExactly(rows, p.processed, batch);
    if sent != [] { SomeMember(sent); }
    forall j | 0 <= j < |batch| ensures Refused(rows, p, batch[j]) {
      assert batch[j] in batch;
    }
  }

  /** Committing or aborting a cycle that handled nothing leaves the lease query as it was. */
  lemma SameLeasable(rows: seq<OutboxRow>, p: Pub, p': Pub, limit: nat)
    requires p'.published == p.published && p'.processed == p.processed
    requires p.leases <= p'.leases && NoneOpenSince(p'.leases, |p.leases|)
    requires Idle(rows, p, limit)
    ensures Idle(rows, p', limit)
  {
    forall i: nat ensures Leasable(rows, p', i) <==> Leasable(rows, p, i) {
    }
    forall i: nat | Leasable(rows, p', i) && !Refused(rows, p', i) ensures BehindRefused(rows, p', limit, i) {
      assert BehindRefused(rows, p, limit, i);
      var batch: seq<nat> :| |batch| == limit && Distinct(batch) &&
        forall j :: 0 <= j < |batch| ==> Refused(rows, p, batch[j]) && rows[batch[j]].createdAt <= rows[i].createdAt;
      assert forall j :: 0 <= j < |batch| ==> Refused(rows, p', batch[j]);
    }
  }

  /** A fault-free cycle that handled nothing changed no table: its whole batch is refused. */
  lemma NothingMarked(rows: seq<OutboxRow>, p: Pub, p': Pub, limit: nat, batch: seq<nat>)
    requires IsLeaseBatch(rows, p, limit, batch) && CleanOutcome(rows, p, p', |p.leases|, batch, 0)
    requires p.leases <= p'.leases && NoneOpenSince(p'.leases, |p.leases|)
    ensures Idle(rows, p', limit)
  {
    BatchIsRefused(rows, p, limit, batch);
    assert EventsOf(rows, []) == {};
    SameLeasable(rows, p, p', limit);
  }

}
