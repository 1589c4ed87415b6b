/**
 Metronome's ledger: of all submissions it keeps the first per transaction id. The sums here relate
 the ledger to the outbox rows whose chunks it charges.
 */
module Ledger {
  import opened Model
  import opened Billing
  import opened Tiling
  import TransactionId

  predicate Known(subs: seq<Submission>, transactionId: string) {
    exists n :: 0 <= n < |subs| && subs[n].usage.transactionId == transactionId
  }

  /** The usages Metronome keeps, in order of arrival. */
  function Kept(subs: seq<Submission>): seq<Usage> {
    if subs == [] then []
    else
      var front, last := subs[..|subs| - 1], subs[|subs| - 1].usage;
      if Known(front, last.transactionId) then Kept(front) else Kept(front) + [last]
  }

  function KeyOf(c: Chunk): string {
    TransactionId.Make(c.sessionId, c.sequence)
  }

  function UsageOf(c: Chunk): Usage {
    BuildUsage(ToMessage(c))
  }

  predicate IsCharged(subs: seq<Submission>, c: Chunk) {
    Known(subs, KeyOf(c))
  }

  /** Every submission is the usage of some outbox chunk that passed the publisher's gate. */
  ghost predicate FromRows(rows: seq<OutboxRow>, subs: seq<Submission>) {
    forall n :: 0 <= n < |subs| ==> FromRow(rows, subs[n].usage)
  }

  ghost predicate FromRow(rows: seq<OutboxRow>, u: Usage) {
    exists i :: 0 <= i < |rows| && u == UsageOf(rows[i].payload) && Publishable(ToMessage(rows[i].payload))
  }

  ghost predicate KeyedRows(rows: seq<OutboxRow>) {
    DistinctKeys(rows) && forall i :: 0 <= i < |rows| ==> RowMatchesPayload(rows[i])
  }

  /** Distinct (session, sequence) pairs are exactly distinct transaction ids. */
  lemma KeysAreTransactionIds(rows: seq<OutboxRow>)
    requires forall i :: 0 <= i < |rows| ==> RowMatchesPayload(rows[i])
    ensures DistinctKeys(rows) <==>
      forall i, j :: 0 <= i < j < |rows| ==> KeyOf(rows[i].payload) != KeyOf(rows[j].payload)
  {
    forall i, j | 0 <= i < j < |rows|
      ensures KeyOf(rows[i].payload) == KeyOf(rows[j].payload) <==>
        rows[i].sessionId == rows[j].sessionId && rows[i].sequence == rows[j].sequence
    {
      if KeyOf(rows[i].payload) == KeyOf(rows[j].payload) {
        TransactionId.Injective(rows[i].sessionId, rows[i].sequence, rows[j].sessionId, rows[j].sequence);
      }
    }
  }

  lemma KnownAppend(subs: seq<Submission>, s: Submission, tx: string)
    ensures Known(subs + [s], tx) <==> Known(subs, tx) || s.usage.transactionId == tx
  {
    var all := subs + [s];
    if Known(subs, tx) {
      var n :| 0 <= n < |subs| && subs[n].usage.transactionId == tx;
      assert all[n] == subs[n];
    }
    if s.usage.transactionId == tx { assert all[|subs|] == s; }
  }

  ghost predicate HasEntry(kept: seq<Usage>, tx: string) {
    exists i :: 0 <= i < |kept| && kept[i].transactionId == tx
  }

  ghost predicate DistinctEntries(kept: seq<Usage>) {
    forall i, j :: 0 <= i < j < |kept| ==> kept[i].transactionId != kept[j].transactionId
  }

  lemma EntryAppend(kept: seq<Usage>, u: Usage, tx: string)
    ensures HasEntry(kept + [u], tx) <==> HasEntry(kept, tx) || u.transactionId == tx
  {
    var all := kept + [u];
    if HasEntry(kept, tx) {
      var i :| 0 <= i < |kept| && kept[i].transactionId == tx;
      assert all[i] == kept[i];
    }
    if u.transactionId == tx { assert all[|kept|] == u; }
  }

  /** Submission n is the first with its transaction id. */
  predicate IsFirst(subs: seq<Submission>, n: nat) {
    n < |subs| && !Known(subs[..n], subs[n].usage.transactionId)
  }

  /** u is what the first submission of its transaction id stated. */
  ghost predicate FirstStated(subs: seq<Submission>, u: Usage) {
    exists n: nat :: IsFirst(subs, n) && subs[n].usage == u
  }

  lemma FirstAppend(subs: seq<Submission>, s: Submission, u: Usage)
    ensures FirstStated(subs + [s], u) <==>
      FirstStated(subs, u) || (s.usage == u && !Known(subs, s.usage.transactionId))
  {
    var all := subs + [s];
    assert all[..|subs|] == subs;
    if FirstStated(subs, u) {
      var n: nat :| IsFirst(subs, n) && subs[n].usage == u;
      assert all[..n] == subs[..n];
      assert IsFirst(all, n);
    }
    if FirstStated(all, u) {
      var n: nat :| IsFirst(all, n) && all[n].usage == u;
      if n < |subs| {
        assert all[..n] == subs[..n];
        assert IsFirst(subs, n);
      }
    }
    if s.usage == u && !Known(subs, s.usage.transactionId) { assert IsFirst(all, |subs|); }
  }

  /**
   The ledger holds exactly one entry per known transaction id, and that entry is what the first
   submission of the id stated; whatever came later under the same id is not in it.
   */
  lemma {:induction false} KeptOncePerTransaction(subs: seq<Submission>)
    ensures DistinctEntries(Kept(subs))
    ensures forall tx :: HasEntry(Kept(subs), tx) <==> Known(subs, tx)
    ensures forall u :: u in Kept(subs) <==> FirstStated(subs, u)
  {
    if subs != [] {
      var front, last := subs[..|subs| - 1], subs[|subs| - 1];
      var kept := Kept(front);
      KeptOncePerTransaction(front);
      assert subs == front + [last];
      forall i | 0 <= i < |kept| ensures HasEntry(kept, kept[i].transactionId) {
      }
      forall tx ensures HasEntry(Kept(subs), tx) <==> Known(subs, tx) {
        KnownAppend(front, last, tx);
        EntryAppend(kept, last.usage, tx);
      }
      forall u ensures u in Kept(subs) <==> FirstStated(subs, u) {
        FirstAppend(front, last, u);
      }
    }
  }

  /** A repeated transaction id leaves the ledger as it is; a new one adds what its submission stated at the end. */
  lemma KeptAppend(subs: seq<Submission>, s: Submission)
    ensures Kept(subs + [s]) == Kept(subs) + if Known(subs, s.usage.transactionId) then [] else [s.usage]
  {
    assert (subs + [s])[..|subs|] == subs;
  }

  /** The ledger is append-only: no later submission changes, removes or reorders an entry. */
  lemma {:induction false} KeptGrows(subs: seq<Submission>, more: seq<Submission>)
    ensures Kept(subs) <= Kept(subs + more)
  {
    if more == [] {
      assert subs + more == subs;
    } else {
      var front, last := more[..|more| - 1], more[|more| - 1];
      KeptGrows(subs, front);
      KeptAppend(subs + front, last);
      assert subs + more == (subs + front) + [last];
    }
  }

  /** The numbers of the rows whose chunk is charged. */
  function ChargedRows(rows: seq<OutboxRow>, subs: seq<Submission>): set<nat> {
    set i: nat | i < |rows| && IsCharged(subs, rows[i].payload)
  }

  /** A submission of row i charges row i and no other; if it was charged already, nothing changes. */
  lemma SubmissionCharges(rows: seq<OutboxRow>, subs: seq<Submission>, s: Submission, i: nat)
    requires KeyedRows(rows) && i < |rows| && s.usage == UsageOf(rows[i].payload)
    ensures ChargedRows(rows, subs + [s]) == ChargedRows(rows, subs) + {i}
  {
    KeysAreTransactionIds(rows);
    forall j: nat | j < |rows|
      ensures IsCharged(subs + [s], rows[j].payload) <==> IsCharged(subs, rows[j].payload) || j == i
    {
      KnownAppend(subs, s, KeyOf(rows[j].payload));
    }
  }

  /** u is the usage of a charged row that passed the publisher's gate. */
  ghost predicate ChargesRow(rows: seq<OutboxRow>, subs: seq<Submission>, u: Usage) {
    exists i: nat :: i in ChargedRows(rows, subs) && u == UsageOf(rows[i].payload) && Publishable(ToMessage(rows[i].payload))
  }

  lemma EntryChargesRow(rows: seq<OutboxRow>, subs: seq<Submission>, k: nat)
    requires FromRows(rows, subs) && k < |Kept(subs)|
    ensures ChargesRow(rows, subs, Kept(subs)[k])
  {
  }

  lemma ChargedRowHasEntry(rows: seq<OutboxRow>, subs: seq<Submission>, i: nat)
    requires KeyedRows(rows) && FromRows(rows, subs) && i in ChargedRows(rows, subs)
    ensures UsageOf(rows[i].payload) in Kept(subs)
  {
    KeptOncePerTransaction(subs);
    assert HasEntry(Kept(subs), KeyOf(rows[i].payload));
    var k :| 0 <= k < |Kept(subs)| && Kept(subs)[k].transactionId == KeyOf(rows[i].payload);
    EntryChargesRow(rows, subs, k);
    var j: nat :| j in ChargedRows(rows, subs) && Kept(subs)[k] == UsageOf(rows[j].payload);
    KeysAreTransactionIds(rows);
    assert j == i;
  }

  // ---------- Sums ----------

  /** Time charged to a session in the ledger. */
  function LedgerLength(kept: seq<Usage>, id: string): int {
    if kept == [] then 0
    else
      var u := kept[|kept| - 1];
      LedgerLength(kept[..|kept| - 1], id) + if u.sessionId == id then u.Length() else 0
  }

  /** Total length of the session's outbox chunks that are charged. */
  function ChargedLength(rows: seq<OutboxRow>, subs: seq<Submission>, id: string): int {
    if rows == [] then 0
    else
      var r := rows[|rows| - 1];
      ChargedLength(rows[..|rows| - 1], subs, id) +
      if r.sessionId == id && IsCharged(subs, r.payload) then r.payload.Length() else 0
  }

  /** Among keyed rows, a submission with a new transaction id charges row n exactly if it is its row. */
  lemma NewChargeAt(rows: seq<OutboxRow>, subs: seq<Submission>, s: Submission, i: nat, n: nat)
    requires KeyedRows(rows) && i < |rows| && n < |rows|
    requires s.usage == UsageOf(rows[i].payload) && !Known(subs, s.usage.transactionId)
    ensures IsCharged(subs + [s], rows[n].payload) <==> IsCharged(subs, rows[n].payload) || n == i
    ensures n == i ==> !IsCharged(subs, rows[n].payload)
  {
    KnownAppend(subs, s, KeyOf(rows[n].payload));
    KeysAreTransactionIds(rows);
  }

  lemma ChargedLengthStep(rows: seq<OutboxRow>, subs: seq<Submission>, id: string, n: nat)
    requires n < |rows|
    ensures ChargedLength(rows[..n + 1], subs, id) == ChargedLength(rows[..n], subs, id) +
      if rows[n].sessionId == id && IsCharged(subs, rows[n].payload) then rows[n].payload.Length() else 0
  {
    assert rows[..n + 1][..n] == rows[..n];
  }

  /** Submission s is new, and it is row i's. */
  predicate IsNewCharge(rows: seq<OutboxRow>, subs: seq<Submission>, s: Submission, i: nat) {
    i < |rows| && s.usage == UsageOf(rows[i].payload) && !Known(subs, s.usage.transactionId)
  }

  lemma NewChargeStep(rows: seq<OutboxRow>, subs: seq<Submission>, s: Submission, i: nat, id: string, n: nat)
    requires KeyedRows(rows) && IsNewCharge(rows, subs, s, i) && n < |rows|
    ensures ChargedLength(rows[..n + 1], subs + [s], id) - ChargedLength(rows[..n], subs + [s], id) ==
      ChargedLength(rows[..n + 1], subs, id) - ChargedLength(rows[..n], subs, id) +
      if i == n && rows[i].sessionId == id then rows[i].payload.Length() else 0
  {
    NewChargeAt(rows, subs, s, i, n);
    ChargedLengthStep(rows, subs, id, n);
    ChargedLengthStep(rows, subs + [s], id, n);
  }

  /** A submission with a new transaction id makes exactly one row charged. */
  lemma {:induction false} NewChargeAdds(rows: seq<OutboxRow>, subs: seq<Submission>, s: Submission, i: nat, id: string,
                                         n: nat)
    requires KeyedRows(rows) && IsNewCharge(rows, subs, s, i) && n <= |rows|
    ensures ChargedLength(rows[..n], subs + [s], id) == ChargedLength(rows[..n], subs, id) +
      if i < n && rows[i].sessionId == id then rows[i].payload.Length() else 0
  {
    if n > 0 {
      var m := n - 1;
      NewChargeAdds(rows, subs, s, i, id, m);
      NewChargeStep(rows, subs, s, i, id, m);
    }
  }

  /** A repeated transaction id changes nothing. */
  lemma {:induction false} RepeatAddsNothing(rows: seq<OutboxRow>, subs: seq<Submission>, s: Submission, id: string)
    requires Known(subs, s.usage.transactionId)
    ensures ChargedLength(rows, subs + [s], id) == ChargedLength(rows, subs, id)
  {
    if rows != [] {
      RepeatAddsNothing(rows[..|rows| - 1], subs, s, id);
      KnownAppend(subs, s, KeyOf(rows[|rows| - 1].payload));
    }
  }

  lemma {:induction false} NothingCharged(rows: seq<OutboxRow>, id: string)
    ensures ChargedLength(rows, [], id) == 0
  {
    if rows != [] { NothingCharged(rows[..|rows| - 1], id); }
  }

  /** What the ledger charges a session is the total length of that session's charged chunks. */
  lemma {:induction false} LedgerMatchesRows(rows: seq<OutboxRow>, subs: seq<Submission>, id: string)
    requires KeyedRows(rows) && FromRows(rows, subs)
    ensures LedgerLength(Kept(subs), id) == ChargedLength(rows, subs, id)
  {
    if subs == [] {
      NothingCharged(rows, id);
    } else {
      var front, last := subs[..|subs| - 1], subs[|subs| - 1];
      assert subs == front + [last];
      LedgerMatchesRows(rows, front, id);
      if Known(front, last.usage.transactionId) {
        RepeatAddsNothing(rows, front, last, id);
      } else {
        assert FromRow(rows, last.usage);
        var i :| 0 <= i < |rows| && last.usage == UsageOf(rows[i].payload);
        NewChargeAdds(rows, front, last, i, id, |rows|);
        assert rows[..|rows|] == rows;
        assert (Kept(front) + [last.usage])[..|Kept(front)|] == Kept(front);
      }
    }
  }

  /** Total length of the session's chunks that are not charged. */
  function UnchargedLength(rows: seq<OutboxRow>, subs: seq<Submission>, id: string): int {
    if rows == [] then 0
    else
      var r := rows[|rows| - 1];
      UnchargedLength(rows[..|rows| - 1], subs, id) +
      if r.sessionId == id && !IsCharged(subs, r.payload) then r.payload.Length() else 0
  }

  lemma {:induction false} ChargedAndUncharged(rows: seq<OutboxRow>, subs: seq<Submission>, id: string)
    ensures ChargedLength(rows, subs, id) + UnchargedLength(rows, subs, id) == TotalLength(ChunksOf(rows, id))
  {
    if rows != [] {
      var front, r := rows[..|rows| - 1], rows[|rows| - 1];
      var cs := ChunksOf(front, id);
      ChargedAndUncharged(front, subs, id);
      assert r.sessionId == id ==> ChunksOf(rows, id)[..|cs|] == cs;
      assert r.sessionId != id ==> ChunksOf(rows, id) == cs;
    }
  }

  ghost predicate AllCharged(rows: seq<OutboxRow>, subs: seq<Submission>, id: string) {
    forall i :: 0 <= i < |rows| && rows[i].sessionId == id && rows[i].payload.from < rows[i].payload.to ==>
      IsCharged(subs, rows[i].payload)
  }

  /** No chunk of the session ends before it starts. */
  predicate Forward(rows: seq<OutboxRow>, id: string) {
    forall i :: 0 <= i < |rows| && rows[i].sessionId == id ==> rows[i].payload.from <= rows[i].payload.to
  }

  lemma {:induction false} UnchargedIsPositive(rows: seq<OutboxRow>, subs: seq<Submission>, id: string)
    requires Forward(rows, id)
    ensures 0 <= UnchargedLength(rows, subs, id)
    ensures UnchargedLength(rows, subs, id) == 0 <==> AllCharged(rows, subs, id)
  {
    if rows != [] {
      var front, r := rows[..|rows| - 1], rows[|rows| - 1];
      UnchargedIsPositive(front, subs, id);
      var lastOk := r.sessionId == id && r.payload.from < r.payload.to ==> IsCharged(subs, r.payload);
      assert AllCharged(rows, subs, id) <==> (AllCharged(front, subs, id) && lastOk) by {
        assert rows == front + [r];
        if AllCharged(rows, subs, id) {
          forall i | 0 <= i < |front| && front[i].sessionId == id && front[i].payload.from < front[i].payload.to
            ensures IsCharged(subs, front[i].payload)
          {
            assert rows[i] == front[i];
          }
        }
      }
    }
  }

  /** Charged time is at most the total, and equal exactly when every chunk of positive length is charged. */
  lemma ChargedAtMostTotal(rows: seq<OutboxRow>, subs: seq<Submission>, id: string)
    requires Forward(rows, id)
    ensures ChargedLength(rows, subs, id) <= TotalLength(ChunksOf(rows, id))
    ensures ChargedLength(rows, subs, id) == TotalLength(ChunksOf(rows, id)) <==> AllCharged(rows, subs, id)
  {
    ChargedAndUncharged(rows, subs, id);
    UnchargedIsPositive(rows, subs, id);
  }

  // ---------- The most a ledger can hold ----------

  /** What one row adds to the time that can be charged to the session. */
  function Passed(r: OutboxRow, id: string): int {
    if r.sessionId == id && Publishable(ToMessage(r.payload)) then r.payload.Length() else 0
  }

  /** Total length of the session's chunks that pass the publisher's gate. */
  function PassedLength(rows: seq<OutboxRow>, id: string): int {
    if rows == [] then 0 else PassedLength(rows[..|rows| - 1], id) + Passed(rows[|rows| - 1], id)
  }

  /** Total length of those that do not. */
  function RefusedLength(rows: seq<OutboxRow>, id: string): int {
    if rows == [] then 0
    else
      var r := rows[|rows| - 1];
      RefusedLength(rows[..|rows| - 1], id) +
      if r.sessionId == id && !Publishable(ToMessage(r.payload)) then r.payload.Length() else 0
  }

  lemma {:induction false} PassedAndRefused(rows: seq<OutboxRow>, id: string)
    ensures PassedLength(rows, id) + RefusedLength(rows, id) == TotalLength(ChunksOf(rows, id))
  {
    if rows != [] {
      var front, r := rows[..|rows| - 1], rows[|rows| - 1];
      var cs := ChunksOf(front, id);
      PassedAndRefused(front, id);
      assert r.sessionId == id ==> ChunksOf(rows, id)[..|cs|] == cs;
      assert r.sessionId != id ==> ChunksOf(rows, id) == cs;
    }
  }

  /** Every row that passes the gate is charged. */
  predicate Covers(rows: seq<OutboxRow>, subs: seq<Submission>) {
    forall i :: 0 <= i < |rows| && Publishable(ToMessage(rows[i].payload)) ==> IsCharged(subs, rows[i].payload)
  }

  /** The ids in the session's chunks are not empty. */
  predicate Named(rows: seq<OutboxRow>, id: string) {
    forall i :: 0 <= i < |rows| && rows[i].sessionId == id ==>
      rows[i].payload.eventId != "" && rows[i].payload.sessionId != "" && rows[i].payload.sandboxId != ""
  }

  /** With all ids present the gate refuses exactly the chunks of no positive length. */
  lemma {:induction false} RefusedIsNegative(rows: seq<OutboxRow>, id: string)
    requires Named(rows, id)
    ensures RefusedLength(rows, id) <= 0
    ensures RefusedLength(rows, id) == 0 <==> Forward(rows, id)
  {
    if rows != [] {
      var front, r := rows[..|rows| - 1], rows[|rows| - 1];
      assert rows == front + [r];
      assert forall i :: 0 <= i < |front| ==> front[i] == rows[i];
      RefusedIsNegative(front, id);
    }
  }
}
