/**
 The most that Metronome can charge a session for given outbox rows: of each sequence number the
 longest chunk that passes the publisher's gate. Repeated numbers, stale commits and clocks that step
 back are all allowed.
 */
module Ceiling {
  import opened Model
  import opened Billing
  import opened Ledger
  import Generation
  import TransactionId

  function Max(a: int, b: int): int {
    if a < b then b else a
  }

  /** What one row offers as number n of the session. */
  function Offered(r: OutboxRow, id: string, n: int): nat {
    if r.sequence == n then Passed(r, id) else 0
  }

  /** Length of the longest valid chunk of the session numbered n, 0 when there is none. */
  function Longest(rows: seq<OutboxRow>, id: string, n: int): nat {
    if rows == [] then 0 else Max(Longest(rows[..|rows| - 1], id, n), Offered(rows[|rows| - 1], id, n))
  }

  function SumLongest(rows: seq<OutboxRow>, id: string, k: nat): nat {
    if k == 0 then 0 else SumLongest(rows, id, k - 1) + Longest(rows, id, k)
  }

  /** The session's rows are numbered 1..k, and the columns of each row agree with its payload. */
  predicate NumberedTo(rows: seq<OutboxRow>, id: string, k: int) {
    && (forall i :: 0 <= i < |rows| ==> RowMatchesPayload(rows[i]))
    && (forall i :: 0 <= i < |rows| && rows[i].sessionId == id ==> 1 <= rows[i].sequence <= k)
  }

  lemma RowsAreNumbered(g: Generation.Gen, id: string)
    requires Generation.Inv(g)
    ensures NumberedTo(g.rows, id, Generation.LargestSequence(g.rows, id))
  {
    forall i: nat | i < |g.rows| && g.rows[i].sessionId == id
      ensures 1 <= g.rows[i].sequence <= Generation.LargestSequence(g.rows, id)
    {
      Generation.EmittedIsPositive(g, i);
      Generation.LargestIsLargest(g.rows, id, i);
    }
  }

  /** The longest valid chunks of all numbers of the session together. */
  function LargestCharge(rows: seq<OutboxRow>, id: string): nat {
    SumLongest(rows, id, Generation.LargestSequence(rows, id))
  }

  lemma {:induction false} LongestIsLongest(rows: seq<OutboxRow>, id: string, i: nat)
    requires i < |rows|
    ensures Passed(rows[i], id) <= Longest(rows, id, rows[i].sequence)
  {
    if i < |rows| - 1 { LongestIsLongest(rows[..|rows| - 1], id, i); }
  }

  predicate IsChunkAt(r: OutboxRow, id: string, n: int) {
    r.sessionId == id && r.sequence == n && Publishable(ToMessage(r.payload))
  }

  lemma {:induction false} LongestRow(rows: seq<OutboxRow>, id: string, n: int) returns (i: nat)
    requires Longest(rows, id, n) > 0
    ensures i < |rows| && IsChunkAt(rows[i], id, n) && rows[i].payload.Length() == Longest(rows, id, n)
  {
    var front := rows[..|rows| - 1];
    if Longest(front, id, n) == Longest(rows, id, n) {
      i := LongestRow(front, id, n);
    } else {
      i := |rows| - 1;
    }
  }

  lemma {:induction false} NoneAt(rows: seq<OutboxRow>, id: string, n: int)
    requires forall i :: 0 <= i < |rows| ==> !(rows[i].sessionId == id && rows[i].sequence == n)
    ensures Longest(rows, id, n) == 0
  {
    if rows != [] { NoneAt(rows[..|rows| - 1], id, n); }
  }

  /** Of distinct keys, the one row with a number is the longest of it. */
  lemma {:induction false} OnlyRowAt(rows: seq<OutboxRow>, id: string, i: nat)
    requires KeyedRows(rows) && i < |rows| && rows[i].sessionId == id
    ensures Longest(rows, id, rows[i].sequence) == Passed(rows[i], id)
  {
    var front := rows[..|rows| - 1];
    if i < |front| {
      OnlyRowAt(front, id, i);
    } else {
      NoneAt(front, id, rows[i].sequence);
    }
  }

  // ---------- A ledger by numbers ----------

  function EntryAt(u: Usage, id: string, n: int): int {
    if u.sessionId == id && u.sequence == n then u.Length() else 0
  }

  /** Time that the ledger charges the session under number n. */
  function EntriesAt(kept: seq<Usage>, id: string, n: int): int {
    if kept == [] then 0 else EntriesAt(kept[..|kept| - 1], id, n) + EntryAt(kept[|kept| - 1], id, n)
  }

  function SumEntries(kept: seq<Usage>, id: string, k: nat): int {
    if k == 0 then 0 else SumEntries(kept, id, k - 1) + EntriesAt(kept, id, k)
  }

  predicate EntriesNumberedTo(kept: seq<Usage>, id: string, k: int) {
    forall i :: 0 <= i < |kept| && kept[i].sessionId == id ==> 1 <= kept[i].sequence <= k
  }

  lemma {:induction false} SumEntriesAppend(kept: seq<Usage>, u: Usage, id: string, k: nat)
    ensures SumEntries(kept + [u], id, k) ==
      SumEntries(kept, id, k) + if u.sessionId == id && 1 <= u.sequence <= k then u.Length() else 0
  {
    if k > 0 {
      SumEntriesAppend(kept, u, id, k - 1);
      assert (kept + [u])[..|kept|] == kept;
    }
  }

  lemma {:induction false} NoEntries(id: string, k: nat)
    ensures SumEntries([], id, k) == 0
  {
    if k > 0 { NoEntries(id, k - 1); }
  }

  lemma {:induction false} LedgerByNumber(kept: seq<Usage>, id: string, k: nat)
    requires EntriesNumberedTo(kept, id, k)
    ensures LedgerLength(kept, id) == SumEntries(kept, id, k)
  {
    if kept == [] {
      NoEntries(id, k);
    } else {
      var front, last := kept[..|kept| - 1], kept[|kept| - 1];
      LedgerByNumber(front, id, k);
      SumEntriesAppend(front, last, id, k);
      assert kept == front + [last];
    }
  }

  /** No two entries bear the same number of the same session. */
  ghost predicate DistinctNumbers(kept: seq<Usage>) {
    forall i, j :: 0 <= i < j < |kept| ==> kept[i].sessionId != kept[j].sessionId || kept[i].sequence != kept[j].sequence
  }

  lemma {:induction false} NoEntryAt(kept: seq<Usage>, id: string, n: int)
    requires forall i :: 0 <= i < |kept| ==> !(kept[i].sessionId == id && kept[i].sequence == n)
    ensures EntriesAt(kept, id, n) == 0
  {
    if kept != [] { NoEntryAt(kept[..|kept| - 1], id, n); }
  }

  lemma {:induction false} OneEntryAt(kept: seq<Usage>, id: string, n: int, i: nat)
    requires DistinctNumbers(kept) && i < |kept| && kept[i].sessionId == id && kept[i].sequence == n
    ensures EntriesAt(kept, id, n) == kept[i].Length()
  {
    var front := kept[..|kept| - 1];
    if i < |front| {
      OneEntryAt(front, id, n, i);
    } else {
      NoEntryAt(front, id, n);
    }
  }

  /** Each entry is the usage of a valid row, under the transaction id of its session and number. */
  lemma EntriesAreRows(rows: seq<OutboxRow>, subs: seq<Submission>, id: string, k: nat)
    requires FromRows(rows, subs) && NumberedTo(rows, id, k)
    ensures EntriesNumberedTo(Kept(subs), id, k) && DistinctNumbers(Kept(subs))
    ensures forall i :: 0 <= i < |Kept(subs)| ==> FromRow(rows, Kept(subs)[i])
  {
    KeptOncePerTransaction(subs);
    forall i | 0 <= i < |Kept(subs)| ensures FromRow(rows, Kept(subs)[i]) {
      assert FirstStated(subs, Kept(subs)[i]);
    }
  }

  lemma EntryIsNoLonger(rows: seq<OutboxRow>, subs: seq<Submission>, id: string, k: nat, n: nat)
    requires FromRows(rows, subs) && NumberedTo(rows, id, k)
    ensures EntriesAt(Kept(subs), id, n) <= Longest(rows, id, n)
  {
    var kept := Kept(subs);
    EntriesAreRows(rows, subs, id, k);
    if i: nat :| i < |kept| && kept[i].sessionId == id && kept[i].sequence == n {
      OneEntryAt(kept, id, n, i);
      assert FromRow(rows, kept[i]);
      var j: nat :| j < |rows| && kept[i] == UsageOf(rows[j].payload) && Publishable(ToMessage(rows[j].payload));
      assert RowMatchesPayload(rows[j]);
      LongestIsLongest(rows, id, j);
    } else {
      NoEntryAt(kept, id, n);
    }
  }

  lemma {:induction false} SumsCompare(kept: seq<Usage>, rows: seq<OutboxRow>, id: string, k: nat)
    ensures (forall n: nat :: 1 <= n <= k ==> EntriesAt(kept, id, n) <= Longest(rows, id, n)) ==>
      SumEntries(kept, id, k) <= SumLongest(rows, id, k)
    ensures (forall n: nat :: 1 <= n <= k ==> EntriesAt(kept, id, n) == Longest(rows, id, n)) ==>
      SumEntries(kept, id, k) == SumLongest(rows, id, k)
  {
    if k > 0 { SumsCompare(kept, rows, id, k - 1); }
  }

  /** No ledger for these rows charges the session more than its longest chunk of each number. */
  lemma AtMostLongest(rows: seq<OutboxRow>, subs: seq<Submission>, id: string, k: nat)
    requires FromRows(rows, subs) && NumberedTo(rows, id, k)
    ensures LedgerLength(Kept(subs), id) <= SumLongest(rows, id, k)
  {
    EntriesAreRows(rows, subs, id, k);
    LedgerByNumber(Kept(subs), id, k);
    forall n: nat | 1 <= n <= k ensures EntriesAt(Kept(subs), id, n) <= Longest(rows, id, n) {
      EntryIsNoLonger(rows, subs, id, k, n);
    }
    SumsCompare(Kept(subs), rows, id, k);
  }

  /** Of the session only longest chunks are submitted, and of each of the first k numbers one. */
  ghost predicate ChargesLongest(rows: seq<OutboxRow>, subs: seq<Submission>, id: string, k: nat) {
    && (forall m :: 0 <= m < |subs| && subs[m].usage.sessionId == id ==>
          subs[m].usage.Length() == Longest(rows, id, subs[m].usage.sequence))
    && (forall n :: 1 <= n <= k && Longest(rows, id, n) > 0 ==> Known(subs, TransactionId.Make(id, n)))
  }

  lemma EntryIsLongest(rows: seq<OutboxRow>, subs: seq<Submission>, id: string, k: nat, n: nat)
    requires FromRows(rows, subs) && NumberedTo(rows, id, k) && ChargesLongest(rows, subs, id, k) && 1 <= n <= k
    ensures EntriesAt(Kept(subs), id, n) == Longest(rows, id, n)
  {
    var kept := Kept(subs);
    EntriesAreRows(rows, subs, id, k);
    KeptOncePerTransaction(subs);
    if i: nat :| i < |kept| && kept[i].sessionId == id && kept[i].sequence == n {
      OneEntryAt(kept, id, n, i);
      assert FirstStated(subs, kept[i]);
    } else {
      NoEntryAt(kept, id, n);
      if Longest(rows, id, n) > 0 {
        assert HasEntry(kept, TransactionId.Make(id, n));
        var i :| 0 <= i < |kept| && kept[i].transactionId == TransactionId.Make(id, n);
        assert FromRow(rows, kept[i]);
        TransactionId.Injective(kept[i].sessionId, kept[i].sequence, id, n);
        assert false;
      }
    }
  }

  lemma LongestIsCharged(rows: seq<OutboxRow>, subs: seq<Submission>, id: string, k: nat)
    requires FromRows(rows, subs) && NumberedTo(rows, id, k) && ChargesLongest(rows, subs, id, k)
    ensures LedgerLength(Kept(subs), id) == SumLongest(rows, id, k)
  {
    EntriesAreRows(rows, subs, id, k);
    LedgerByNumber(Kept(subs), id, k);
    forall n: nat | 1 <= n <= k ensures EntriesAt(Kept(subs), id, n) == Longest(rows, id, n) {
      EntryIsLongest(rows, subs, id, k, n);
    }
    SumsCompare(Kept(subs), rows, id, k);
  }

  // ---------- The most that some rows allow ----------

  lemma PickOne(rows: seq<OutboxRow>, id: string, k: nat, n: nat, before: seq<Submission>) returns (s: Submission)
    requires NumberedTo(rows, id, k) && FromRows(rows, before) && ChargesLongest(rows, before, id, n)
    requires Longest(rows, id, n + 1) > 0
    ensures FromRows(rows, before + [s]) && ChargesLongest(rows, before + [s], id, n + 1)
  {
    var i := LongestRow(rows, id, n + 1);
    s := Submission(UsageOf(rows[i].payload), 0);
    assert RowMatchesPayload(rows[i]) && FromRow(rows, s.usage);
    forall m | 1 <= m <= n + 1 && Longest(rows, id, m) > 0 ensures Known(before + [s], TransactionId.Make(id, m)) {
      KnownAppend(before, s, TransactionId.Make(id, m));
    }
  }

  lemma {:induction false} PickLongest(rows: seq<OutboxRow>, id: string, k: nat, n: nat) returns (subs: seq<Submission>)
    requires NumberedTo(rows, id, k)
    ensures FromRows(rows, subs) && ChargesLongest(rows, subs, id, n)
  {
    subs := [];
    if n > 0 {
      subs := PickLongest(rows, id, k, n - 1);
      if Longest(rows, id, n) > 0 {
        var s := PickOne(rows, id, k, n - 1, subs);
        subs := subs + [s];
      }
    }
  }

  /** No ledger that Metronome could keep for these rows charges the session more than x. */
  ghost predicate NeverMoreThan(rows: seq<OutboxRow>, id: string, x: int) {
    forall subs {:trigger FromRows(rows, subs)} :: FromRows(rows, subs) ==> LedgerLength(Kept(subs), id) <= x
  }

  /** The most that can be charged is the longest valid chunk of every number. */
  lemma MostCharged(rows: seq<OutboxRow>, id: string, k: nat, x: int)
    requires NumberedTo(rows, id, k)
    ensures NeverMoreThan(rows, id, x) <==> SumLongest(rows, id, k) <= x
  {
    var subs := PickLongest(rows, id, k, k);
    LongestIsCharged(rows, subs, id, k);
    forall other | FromRows(rows, other) ensures LedgerLength(Kept(other), id) <= SumLongest(rows, id, k) {
      AtMostLongest(rows, other, id, k);
    }
  }

  // ---------- One more row ----------

  /** By how much a row raises the most that can be charged. */
  function Raised(rows: seq<OutboxRow>, r: OutboxRow, id: string): nat {
    Max(0, Passed(r, id) - Longest(rows, id, r.sequence))
  }

  lemma {:induction false} SumLongestAppend(rows: seq<OutboxRow>, r: OutboxRow, id: string, k: nat)
    ensures SumLongest(rows + [r], id, k) ==
      SumLongest(rows, id, k) + if 1 <= r.sequence <= k then Raised(rows, r, id) else 0
  {
    if k > 0 {
      SumLongestAppend(rows, r, id, k - 1);
      assert (rows + [r])[..|rows|] == rows;
    }
  }

  lemma {:induction false} NothingLongest(id: string, k: nat)
    ensures SumLongest([], id, k) == 0
  {
    if k > 0 { NothingLongest(id, k - 1); }
  }

  /** Numbers beyond the largest add nothing. */
  lemma {:induction false} SumLongestStops(rows: seq<OutboxRow>, id: string, k: nat, n: nat)
    requires NumberedTo(rows, id, k) && k <= n
    ensures SumLongest(rows, id, n) == SumLongest(rows, id, k)
  {
    if k < n {
      SumLongestStops(rows, id, k, n - 1);
      NoneAt(rows, id, n);
    }
  }

  /** With distinct keys every valid chunk counts. */
  lemma {:induction false} KeyedSum(rows: seq<OutboxRow>, id: string, k: nat)
    requires KeyedRows(rows) && NumberedTo(rows, id, k)
    ensures SumLongest(rows, id, k) == PassedLength(rows, id)
  {
    if rows == [] {
      NothingLongest(id, k);
    } else {
      var front, r := rows[..|rows| - 1], rows[|rows| - 1];
      KeyedSum(front, id, k);
      SumLongestAppend(front, r, id, k);
      assert rows == front + [r];
      if r.sessionId == id {
        forall i | 0 <= i < |front| ensures !(front[i].sessionId == id && front[i].sequence == r.sequence) {
          assert rows[i] == front[i];
        }
        NoneAt(front, id, r.sequence);
      }
    }
  }
}
