/** The rows, payloads and messages that the three services exchange. */
module Model {

  datatype Option<+T> = None | Some(value: T)

  /** Instants are ticks since the zero value of the source's time type. */
  const ZERO_TIME: int := 0

  const BILLING_CHUNK_CREATED: string := "billing_chunk_created"

  datatype SessionStatus = SessionActive | SessionFinished
  datatype BillingStatus = BillingActive | BillingCompleted

  /** A row of usage_sessions. */
  datatype Session = Session(
    id: string, sandboxId: string, organizationId: string,
    startAt: int, endAt: Option<int>, status: SessionStatus,
    lastBilledAt: Option<int>, billingStatus: BillingStatus, billingSequence: int)

  /** The payload stored in an outbox row. */
  datatype Chunk = Chunk(
    eventId: string, sessionId: string, sandboxId: string, organizationId: string,
    sequence: int, from: int, to: int)
  {
    function Length(): int { to - from }
  }

  /** A row of outbox_events without published_at, the one column that changes later. */
  datatype OutboxRow = OutboxRow(
    eventId: string, eventType: string, sessionId: string, sequence: int,
    payload: Chunk, createdAt: int)

  /** The chunk as it travels on the usage-billing-chunks topic. */
  datatype ChunkMessage = ChunkMessage(
    eventId: string, sessionId: string, sandboxId: string, organizationId: string,
    sequence: int, from: int, to: int)

  function ToMessage(c: Chunk): ChunkMessage {
    ChunkMessage(c.eventId, c.sessionId, c.sandboxId, c.organizationId, c.sequence, c.from, c.to)
  }

  /** The publisher's gate: the three ids are present and the interval has positive length. */
  predicate Publishable(m: ChunkMessage) {
    m.eventId != "" && m.sessionId != "" && m.sandboxId != "" && m.to > m.from
  }

  /** The columns the outbox row repeats from its payload agree with it. */
  predicate RowMatchesPayload(r: OutboxRow) {
    && r.eventType == BILLING_CHUNK_CREATED
    && r.eventId == r.payload.eventId
    && r.sessionId == r.payload.sessionId
    && r.sequence == r.payload.sequence
  }

  /** UNIQUE (event_id) on outbox_events. */
  ghost predicate DistinctEventIds(rows: seq<OutboxRow>) {
    forall i, j :: 0 <= i < j < |rows| ==> rows[i].eventId != rows[j].eventId
  }

  predicate EventIdTaken(rows: seq<OutboxRow>, eventId: string) {
    exists i :: 0 <= i < |rows| && rows[i].eventId == eventId
  }

  /** Peeling the first step off a run. */
  lemma SplitFirst<A>(first: seq<A>, second: seq<A>)
    requires first != []
    ensures first + second == [first[0]] + (first[1..] + second)
    ensures (first + second)[0] == first[0] && (first + second)[1..] == first[1..] + second
  {
  }
}
