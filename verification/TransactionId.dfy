/** Metronome's idempotency key, session_id:sequence, and a parser that recovers both parts. */
module TransactionId {
  import opened Model

  function Digit(d: nat): char
    requires d < 10
  {
    '0' + d as char
  }

  /** Decimal text of a natural number, as the %d verb prints it. */
  function Natural(n: nat): string {
    if n < 10 then [Digit(n)] else Natural(n / 10) + [Digit(n % 10)]
  }

  function Decimal(n: int): string {
    if n < 0 then "-" + Natural(-n) else Natural(n)
  }

  function Make(sessionId: string, sequence: int): string {
    sessionId + ":" + Decimal(sequence)
  }

  predicate IsDigit(c: char) { '0' <= c <= '9' }

  function NaturalValue(s: string): Option<int> {
    if s == "" then None
    else if !IsDigit(s[|s| - 1]) then None
    else
      var last := (s[|s| - 1] - '0') as int;
      if |s| == 1 then Some(last)
      else match NaturalValue(s[..|s| - 1])
        case None => None
        case Some(v) => Some(10 * v + last)
  }

  function DecimalValue(s: string): Option<int> {
    if s != "" && s[0] == '-' then
      match NaturalValue(s[1..])
      case None => None
      case Some(v) => Some(-v)
    else
      match NaturalValue(s)
      case None => None
      case Some(v) => Some(v)
  }

  /** Splits at the last colon, so that colons inside the session id do no harm. */
  function Parse(s: string): Option<(string, int)> {
    ParseAt(s, |s|)
  }

  function ParseAt(s: string, end: nat): Option<(string, int)>
    requires end <= |s|
  {
    if end == 0 then None
    else if s[end - 1] == ':' then
      match DecimalValue(s[end..])
      case None => None
      case Some(v) => Some((s[..end - 1], v))
    else ParseAt(s, end - 1)
  }

  lemma {:induction false} NaturalRoundTrip(n: nat)
    ensures NaturalValue(Natural(n)) == Some(n)
    ensures forall c :: c in Natural(n) ==> IsDigit(c)
  {
    if n >= 10 {
      NaturalRoundTrip(n / 10);
      var s := Natural(n);
      assert s[..|s| - 1] == Natural(n / 10);
      assert s[|s| - 1] == Digit(n % 10);
    }
  }

  lemma DecimalRoundTrip(n: int)
    ensures DecimalValue(Decimal(n)) == Some(n)
    ensures ':' !in Decimal(n)
  {
    NaturalRoundTrip(if n < 0 then -n else n);
    if n < 0 {
      assert Decimal(n)[1..] == Natural(-n);
    } else {
      assert Decimal(n)[0] in Natural(n);
    }
  }

  lemma {:induction false} ParseSkipsSuffix(head: string, tail: string, k: nat)
    requires ':' !in tail && k <= |tail|
    ensures ParseAt(head + ":" + tail, |head| + 1 + k) == ParseAt(head + ":" + tail, |head| + 1)
  {
    if k > 0 {
      var s := head + ":" + tail;
      assert s[|head| + k] == tail[k - 1];
      ParseSkipsSuffix(head, tail, k - 1);
    }
  }

  /**
   For every session id, colons included, and every sequence: the id starts with the session id and a
   colon, and parsing undoes printing.
   */
  lemma RoundTrip(sessionId: string, sequence: int)
    ensures sessionId + ":" <= Make(sessionId, sequence)
    ensures Parse(Make(sessionId, sequence)) == Some((sessionId, sequence))
  {
    var d := Decimal(sequence);
    var s := Make(sessionId, sequence);
    DecimalRoundTrip(sequence);
    ParseSkipsSuffix(sessionId, d, |d|);
    assert s[|sessionId|] == ':';
    assert s[|sessionId| + 1..] == d && s[..|sessionId|] == sessionId;
  }

  lemma Injective(sessionId: string, sequence: int, sessionId': string, sequence': int)
    requires Make(sessionId, sequence) == Make(sessionId', sequence')
    ensures sessionId == sessionId' && sequence == sequence'
  {
    RoundTrip(sessionId, sequence);
    RoundTrip(sessionId', sequence');
  }
}
