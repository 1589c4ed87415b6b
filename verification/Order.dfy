/** The order in which the scan pages through session ids: character by character (C collation). */
module Order {

  predicate Less(a: string, b: string) {
    if b == "" then false
    else if a == "" then true
    else a[0] < b[0] || (a[0] == b[0] && Less(a[1..], b[1..]))
  }

  lemma {:induction false} Irreflexive(a: string)
    ensures !Less(a, a)
  {
    if a != "" { Irreflexive(a[1..]); }
  }

  lemma {:induction false} Transitive(a: string, b: string, c: string)
    requires Less(a, b) && Less(b, c)
    ensures Less(a, c)
  {
    if a != "" && a[0] == b[0] == c[0] { Transitive(a[1..], b[1..], c[1..]); }
  }

  lemma {:induction false} Total(a: string, b: string)
    ensures a == b || Less(a, b) || Less(b, a)
  {
    if a != "" && b != "" && a[0] == b[0] {
      Total(a[1..], b[1..]);
      assert a == [a[0]] + a[1..] && b == [b[0]] + b[1..];
    }
  }

  lemma Asymmetric(a: string, b: string)
    requires Less(a, b)
    ensures !Less(b, a)
  {
  }

  /** ids in strictly ascending order. */
  ghost predicate Ascending(ids: seq<string>) {
    forall i, j :: 0 <= i < j < |ids| ==> Less(ids[i], ids[j])
  }

  /** The least element of a nonempty set. */
  method Least(ids: set<string>) returns (least: string)
    requires ids != {}
    ensures least in ids
    ensures forall x :: x in ids && x != least ==> Less(least, x)
  {
    least :| least in ids;
    var rest := ids - {least};
    while rest != {}
      invariant least in ids && rest <= ids && least !in rest
      invariant forall x :: x in ids && x !in rest && x != least ==> Less(least, x)
      decreases rest
    {
      var x :| x in rest;
      rest := rest - {x};
      Total(x, least);
      if Less(x, least) {
        forall y | y in ids && y !in rest && y != x ensures Less(x, y) {
          if y != least { Transitive(x, least, y); }
        }
        least := x;
      }
    }
  }
}
