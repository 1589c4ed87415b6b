/**
 The environment's failures. Each external call may fail, and a freshly drawn id may collide with a
 taken one, as long as the budget lasts; the budget makes "finitely many failures" countable. A log
 says which calls have failed.
 */
module Faults {

  /** The kinds of external calls. */
  datatype Call =
    | BeginTx | CountRows | FetchPage | LookUp | DrawId | WriteRows | MarkRows | CommitTx | KafkaSend | MetronomeSend

  /** Every failure since the log had n entries is of one of these kinds. */
  predicate OnlyFailed(log: seq<Call>, n: nat, kinds: set<Call>) {
    forall j :: n <= j < |log| ==> log[j] in kinds
  }

  lemma OnlyFailedOn(log: seq<Call>, log': seq<Call>, n: nat, kinds: set<Call>)
    requires log <= log' && n <= |log|
    ensures OnlyFailed(log', n, kinds) <==> OnlyFailed(log, n, kinds) && OnlyFailed(log', |log|, kinds)
  {
    if OnlyFailed(log', n, kinds) {
      forall j | n <= j < |log| ensures log[j] in kinds { assert log'[j] == log[j]; }
    }
  }

  lemma OneFailure(log: seq<Call>, call: Call, kinds: set<Call>)
    ensures OnlyFailed(log + [call], |log|, kinds) <==> call in kinds
  {
    assert (log + [call])[|log|] == call;
  }

  /** Where only other kinds can fail, nothing but the given kinds has failed exactly if nothing failed there. */
  lemma NoneOfOthers(log: seq<Call>, log': seq<Call>, n: nat, kinds: set<Call>, others: set<Call>)
    requires log <= log' && n <= |log| && kinds !! others && OnlyFailed(log', |log|, others)
    ensures OnlyFailed(log', n, kinds) <==> OnlyFailed(log, n, kinds) && |log'| == |log|
  {
    OnlyFailedOn(log, log', n, kinds);
    if |log| < |log'| { assert log'[|log|] in others; }
  }

  /** Each failure uses up one unit of the budget. */
  predicate Accounts(log: seq<Call>, budget: nat, log': seq<Call>, budget': nat) {
    log <= log' && budget' + |log'| == budget + |log|
  }

  class Environment {
    var budget: nat
    var failures: seq<Call>

    constructor (budget: nat)
      ensures this.budget == budget && failures == []
    {
      this.budget, failures := budget, [];
    }

    method Fail(call: Call)
      requires budget > 0
      modifies this
      ensures budget == old(budget) - 1 && failures == old(failures) + [call]
    {
      budget, failures := budget - 1, failures + [call];
    }

    /** Does this call fail? Every failure uses up one unit. */
    method Fails(call: Call) returns (failed: bool)
      modifies this
      ensures budget == if failed then old(budget) - 1 else old(budget)
      ensures failures == if failed then old(failures) + [call] else old(failures)
    {
      failed := false;
      if budget > 0 {
        failed := *;
        if failed { Fail(call); }
      }
    }

    /** A random id; hitting a taken one uses up a unit of the budget. */
    method NewId(taken: set<string>) returns (id: string)
      modifies this
      ensures id != ""
      ensures budget == if id in taken then old(budget) - 1 else old(budget)
      ensures failures == if id in taken then old(failures) + [DrawId] else old(failures)
    {
      id := Unused(taken);
      if budget > 0 {
        id :| id != "";
        if id in taken { Fail(DrawId); }
      }
    }
  }

  /** Some nonempty id outside the set: longer than everything in it. */
  method Unused(taken: set<string>) returns (id: string)
    ensures id != "" && id !in taken
  {
    var longest: nat := 0;
    var rest := taken;
    while rest != {}
      invariant rest <= taken
      invariant forall x :: x in taken && x !in rest ==> |x| <= longest
      decreases rest
    {
      var x :| x in rest;
      rest := rest - {x};
      if |x| > longest { longest := |x|; }
    }
    id := seq(longest + 1, _ => 'x');
  }
}
