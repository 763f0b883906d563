/**
 A chain of promises, each link of which settles once the link before it and its own gate have
 settled: `chain = previous.then(() => gate, () => gate)`.

 Gates are numbered in the order they joined the chain.  A gate closes when its owner says so; the
 links settle later, one microtask each, so `settled` trails behind the closed gates.
 */
module PromiseChain {

  /** `closed[i]`: gate `i` was resolved.  The first `settled` links have settled. */
  datatype Chain = Chain(closed: seq<bool>, settled: nat) {

    ghost predicate Valid() {
      settled <= |closed| && forall i :: 0 <= i < settled ==> closed[i]
    }

    /** The promise chained before gate `i` has settled, so its continuation may run. */
    predicate Ready(i: nat) {
      i <= settled
    }

    predicate CanSettle() {
      settled < |closed| && closed[settled]
    }

    function Join(): Chain {
      this.(closed := closed + [false])
    }

    function Close(i: nat): Chain
      requires i < |closed|
    {
      this.(closed := closed[i := true])
    }

    function SettleNext(): Chain
      requires CanSettle()
    {
      this.(settled := settled + 1)
    }
  }

  const Empty := Chain([], 0)

  /** A continuation chained at `i` runs only after every earlier gate has closed. */
  lemma ReadyMeansEarlierClosed(c: Chain, i: nat)
    requires c.Valid() && c.Ready(i)
    ensures forall j :: 0 <= j < i ==> c.closed[j]
  {
  }
}
