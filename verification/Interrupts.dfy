/**
 What may interrupt work between two requests: the operator, a halt, or the loss of the execution
 lock. The program asks before every request; what it was answered can be read off the count of
 refusals and the moments of consent, a moment being the number of requests sent so far.
 */
module Interrupts {

  /** Consent was given at each of these moments. */
  ghost predicate Granted(consents: set<nat>, from: nat, to: nat) {
    forall n :: from <= n < to ==> n in consents
  }

  lemma GrantedMore(consents: set<nat>, from: nat, to: nat)
    requires Granted(consents, from, to) && to in consents
    ensures Granted(consents, from, to + 1)
  {
  }

  /**
   Consents have been added, and were given from one moment to another; `Granted` itself is seen
   only where it is mentioned.
   */
  ghost predicate Heard(was: set<nat>, consents: set<nat>, from: nat, to: nat) {
    forall c {:trigger Granted(c, from, to)} :: c == consents ==> was <= c && Granted(c, from, to)
  }

  lemma HeardGranted(was: set<nat>, consents: set<nat>, from: nat, to: nat)
    ensures Heard(was, consents, from, to) <==> was <= consents && Granted(consents, from, to)
  {
    assert Granted(consents, from, to) || !Granted(consents, from, to);
  }

  lemma HeardOn(was: set<nat>, earlier: set<nat>, consents: set<nat>, from: nat, mid: nat, to: nat)
    requires Heard(was, earlier, from, mid) && Heard(earlier, consents, mid, to)
    ensures Heard(was, consents, from, to)
  {
    HeardGranted(was, earlier, from, mid);
    HeardGranted(earlier, consents, mid, to);
  }

  class Context {
    /** How often the answer has been no, and when it has been yes. */
    ghost var refusals: nat
    ghost var consents: set<nat>

    constructor ()
      ensures refusals == 0 && consents == {}
    {
      refusals, consents := 0, {};
    }

    /** Whether work may go on. */
    method Proceed(ghost now: nat) returns (ok: bool)
      modifies this
      ensures refusals == old(refusals) + if ok then 0 else 1
      ensures consents == old(consents) + if ok then {now} else {}
    {
      ok := *;
      refusals := refusals + if ok then 0 else 1;
      consents := consents + if ok then {now} else {};
    }
  }
}
