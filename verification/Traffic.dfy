/**
 Counting the requests of one clearing loop, and the budget that bounds them: every key of
 the prefix may still fail as often as retries allow, and every round uses some of that up.
 */
module Traffic {
  import opened Storage
  import PieceKeys

  /** How many requests of the trace were listings, answered or not. */
  function Lists(t: seq<Request>): nat {
    if t == [] then 0 else Lists(t[..|t| - 1]) + if t[|t| - 1].Delete? then 0 else 1
  }

  function Deletes(t: seq<Request>): nat {
    if t == [] then 0 else Deletes(t[..|t| - 1]) + if t[|t| - 1].Delete? then 1 else 0
  }

  /** In how many delete requests the key was submitted. */
  function Submitted(t: seq<Request>, k: string): nat {
    if t == [] then 0
    else Submitted(t[..|t| - 1], k) + if t[|t| - 1].Delete? && k in t[|t| - 1].batch then 1 else 0
  }

  lemma Snoc(t: seq<Request>, x: Request)
    ensures Lists(t + [x]) == Lists(t) + (if x.Delete? then 0 else 1)
    ensures Deletes(t + [x]) == Deletes(t) + (if x.Delete? then 1 else 0)
    ensures forall k :: Submitted(t + [x], k) == Submitted(t, k) + if x.Delete? && k in x.batch then 1 else 0
  {
    assert (t + [x])[..|t|] == t;
  }

  /** Every listing is one of the prefix. */
  ghost predicate ListsOnly(t: seq<Request>, prefix: string) {
    forall j :: 0 <= j < |t| && !t[j].Delete? ==> t[j].prefix == prefix
  }

  /** Every delete request holds the whole listing just received, all of it pieces of the object. */
  ghost predicate DeletesWhatWasListed(t: seq<Request>, mine: string -> bool, prefix: string) {
    forall j :: 0 <= j < |t| && t[j].Delete? ==>
      && 0 < j && t[j - 1] == List(prefix, t[j].batch)
      && 0 < |t[j].batch| <= BATCH_LIMIT && forall k :: k in t[j].batch ==> mine(k)
  }

  /** No answered listing showed anything but pieces of the object. */
  ghost predicate Tidy(t: seq<Request>, mine: string -> bool) {
    forall j :: 0 <= j < |t| && t[j].List? ==> AllMine(t[j].keys, mine)
  }

  ghost predicate AllMine(keys: seq<string>, mine: string -> bool) {
    forall k :: k in keys ==> mine(k)
  }

  lemma TidyJoin(t: seq<Request>, more: seq<Request>, mine: string -> bool)
    ensures Tidy(t + more, mine) <==> Tidy(t, mine) && Tidy(more, mine)
  {
    var all := t + more;
    if Tidy(all, mine) {
      forall j | 0 <= j < |t| && t[j].List? ensures AllMine(t[j].keys, mine) {
        assert all[j] == t[j];
      }
      forall j | 0 <= j < |more| && more[j].List? ensures AllMine(more[j].keys, mine) {
        assert all[|t| + j] == more[j];
      }
    }
  }

  lemma TidyOne(q: Request, mine: string -> bool)
    ensures Tidy([q], mine) <==> (q.List? ==> AllMine(q.keys, mine))
  {
    assert [q][0] == q;
  }

  // ---------------------------------------------------------------- the budget

  /** How often the key has failed so far. */
  function Failures(fails: map<string, nat>, k: string): nat {
    if k in fails then fails[k] else 0
  }

  /** Attempts a key has left, of `limit` in all. */
  function Left(fails: map<string, nat>, k: string, limit: nat): nat {
    if Failures(fails, k) <= limit then limit - Failures(fails, k) else 0
  }

  /** Attempts all the keys have left. */
  ghost function Budget(keys: set<string>, fails: map<string, nat>, limit: nat): nat
    decreases |keys|
  {
    if keys == {} then 0
    else Left(fails, Pick(keys), limit) + Budget(keys - {Pick(keys)}, fails, limit)
  }

  lemma {:induction false} BudgetRemove(keys: set<string>, fails: map<string, nat>, limit: nat, x: string)
    requires x in keys
    ensures Budget(keys, fails, limit) == Left(fails, x, limit) + Budget(keys - {x}, fails, limit)
    decreases |keys|
  {
    var k := Pick(keys);
    if k != x {
      BudgetRemove(keys - {k}, fails, limit, x);
      BudgetRemove(keys - {x}, fails, limit, k);
      assert keys - {k} - {x} == keys - {x} - {k};
    }
  }

  /** At the start every key has all its attempts. */
  lemma {:induction false} FullBudget(keys: set<string>, limit: nat)
    ensures Budget(keys, map[], limit) == |keys| * limit
    decreases |keys|
  {
    if keys != {} {
      FullBudget(keys - {Pick(keys)}, limit);
    }
  }

  /** Fewer keys and more failures never leave more attempts. */
  lemma {:induction false} BudgetShrinks(keys: set<string>, fails: map<string, nat>,
                                         rest: set<string>, later: map<string, nat>, limit: nat)
    requires rest <= keys && forall k :: k in rest ==> Failures(fails, k) <= Failures(later, k)
    ensures Budget(rest, later, limit) <= Budget(keys, fails, limit)
    decreases |keys|
  {
    if keys != {} {
      var k := Pick(keys);
      if k in rest {
        BudgetRemove(rest, later, limit, k);
      } else {
        assert rest - {k} == rest;
      }
      BudgetShrinks(keys - {k}, fails, rest - {k}, later, limit);
    }
  }

  /** A round that removes a key, or charges one with a failure, uses up the budget. */
  lemma RoundProgress(keys: set<string>, fails: map<string, nat>,
                      rest: set<string>, later: map<string, nat>, limit: nat, x: string)
    requires rest <= keys && forall k :: k in rest ==> Failures(fails, k) <= Failures(later, k)
    requires x in keys && Failures(fails, x) < limit
    requires x in rest ==> Failures(fails, x) < Failures(later, x)
    ensures Budget(rest, later, limit) < Budget(keys, fails, limit)
  {
    BudgetRemove(keys, fails, limit, x);
    BudgetShrinks(keys - {x}, fails, rest - {x}, later, limit);
    if x in rest {
      BudgetRemove(rest, later, limit, x);
    } else {
      assert rest - {x} == rest;
    }
  }

  /** A key of the listing is gone, or has one more failure against it. */
  ghost predicate Touched(keys: set<string>, fails: map<string, nat>, rest: set<string>, later: map<string, nat>,
                          x: string) {
    x in keys && (x !in rest || Failures(fails, x) < Failures(later, x))
  }

  /**
   Exactly when a round brings the loop closer to its end: when the reply accounts for at least
   one key. A reply that reports success and names no key would leave the loop where it was.
   */
  lemma ProgressIsExact(keys: set<string>, fails: map<string, nat>, rest: set<string>, later: map<string, nat>,
                        limit: nat)
    requires rest <= keys && forall k :: k in keys ==> Failures(fails, k) < limit
    requires forall k :: k in keys ==> Failures(fails, k) <= Failures(later, k)
    ensures Budget(rest, later, limit) < Budget(keys, fails, limit)
          <==> exists x :: Touched(keys, fails, rest, later, x)
  {
    if x :| Touched(keys, fails, rest, later, x) {
      RoundProgress(keys, fails, rest, later, limit, x);
    } else {
      forall x | x in keys ensures x in rest && Failures(later, x) == Failures(fails, x) {
        assert !Touched(keys, fails, rest, later, x);
      }
      BudgetShrinks(rest, later, keys, fails, limit);
    }
  }
}
