/**
 What the invariant of the ledger means for an operator: nothing is lost between batches, the
 error paths for a corrupt ledger cannot be taken, a crash before the last write of a deletion
 pass is repaired exactly, and ALL_DONE is backed by a check of every object.
 */
module LedgerTheorems {
  import opened Wrappers
  import opened Capacity
  import opened Ledger
  import opened LedgerInvariants
  import Keyset

  // ---------------------------------------------------------------- conservation

  /** Assignments in force. */
  function ActiveRows(db: Db): set<RowKey> {
    set k | k in db.members && !db.members[k].deferred
  }

  function OidsOf(s: set<RowKey>): set<Oid> {
    set k | k in s :: k.1
  }

  lemma {:induction false} LatestOf(s: set<RowKey>) returns (k: RowKey)
    requires s != {}
    ensures k in s && forall j :: j in s ==> j.0 <= k.0
    decreases |s|
  {
    k :| k in s;
    var rest := s - {k};
    if rest != {} {
      var n := LatestOf(rest);
      assert forall j :: j in s ==> j == k || j in rest;
      k := if k.0 < n.0 then n else k;
    } else {
      assert s == {k};
    }
  }

  lemma NewestExists(db: Db, o: Oid) returns (k: RowKey)
    requires Assigned(db, o)
    ensures k in db.members && k.1 == o && Newest(db, k)
  {
    var j :| j in db.members && j.1 == o;
    var s := set i | i in db.members && i.1 == o;
    assert j in s;
    k := LatestOf(s);
    assert forall i :: i in db.members && i.1 == o ==> i in s;
  }

  /** The newest assignments are the active ones and the unresolved deferred ones. */
  lemma NewestRows(db: Db)
    requires UniqueActive(db)
    ensures forall k :: k in db.members ==> (Newest(db, k) <==> k in ActiveRows(db) || k in Unresolved(db))
    ensures ActiveRows(db) !! Unresolved(db)
    ensures forall j, k ::
              j in ActiveRows(db) + Unresolved(db) && k in ActiveRows(db) + Unresolved(db) && j.1 == k.1 ==> j == k
  {
    forall k: RowKey | k in db.members && !db.members[k].deferred ensures Newest(db, k) {
      assert forall j: RowKey :: j in db.members && j.1 == k.1 ==> j.0 <= k.0;
    }
    forall j, k | j in db.members && k in db.members && Newest(db, j) && Newest(db, k) && j.1 == k.1 ensures j == k {
      assert j.0 == k.0;
    }
  }

  lemma AssignedByNewest(db: Db)
    requires Frozen(db) && UniqueActive(db)
    ensures db.scan.Keys == Unassigned(db) + OidsOf(ActiveRows(db) + Unresolved(db))
    ensures Unassigned(db) !! OidsOf(ActiveRows(db) + Unresolved(db))
  {
    NewestRows(db);
    forall o | o in db.scan && Assigned(db, o) ensures o in OidsOf(ActiveRows(db) + Unresolved(db)) {
      var k := NewestExists(db, o);
      assert k in ActiveRows(db) + Unresolved(db);
    }
    forall o | o in OidsOf(ActiveRows(db) + Unresolved(db)) ensures o in db.scan && Assigned(db, o) {
      var k :| k in ActiveRows(db) + Unresolved(db) && k.1 == o;
      assert k in db.members;
    }
  }

  /** Scanned objects = unassigned + active + deferred and unresolved, as `Outstanding` counts them. */
  lemma Conservation(db: Db)
    requires Inv(db)
    ensures |db.scan| == Outstanding(db).0 + |ActiveRows(db)| + Outstanding(db).1
  {
    NewestRows(db);
    AssignedByNewest(db);
    var newest := ActiveRows(db) + Unresolved(db);
    ImageSize(newest);
    SplitSize(ActiveRows(db), Unresolved(db));
    SplitSize(Unassigned(db), OidsOf(newest));
    assert |db.scan| == |db.scan.Keys|;
  }

  /** An object has at most one active assignment, and it is the newest one. */
  lemma ActiveIsNewest(db: Db, t: TaskId, o: Oid)
    requires Inv(db) && Active(db, t, o)
    ensures Newest(db, (t, o)) && forall u :: Active(db, u, o) ==> u == t
  {
    NewestRows(db);
    assert (t, o) in ActiveRows(db);
    forall u | Active(db, u, o) ensures u == t {
      OneActive(db, t, u, o);
    }
  }

  // ---------------------------------------------------------------- refusals that cannot occur

  lemma {:induction false} AtMostOne(s: set<TaskId>)
    requires forall t, u :: t in s && u in s ==> t == u
    ensures |s| <= 1
  {
    if s != {} {
      var t :| t in s;
      assert s == {t};
    }
  }

  /** At most one task is in its first deletion pass, and it is the one with the highest number. */
  lemma OneOpenTask(db: Db)
    requires Inv(db)
    ensures |OpenTasks(db)| <= 1
    ensures forall t, u :: t in OpenTasks(db) && u in db.tasks ==> u <= t
    ensures forall id :: ResolveCurrent(db, id) != Err(MultipleUnfinished)
    ensures OpenTasks(db) == {} <==> forall t :: t in db.tasks ==> db.tasks[t].purged
  {
    assert forall t, u :: t in OpenTasks(db) && u in db.tasks ==> u <= t;
    AtMostOne(OpenTasks(db));
    if OpenTasks(db) == {} {
      forall t | t in db.tasks ensures db.tasks[t].purged {
        assert t !in OpenTasks(db);
      }
    }
  }

  /** The checks for a damaged ledger never fire: manifests match and no result is unowned. */
  lemma LedgerIsSound(db: Db)
    requires Inv(db)
    ensures !HasLegacyResults(db)
    ensures forall t :: t in db.tasks ==> ManifestOk(db, t)
  {
    forall t | t in db.tasks ensures ManifestOk(db, t) {
      ManifestAccepted(db, t);
    }
  }

  lemma RetriesAreUnresolved(db: Db)
    requires Frozen(db) && forall t :: t in db.tasks ==> db.tasks[t].purged
    ensures Pool(db, true) == OidsOf(Unresolved(db))
  {
    forall o | o in OidsOf(Unresolved(db)) ensures o in Pool(db, true) {
      var k :| k in Unresolved(db) && k.1 == o;
    }
    forall o | o in Pool(db, true) ensures o in OidsOf(Unresolved(db)) {
      var k :| k in db.members && k.1 == o && db.members[k].deferred && k.0 in db.tasks && db.tasks[k.0].purged
            && Newest(db, k);
      assert k in Unresolved(db);
    }
  }

  /** Whenever allocation proceeds, the objects offered for retry are all the unresolved ones. */
  lemma RetryPoolIsUnresolved(db: Db)
    requires Inv(db) && OpenTasks(db) == {}
    ensures Pool(db, true) == OidsOf(Unresolved(db))
    ensures |Pool(db, true)| == Outstanding(db).1
  {
    OneOpenTask(db);
    NewestRows(db);
    RetriesAreUnresolved(db);
    ImageSize(Unresolved(db));
  }

  // ---------------------------------------------------------------- exact outcomes

  /** The deletion milestone is granted exactly when every active member is processed. */
  lemma CompletePurgeExact(db: Db, t: TaskId)
    requires Inv(db) && t in db.tasks
    ensures CompletePurge(db, t, db.tasks[t].objectCount).Ok? <==>
              AllProcessed(db, t) && !db.tasks[t].done && !Held(db.tasks[t])
  {
    assert Manifest(db, t);
    TaskTotal(db, t);
    CountsProcessed(db, t);
  }

  /** Verification finishes exactly when every active member is processed and passed in this generation. */
  lemma CompleteVerifyExact(db: Db, t: TaskId)
    requires t in db.tasks && Manifest(db, t)
    requires !db.tasks[t].done && !Held(db.tasks[t]) && db.tasks[t].phase == Verify
    ensures CompleteVerify(db, t, db.tasks[t].generation, db.tasks[t].objectCount).Ok? <==>
              AllProcessed(db, t) && AllPassed(db, t)
  {
    TaskTotal(db, t);
    CountsProcessed(db, t);
    CountsVerified(db, t);
  }

  ghost predicate AllDeferred(db: Db, t: TaskId) {
    forall k :: k in db.members && k.0 == t ==> db.members[k].deferred
  }

  /**
   A crash after the last result and before the milestone loses nothing: the next command's
   recovery marks a task exactly when the interrupted call would have done so. A task that no
   purge has started yet is marked only if every member was set aside, which is how a deferral
   ends; nothing but the milestone changes.
   */
  lemma RecoveryIsExact(db: Db, t: TaskId)
    requires Inv(db) && t in db.tasks
    ensures Recover(db).tasks[t].purged <==>
              || db.tasks[t].purged
              || (CompletePurge(db, t, db.tasks[t].objectCount).Ok?
                  && (db.tasks[t].phase != Ready || AllDeferred(db, t)))
    ensures Recover(db).tasks[t] == db.tasks[t].(purged := Recover(db).tasks[t].purged)
  {
    CompletePurgeExact(db, t);
    assert Manifest(db, t);
    TaskTotal(db, t);
    if db.tasks[t].done {
      assert db.tasks[t].purged;
    }
  }

  // ---------------------------------------------------------------- ALL_DONE

  /** The evidence behind one object of a finished clean-up. */
  ghost predicate Cleared(db: Db, o: Oid, t: TaskId) {
    && Active(db, t, o) && t in db.tasks && db.tasks[t].done
    && Passed(db, (t, o)) && Processed(db, o)
  }

  /**
   ALL_DONE means: every object of the sealed list has exactly one assignment in force, in a
   finished task, processed, and passed in that task's present generation.
   */
  lemma AllDoneIsBacked(db: Db, locked: bool)
    requires Inv(db) && AllDone(db, locked)
    ensures forall o :: o in db.scan ==> exists t :: Cleared(db, o, t) && forall u :: Active(db, u, o) ==> u == t
    ensures NoHold(db) && db.meta.value.scanRows == Some(|db.scan|)
  {
    EmptySize(Unassigned(db));
    EmptySize(Unresolved(db));
    forall o | o in db.scan
      ensures exists t :: Cleared(db, o, t) && forall u :: Active(db, u, o) ==> u == t
    {
      assert o !in Unassigned(db);
      var k := NewestExists(db, o);
      assert k !in Unresolved(db);
      assert k == (k.0, o) && Active(db, k.0, o);
      ActiveIsNewest(db, k.0, o);
      assert Cleared(db, o, k.0);
    }
  }
}
