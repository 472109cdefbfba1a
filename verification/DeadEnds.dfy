/**
 No dead ends. Whatever has happened to a sealed list, crashes, holds, failed checks, deletions
 cut short, the tool can bring it to ALL_DONE by its own commands, exactly unless object 0 is
 listed or something that is not a piece lies under an object that has not passed its check.

 The way there: release the holds; in every unfinished task set aside what has not passed and
 verify the rest; then allocate one object at a time, and delete and verify it.
 */
module DeadEnds {
  import opened Wrappers
  import opened Capacity
  import opened Ledger
  import opened LedgerInvariants
  import opened LedgerTheorems
  import opened LedgerOutcomes
  import opened Storage
  import opened System
  import opened SystemInvariants
  import opened Completion
  import Batches
  import Evidence
  import Histories
  import ObjectZero
  import Removals
  import PieceKeys

  // ---------------------------------------------------------------- closing a task without deleting

  /** A member whose deletion and whose empty check stand. */
  ghost predicate Stands(db: Db, t: TaskId, o: Oid) {
    Active(db, t, o) && t in db.tasks && Passed(db, (t, o)) && Processed(db, o)
  }

  ghost predicate Evidenced(db: Db, o: Oid) {
    exists t: TaskId :: Stands(db, t, o)
  }

  /** Members may have been set aside in task `t`, but none that stands; all else is as it was. */
  ghost predicate Trimmed(db: Db, after: Db, t: TaskId) {
    && after.meta == db.meta && after.scan == db.scan && after.progress == db.progress
    && after.members.Keys == db.members.Keys && after.tasks.Keys == db.tasks.Keys
    && (forall k :: k in db.members && k.0 != t ==> after.members[k] == db.members[k])
    && (forall o :: Stands(db, t, o) ==> after.members[(t, o)] == db.members[(t, o)])
    && (forall u :: u in db.tasks ==> after.tasks[u].holdReason == db.tasks[u].holdReason
                                      && after.tasks[u].generation == db.tasks[u].generation)
    && (forall u :: u in db.tasks && u != t ==> after.tasks[u].done == db.tasks[u].done)
  }

  lemma TrimmedTwice(a: Db, b: Db, c: Db, t: TaskId)
    requires Trimmed(a, b, t) && Trimmed(b, c, t)
    ensures Trimmed(a, c, t)
  {
    forall o | Stands(a, t, o) ensures c.members[(t, o)] == a.members[(t, o)] {
      assert Stands(b, t, o);
    }
  }

  lemma TrimmedStands(db: Db, after: Db, t: TaskId)
    requires Trimmed(db, after, t)
    ensures forall u: TaskId, o: Oid :: Stands(db, u, o) ==> Stands(after, u, o)
  {
    forall u: TaskId, o: Oid | Stands(db, u, o) ensures Stands(after, u, o) {
      assert (u, o) in db.members;
    }
  }

  lemma RecoverTrims(db: Db, t: TaskId)
    ensures Trimmed(db, Recover(db), t) && Recover(db).members == db.members
    ensures forall u :: u in db.tasks ==> Recover(db).tasks[u].done == db.tasks[u].done
  {
  }

  lemma DeferHappens(s: Sys, t: TaskId, o: Oid, reason: string, after: Db)
    requires System.Ready(s) && 0 < t && t in s.db.tasks && Defer(s.db, t, o, reason) == Ok(after)
    ensures Apply(s, Tasks(DeferOid(t, o, reason))) == Some(Sys(after, Deferring(t), s.store))
  {
  }

  lemma DeferTrims(db: Db, t: TaskId, o: Oid, reason: string, after: Db)
    requires Defer(db, t, o, reason) == Ok(after) && NoHold(db) && !Stands(db, t, o)
    ensures Trimmed(db, after, t) && after.tasks[t].done == db.tasks[t].done
    ensures forall p :: Active(after, t, p) <==> Active(db, t, p) && p != o
  {
  }

  /** Between two commands, with no hold, and a task that is not finished. */
  ghost predicate Free(s: Sys, t: TaskId) {
    s.session == Idle && Sealed(s.db) && NoHold(s.db) && t in s.db.tasks && !s.db.tasks[t].done
  }

  /** Active members of the task that do not stand. */
  ghost function Doubtful(db: Db, t: TaskId): set<Oid> {
    set k | k in db.members && k.0 == t && Active(db, t, k.1) && !Stands(db, t, k.1) :: k.1
  }

  lemma DoubtfulAre(db: Db, t: TaskId, o: Oid)
    ensures o in Doubtful(db, t) <==> Active(db, t, o) && !Stands(db, t, o)
  {
    assert Active(db, t, o) ==> (t, o) in db.members;
  }

  lemma TrimmedNoHold(db: Db, after: Db, t: TaskId)
    requires Trimmed(db, after, t)
    ensures NoHold(db) <==> NoHold(after)
    ensures Sealed(db) <==> Sealed(after)
  {
  }

  lemma FewerDoubtful(db: Db, after: Db, t: TaskId, o: Oid)
    requires Trimmed(db, after, t) && forall p :: Active(after, t, p) <==> Active(db, t, p) && p != o
    ensures Doubtful(after, t) <= Doubtful(db, t) - {o}
  {
    forall p | p in Doubtful(after, t) ensures p in Doubtful(db, t) && p != o {
      DoubtfulAre(after, t, p);
      DoubtfulAre(db, t, p);
      TrimmedStands(db, after, t);
    }
  }

  /** What setting the object aside comes to in the tables, the recovery at the start included. */
  lemma DeferSucceeds(db: Db, t: TaskId, o: Oid, reason: string) returns (after: Db)
    requires NoHold(db) && t in db.tasks && !db.tasks[t].done && o in Doubtful(db, t) && Acceptable(reason)
    ensures Defer(Recover(db), t, o, reason) == Ok(after)
    ensures Trimmed(db, after, t) && !after.tasks[t].done && Doubtful(after, t) <= Doubtful(db, t) - {o}
  {
    var ready := Recover(db);
    RecoverTrims(db, t);
    TrimmedNoHold(db, ready, t);
    DoubtfulAre(db, t, o);
    DeferExact(ready, t, o, reason);
    after := Defer(ready, t, o, reason).value;
    DeferTrims(ready, t, o, reason, after);
    TrimmedTwice(db, ready, after, t);
    FewerDoubtful(db, after, t, o);
  }

  lemma SetAsideOne(r: Run, t: TaskId, o: Oid) returns (more: Run)
    requires Happened(r) && Free(Last(r), t) && o in Doubtful(Last(r).db, t)
    ensures Continues(r, more) && Free(Last(more), t) && Last(more).store == Last(r).store
    ensures Trimmed(Last(r).db, Last(more).db, t)
    ensures Doubtful(Last(more).db, t) <= Doubtful(Last(r).db, t) - {o}
  {
    Numbered(r, |r.events|, t);
    var started := Opens(r);
    var reason := Reason();
    var after := DeferSucceeds(Last(r).db, t, o, reason);
    DeferHappens(Last(started), t, o, reason, after);
    var done := Step(started, Tasks(DeferOid(t, o, reason)), Sys(after, Deferring(t), Last(r).store));
    more := Step(done, Exit, Sys(after, Idle, Last(r).store));
    Chain(r, started, done);
    Chain(r, done, more);
    TrimmedNoHold(Last(r).db, after, t);
  }

  lemma {:induction false} SetAside(r: Run, t: TaskId) returns (more: Run)
    requires Happened(r) && Free(Last(r), t)
    ensures Continues(r, more) && Free(Last(more), t) && Last(more).store == Last(r).store
    ensures Trimmed(Last(r).db, Last(more).db, t) && Doubtful(Last(more).db, t) == {}
    decreases |Doubtful(Last(r).db, t)|
  {
    var doubtful := Doubtful(Last(r).db, t);
    if doubtful == {} {
      more := r;
    } else {
      var o :| o in doubtful;
      var next := SetAsideOne(r, t, o);
      SmallerSet(Doubtful(Last(next).db, t), doubtful, o);
      more := SetAside(next, t);
      Chain(r, next, more);
      TrimmedTwice(Last(r).db, Last(next).db, Last(more).db, t);
    }
  }

  lemma BeginVerifyTrims(db: Db, t: TaskId, after: Db)
    requires BeginVerify(db, t, false) == Ok(after) && t in db.tasks && !db.tasks[t].done
    ensures Trimmed(db, after, t) && after.members == db.members
    ensures !after.tasks[t].done && after.tasks[t].phase == Verify
  {
  }

  lemma CompleteVerifyTrims(db: Db, t: TaskId, generation: nat, count: nat, after: Db)
    requires CompleteVerify(db, t, generation, count) == Ok(after) && t in db.tasks && !db.tasks[t].done
    ensures Trimmed(db, after, t) && after.tasks[t].done
  {
  }

  lemma AllStand(db: Db, t: TaskId)
    requires t in db.tasks && Doubtful(db, t) == {}
    ensures AllProcessed(db, t) && AllPassed(db, t)
  {
    forall k | k in db.members && k.0 == t && !db.members[k].deferred ensures Processed(db, k.1) && Passed(db, k) {
      DoubtfulAre(db, t, k.1);
      assert k == (t, k.1);
    }
  }

  lemma StillNoDoubt(db: Db, after: Db, t: TaskId)
    requires Trimmed(db, after, t) && after.members == db.members && Doubtful(db, t) == {}
    ensures Doubtful(after, t) == {}
  {
    forall o ensures o !in Doubtful(after, t) {
      DoubtfulAre(db, t, o);
      DoubtfulAre(after, t, o);
      TrimmedStands(db, after, t);
    }
  }

  /** A verification that has nothing left to examine. */
  lemma VerifyStanding(r: Run, t: TaskId) returns (more: Run)
    requires Happened(r) && Free(Last(r), t) && Doubtful(Last(r).db, t) == {}
    ensures Continues(r, more) && Last(more).session == Idle && Last(more).store == Last(r).store
    ensures Trimmed(Last(r).db, Last(more).db, t) && Last(more).db.tasks[t].done
  {
    var db, store := Last(r).db, Last(r).store;
    Numbered(r, |r.events|, t);
    RecoverTrims(db, t);
    var ready := Recover(db);
    TrimmedNoHold(db, ready, t);
    StillNoDoubt(db, ready, t);
    AllStand(ready, t);
    var started := Opens(r);
    BeginVerifyExact(ready, t, false);
    var begun := BeginVerify(ready, t, false).value;
    BeginVerifyTrims(ready, t, begun);
    var row := begun.tasks[t];
    StartVerifyHappens(Last(started), t, begun);
    var verifying := Step(started, Tasks(StartVerify(t, false)),
                          Sys(begun, Verifying(t, row.generation, row.objectCount, NoObject), store));
    StillNoDoubt(ready, begun, t);
    AllStand(begun, t);
    CompleteVerifyExact(begun, t);
    var after := CompleteVerify(begun, t, row.generation, row.objectCount).value;
    FinishVerifyHappens(Last(verifying), t, after);
    more := Step(verifying, Verifier(FinishVerify), Sys(after, Idle, store));
    Chain(r, started, verifying);
    Chain(r, verifying, more);
    CompleteVerifyTrims(begun, t, row.generation, row.objectCount, after);
    TrimmedTwice(db, ready, begun, t);
    TrimmedTwice(db, begun, after, t);
  }

  lemma CloseTask(r: Run, t: TaskId) returns (more: Run)
    requires Happened(r) && Free(Last(r), t)
    ensures Continues(r, more) && Last(more).session == Idle && Last(more).store == Last(r).store
    ensures Trimmed(Last(r).db, Last(more).db, t) && Last(more).db.tasks[t].done
  {
    var trimmed := SetAside(r, t);
    more := VerifyStanding(trimmed, t);
    Chain(r, trimmed, more);
    TrimmedTwice(Last(r).db, Last(trimmed).db, Last(more).db, t);
  }

  function Unfinished(db: Db): set<TaskId> {
    set t | t in db.tasks && !db.tasks[t].done
  }

  lemma ClosedOne(db: Db, after: Db, t: TaskId)
    requires Trimmed(db, after, t) && t in Unfinished(db) && after.tasks[t].done
    ensures Unfinished(after) == Unfinished(db) - {t}
    ensures forall o :: Evidenced(db, o) ==> Evidenced(after, o)
  {
    TrimmedStands(db, after, t);
    forall o | Evidenced(db, o) ensures Evidenced(after, o) {
      var u :| Stands(db, u, o);
      assert Stands(after, u, o);
    }
  }

  /** Nothing but allocation remains to be done. */
  ghost predicate AllFinished(db: Db) {
    Sealed(db) && NoHold(db) && forall t :: t in db.tasks ==> db.tasks[t].done
  }

  /** Every unfinished task is closed with the members that stand. */
  lemma {:induction false} CloseAll(r: Run) returns (more: Run)
    requires Happened(r) && Last(r).session == Idle && Sealed(Last(r).db) && NoHold(Last(r).db)
    ensures Continues(r, more) && Last(more).session == Idle && Last(more).store == Last(r).store
    ensures AllFinished(Last(more).db) && Last(more).db.scan == Last(r).db.scan
    ensures forall o :: Evidenced(Last(r).db, o) ==> Settled(Last(more).db, o)
    decreases |Unfinished(Last(r).db)|
  {
    var db := Last(r).db;
    if Unfinished(db) == {} {
      assert forall t :: t in db.tasks && !db.tasks[t].done ==> t in Unfinished(db);
      more := r;
    } else {
      var t :| t in Unfinished(db);
      var next := CloseTask(r, t);
      TrimmedNoHold(db, Last(next).db, t);
      ClosedOne(db, Last(next).db, t);
      more := CloseAll(next);
      Chain(r, next, more);
    }
  }

  // ---------------------------------------------------------------- allocating the rest

  /** Listed objects that no task is to deal with: never assigned, or set aside and not retried. */
  ghost function Loose(db: Db): set<Oid> {
    set o | o in db.scan && forall t :: (t, o) in db.members ==> db.members[(t, o)].deferred
  }

  lemma LooseIsInPool(db: Db, o: Oid) returns (retry: bool)
    requires Inv(db) && o in Loose(db) && forall t :: t in db.tasks ==> db.tasks[t].done
    ensures o in Pool(db, retry)
  {
    retry := Assigned(db, o);
    if retry {
      var k := NewestExists(db, o);
      assert k == (k.0, o) && k.0 in db.tasks && db.tasks[k.0].purged;
    }
  }

  lemma InPoolIsLoose(db: Db, retry: bool, o: Oid)
    requires Inv(db) && o in Pool(db, retry)
    ensures o in Loose(db)
  {
    if retry {
      var k :| k in db.members && k.1 == o && db.members[k].deferred && k.0 in db.tasks && db.tasks[k.0].purged
            && Newest(db, k);
      NewestRows(db);
      assert k in Unresolved(db);
      assert forall t :: (t, o) in db.members && !db.members[(t, o)].deferred ==> (t, o) in ActiveRows(db);
    } else {
      assert forall t :: (t, o) !in db.members;
    }
  }

  lemma AllotmentTies(db: Db, target: nat, retry: bool, id: TaskId, selected: seq<ScanRow>, o: Oid)
    requires selected != [] && o == selected[0].oid && o in Loose(db) && id !in db.tasks
    requires Frozen(db)
    ensures Loose(Allocate(db, target, retry, id, selected)) <= Loose(db) - {o}
  {
    var after := Allocate(db, target, retry, id, selected);
    AllocatedRows(db, target, retry, id, selected);
    assert o in Oids(selected);
    assert (id, o) in after.members && !after.members[(id, o)].deferred;
    forall p | p in Loose(after) ensures p in Loose(db) {
      forall t | (t, p) in db.members ensures db.members[(t, p)].deferred {
        assert (t, p) in after.members;
      }
    }
  }

  lemma UnusedId(s: set<TaskId>) returns (id: TaskId)
    ensures 0 < id && forall t :: t in s ==> t < id
    decreases |s|
  {
    if s == {} {
      id := 1;
    } else {
      var t :| t in s;
      id := UnusedId(s - {t});
      assert forall u :: u in s ==> u == t || u in s - {t};
      if id <= t {
        id := t + 1;
      }
    }
  }

  lemma CreateHappens(s: Sys, retry: bool, id: TaskId, selected: seq<ScanRow>, after: Db)
    requires System.Ready(s) && NewId(s.db, id) && Create(s.db, 1, 1, retry, id) == Ok(Fresh(selected, after))
    ensures Apply(s, Tasks(CreateTask(1, 1, retry, id))) == Some(Sys(after, Idle, s.store))
  {
  }

  lemma SmallerSet<T>(a: set<T>, b: set<T>, x: T)
    requires a <= b - {x} && x in b
    ensures |a| < |b|
  {
    assert b == (b - {x}) + {x};
    if a != b - {x} {
      SplitSize(a, b - {x} - a);
      assert a + (b - {x} - a) == b - {x};
    }
  }

  lemma FinishedRecovers(db: Db)
    requires Inv(db) && AllFinished(db)
    ensures Recover(db) == db && OpenTasks(db) == {}
  {
    assert Recover(db).tasks == db.tasks;
  }

  lemma CreatedTies(db: Db, retry: bool, id: TaskId, selected: seq<ScanRow>, after: Db)
    requires Inv(db) && AllFinished(db) && NewId(db, id) && Create(db, 1, 1, retry, id) == Ok(Fresh(selected, after))
    ensures |Loose(after)| < |Loose(db)| && after.meta == db.meta && after.scan == db.scan
    ensures after == Allocate(db, 1, retry, id, selected)
  {
    CreateFacts(db, 1, 1, retry, id);
    CreateAllots(db, 1, 1, retry, id);
    var o := selected[0].oid;
    assert selected[0] in selected && o in Oids(selected);
    InPoolIsLoose(db, retry, o);
    AllotmentTies(db, 1, retry, id, selected, o);
    SmallerSet(Loose(after), Loose(db), o);
  }

  lemma AllocationKeepsPieces(db: Db, store: map<string, nat>, retry: bool, id: TaskId, selected: seq<ScanRow>)
    requires OnlyPieces(db, store) && id !in db.tasks
    ensures OnlyPieces(Allocate(db, 1, retry, id, selected), store)
  {
    var after := Allocate(db, 1, retry, id, selected);
    forall o, k | o in after.scan && !Settled(after, o) && k in Residues(store, o) ensures PieceKeys.PieceOf(o, k) {
      if Settled(db, o) {
        AllocationKeepsSettled(db, 1, retry, id, selected, o);
      }
    }
  }

  lemma CreateSucceeds(db: Db) returns (retry: bool, id: TaskId, selected: seq<ScanRow>, after: Db)
    requires Inv(db) && AllFinished(db) && Loose(db) != {}
    ensures NewId(db, id) && Create(db, 1, 1, retry, id) == Ok(Fresh(selected, after))
    ensures |Loose(after)| < |Loose(db)| && after.meta == db.meta && after.scan == db.scan
    ensures after == Allocate(db, 1, retry, id, selected)
  {
    FinishedRecovers(db);
    var o :| o in Loose(db);
    retry := LooseIsInPool(db, o);
    id := UnusedId(db.tasks.Keys);
    Batches.CreateEndsExactly(db, 1, 1, retry, id);
    selected, after := Create(db, 1, 1, retry, id).value.selected, Create(db, 1, 1, retry, id).value.db;
    CreatedTies(db, retry, id, selected, after);
  }

  lemma FreshIsWorkable(db: Db, store: map<string, nat>, retry: bool, id: TaskId, selected: seq<ScanRow>)
    requires AllFinished(db) && NewId(db, id) && 0 !in db.scan && OnlyPieces(db, store)
    ensures var after := Allocate(db, 1, retry, id, selected);
            && Workable(Sys(after, Idle, store), id)
            && forall u :: u in after.tasks && u != id ==> after.tasks[u].done
  {
    AllocationKeepsPieces(db, store, retry, id, selected);
  }

  /** A batch of one more loose object. */
  lemma AllocateOne(r: Run) returns (more: Run, id: TaskId)
    requires Happened(r) && Last(r).session == Idle && AllFinished(Last(r).db) && Loose(Last(r).db) != {}
    requires 0 !in Last(r).db.scan && OnlyPieces(Last(r).db, Last(r).store)
    ensures Continues(r, more) && Workable(Last(more), id) && Last(more).store == Last(r).store
    ensures |Loose(Last(more).db)| < |Loose(Last(r).db)| && Last(more).db.scan == Last(r).db.scan
    ensures forall u :: u in Last(more).db.tasks && u != id ==> Last(more).db.tasks[u].done
  {
    EndIsGood(r);
    FinishedRecovers(Last(r).db);
    var started := Opens(r);
    var retry, selected, after;
    retry, id, selected, after := CreateSucceeds(Last(r).db);
    CreateHappens(Last(started), retry, id, selected, after);
    more := Step(started, Tasks(CreateTask(1, 1, retry, id)), Sys(after, Idle, Last(r).store));
    Chain(r, started, more);
    FreshIsWorkable(Last(r).db, Last(r).store, retry, id, selected);
  }

  // ---------------------------------------------------------------- to the end

  lemma AllocationKeepsSettled(db: Db, target: nat, retry: bool, id: TaskId, selected: seq<ScanRow>, o: Oid)
    requires Settled(db, o) && id !in db.tasks
    ensures Settled(Allocate(db, target, retry, id, selected), o)
  {
    var after := Allocate(db, target, retry, id, selected);
    var t :| Active(db, t, o) && t in db.tasks && db.tasks[t].done;
    AllocatedRows(db, target, retry, id, selected);
    assert Active(after, t, o) && after.tasks[t].done;
  }

  lemma NothingLooseIsDone(db: Db)
    requires Inv(db) && AllFinished(db) && Loose(db) == {}
    ensures AllDone(db, false)
  {
    forall o | o in db.scan ensures exists t :: Cleared(db, o, t) {
      assert o !in Loose(db);
      var t :| (t, o) in db.members && !db.members[(t, o)].deferred;
      assert Processed(db, (t, o).1) && Passed(db, (t, o));
      assert Cleared(db, o, t);
    }
    AllDoneExact(db, false);
  }

  lemma FinishedTheOne(db: Db, after: Db, t: TaskId)
    requires WorkedOn(db, after, t) && (forall u :: u in db.tasks && u != t ==> db.tasks[u].done)
    requires Sealed(db) && NoHold(db) && t in db.tasks && after.tasks[t].done
    ensures AllFinished(after) && Loose(after) == Loose(db)
  {
    WorkedOnKeeps(db, after, t);
  }

  /** With all tasks finished: one more loose object, allocated, deleted and verified. */
  lemma DealWithOne(r: Run) returns (more: Run)
    requires Happened(r) && Last(r).session == Idle && AllFinished(Last(r).db) && Loose(Last(r).db) != {}
    requires 0 !in Last(r).db.scan && OnlyPieces(Last(r).db, Last(r).store)
    ensures Continues(r, more) && Last(more).session == Idle && AllFinished(Last(more).db)
    ensures |Loose(Last(more).db)| < |Loose(Last(r).db)| && Last(more).db.scan == Last(r).db.scan
    ensures OnlyPieces(Last(more).db, Last(more).store)
  {
    var made, t := AllocateOne(r);
    var s := Last(made);
    more := FinishTask(made, t);
    Chain(r, made, more);
    FinishedTheOne(s.db, Last(more).db, t);
    StillOnlyPieces(s.db, s.store, Last(more).db, Last(more).store, t);
  }

  lemma {:induction false} CarryOn(r: Run) returns (more: Run)
    requires Happened(r) && Last(r).session == Idle && AllFinished(Last(r).db)
    requires 0 !in Last(r).db.scan && OnlyPieces(Last(r).db, Last(r).store)
    ensures Continues(r, more) && Last(more).session == Idle && AllDone(Last(more).db, false)
    decreases |Loose(Last(r).db)|
  {
    if Loose(Last(r).db) == {} {
      EndIsGood(r);
      NothingLooseIsDone(Last(r).db);
      more := r;
    } else {
      var next := DealWithOne(r);
      more := CarryOn(next);
      Chain(r, next, more);
    }
  }

  /** Nothing stands in the way: what is stored under a listed object is a piece of it, or the object stands. */
  ghost predicate Clearable(s: Sys) {
    && 0 !in s.db.scan
    && forall o, k :: o in s.db.scan && k in Residues(s.store, o) ==> PieceKeys.PieceOf(o, k) || Evidenced(s.db, o)
  }

  lemma SettledThenPieces(s: Sys, next: Sys)
    requires Clearable(s) && next.db.scan == s.db.scan && next.store == s.store
    requires forall o :: Evidenced(s.db, o) ==> Settled(next.db, o)
    ensures OnlyPieces(next.db, next.store)
  {
  }

  lemma ReleasedIsClearable(s: Sys, next: Sys)
    requires Clearable(s) && next.store == s.store && SameWork(s.db, next.db)
    ensures Clearable(next)
  {
    forall o | Evidenced(s.db, o) ensures Evidenced(next.db, o) {
      var t: TaskId :| Stands(s.db, t, o);
      assert Stands(next.db, t, o);
    }
  }

  /**
   From every state that any history reaches with a sealed list, the tool can go on to ALL_DONE
   by itself if nothing stands in the way.
   */
  lemma CanStillFinish(r: Run) returns (more: Run)
    requires Happened(r) && Sealed(Last(r).db) && Clearable(Last(r))
    ensures Continues(r, more) && Last(more).session == Idle && AllDone(Last(more).db, false)
  {
    var s := Last(r);
    var idle := Step(r, Exit, s.(session := Idle));
    var free := ReleaseAll(idle);
    ReleasedIsClearable(s, Last(free));
    var closed := CloseAll(free);
    SettledThenPieces(Last(free), Last(closed));
    more := CarryOn(closed);
    Chain(r, idle, free);
    Chain(r, free, closed);
    Chain(r, closed, more);
  }

  // ---------------------------------------------------------------- when it cannot

  /** A verification is at the object and has its answer for prefix `i`. */
  ghost predicate Asked(s: Sys, o: Oid, i: nat) {
    s.session.Verifying? && s.session.looking.Object? && s.session.looking.oid == o
    && i < |s.session.looking.replies|
  }

  /** Something that is not a piece lies under prefix `i` of an object that does not stand. */
  ghost predicate Stuck(s: Sys, o: Oid, i: nat, k: string)
    requires i < 2
  {
    && k in Under(s.store, o, i) && !PieceKeys.PieceOf(o, k) && !Evidenced(s.db, o)
    && (Asked(s, o, i) ==> s.session.looking.replies[i] != System.Empty)
  }

  lemma UnderOfResidue(store: map<string, nat>, o: Oid, k: string) returns (i: nat)
    requires k in Residues(store, o)
    ensures i < 2 && k in Under(store, o, i)
  {
    i := if k in Under(store, o, 0) then 0 else 1;
  }

  lemma ForeignStays(s: Sys, e: Event, next: Sys, o: Oid, i: nat, k: string)
    requires Apply(s, e) == Some(next) && i < 2 && k in Under(s.store, o, i) && !PieceKeys.PieceOf(o, k)
    ensures k in Under(next.store, o, i)
  {
    if k !in next.store {
      Removals.OnlyRemoveRemoves(s, e, next, k);
      PieceKeys.ListedPieces(e.purge.oid, k);
      PieceKeys.PrefixesDisjoint(e.purge.oid, o, k);
    }
  }

  /** No object has become processed. */
  ghost predicate NoneProcessed(db: Db, after: Db) {
    forall o: Oid :: Processed(after, o) ==> Processed(db, o)
  }

  lemma CreateProcesses(db: Db, target: nat, max: int, retry: bool, id: TaskId)
    ensures var r := Create(db, target, max, retry, id); r.Ok? && r.value.Fresh? ==> NoneProcessed(db, r.value.db)
  {
    CreateAllots(db, target, max, retry, id);
    if 0 <= max {
      AllotSelects(db, target, max, retry, id);
    }
  }

  lemma VerifyProcesses(db: Db, t: TaskId, restart: bool)
    ensures BeginVerify(db, t, restart).Ok? ==> NoneProcessed(db, BeginVerify(db, t, restart).value)
  {
  }

  lemma TaskProcesses(s: Sys, e: TaskEvent)
    requires TaskStep(s, e).Some?
    ensures NoneProcessed(s.db, TaskStep(s, e).value.db)
  {
    match e
    case CreateTask(target, max, retry, id) => CreateProcesses(s.db, target, max, retry, id);
    case StartVerify(id, restart) => VerifyProcesses(s.db, ResolveVerify(s.db, id).value, restart);
    case _ =>
  }

  lemma PurgeProcesses(s: Sys, e: PurgeEvent, o: Oid)
    requires PurgeStep(s, e).Some? && Processed(PurgeStep(s, e).value.db, o) && !Processed(s.db, o)
    ensures var t, after := s.session.task, PurgeStep(s, e).value.db;
            Active(s.db, t, o) && Active(after, t, o) && after.members[(t, o)].check == Pending
  {
  }

  lemma OthersProcess(s: Sys, e: Event, next: Sys)
    requires Apply(s, e) == Some(next) && (e.Scanner? || e.Verifier?)
    ensures NoneProcessed(s.db, next.db)
  {
  }

  /** Only a recorded completion makes an object processed, and it clears the check of its member. */
  lemma NewlyProcessed(s: Sys, e: Event, next: Sys, o: Oid)
    requires Apply(s, e) == Some(next) && Processed(next.db, o) && !Processed(s.db, o)
    ensures s.session.Purging? && Active(s.db, s.session.task, o)
            && Active(next.db, s.session.task, o) && next.db.members[(s.session.task, o)].check == Pending
  {
    match e
    case Open(b) =>
    case Exit =>
    case WriteBack(key, size) =>
    case Scanner(scan) => OthersProcess(s, e, next);
    case Tasks(task) => TaskProcesses(s, task);
    case Purger(purge) => PurgeProcesses(s, purge, o);
    case Verifier(verify) => OthersProcess(s, e, next);
  }

  lemma NotYetStanding(s: Sys, e: Event, next: Sys, t: TaskId, o: Oid, i: nat, k: string)
    requires Good(s) && i < 2 && Stuck(s, o, i, k) && Apply(s, e) == Some(next)
    ensures !Stands(next.db, t, o)
  {
    if Stands(next.db, t, o) {
      Evidence.PassSource(s, e, next, t, o);
      assert !Evidence.JudgedPass(s, e, t, o);
      Histories.StepForward(s, e, next);
      assert Active(s.db, t, o) && Passed(s.db, (t, o));
      assert !Stands(s.db, t, o);
      NewlyProcessed(s, e, next, o);
      ActiveIsNewest(s.db, t, o);
    }
  }

  lemma RepliesStayHonest(s: Sys, e: Event, next: Sys, o: Oid, i: nat, k: string)
    requires Apply(s, e) == Some(next) && i < 2 && Stuck(s, o, i, k)
    requires Asked(next, o, i)
    ensures next.session.looking.replies[i] != System.Empty
  {
    var replies := next.session.looking.replies;
    assert Evidence.Collected(next, o, replies);
    Evidence.ReplySource(s, e, next, o, replies);
  }

  lemma StuckStays(s: Sys, e: Event, next: Sys, o: Oid, i: nat, k: string)
    requires Good(s) && i < 2 && Stuck(s, o, i, k) && Apply(s, e) == Some(next)
    ensures Stuck(next, o, i, k)
  {
    ForeignStays(s, e, next, o, i, k);
    forall t: TaskId ensures !Stands(next.db, t, o) {
      NotYetStanding(s, e, next, t, o, i, k);
    }
    if Asked(next, o, i) {
      RepliesStayHonest(s, e, next, o, i, k);
    }
  }

  lemma StuckNext(r: Run, n: nat, o: Oid, i: nat, k: string)
    requires Happened(r) && n < |r.events| && i < 2 && Stuck(r.states[n], o, i, k)
    ensures Stuck(r.states[n + 1], o, i, k)
  {
    AlwaysGood(r, n);
    StuckStays(r.states[n], r.events[n], r.states[n + 1], o, i, k);
  }

  lemma {:induction false} StuckForever(r: Run, m: nat, n: nat, o: Oid, i: nat, k: string)
    requires Happened(r) && m <= n <= |r.events| && i < 2 && Stuck(r.states[m], o, i, k)
    ensures Stuck(r.states[n], o, i, k)
    decreases n
  {
    if m < n {
      StuckForever(r, m, n - 1, o, i, k);
      StuckNext(r, n - 1, o, i, k);
    }
  }

  lemma FinishedIsEvidenced(db: Db, o: Oid)
    requires Inv(db) && AllDone(db, false) && o in db.scan
    ensures Evidenced(db, o)
  {
    AllDoneIsBacked(db, false);
    var t :| Cleared(db, o, t);
    assert Stands(db, t, o);
  }

  /** What stands in the way between two commands stands in the way of everything that can follow. */
  lemma CannotFinish(r: Run, more: Run)
    requires Happened(r) && Sealed(Last(r).db) && Last(r).session == Idle && Continues(r, more)
    requires AllDone(Last(more).db, false)
    ensures Clearable(Last(r))
  {
    var m, n := |r.events|, |more.events|;
    assert more.states[m] == Last(r);
    Histories.AlwaysForward(more, m, n);
    if 0 in Last(r).db.scan {
      ObjectZero.ZeroBlocksAllDone(more, n, false);
    }
    AlwaysGood(more, n);
    forall o, k | o in Last(r).db.scan && k in Residues(Last(r).store, o) && !PieceKeys.PieceOf(o, k)
      ensures Evidenced(Last(r).db, o)
    {
      var i := UnderOfResidue(Last(r).store, o, k);
      if !Evidenced(Last(r).db, o) {
        StuckForever(more, m, n, o, i, k);
        FinishedIsEvidenced(Last(more).db, o);
      }
    }
  }

  /** Whether the clean-up of a sealed list can still come to its end can be told between any two commands. */
  lemma CanFinishExactly(r: Run)
    requires Happened(r) && Sealed(Last(r).db) && Last(r).session == Idle
    ensures (exists more :: Continues(r, more) && AllDone(Last(more).db, false)) <==> Clearable(Last(r))
  {
    if Clearable(Last(r)) {
      var more := CanStillFinish(r);
    }
    forall more | Continues(r, more) && AllDone(Last(more).db, false) ensures Clearable(Last(r)) {
      CannotFinish(r, more);
    }
  }
}
